/** The version recogniser, against Semantic Versioning 2.0.0. */
module SemVer {
  import opened Common
  import opened DigitStrings
  import opened Splitting

  const U64_MAX := 18446744073709551615

  // ---- The recogniser ---------------------------------------------------------

  predicate IsIdentifierChar(c: char) {
    IsDigit(c) || 'A' <= c <= 'Z' || 'a' <= c <= 'z' || c == '-'
  }

  predicate ValidIdentifier(s: string, rejectLeadingZeros: bool) {
    && s != ""
    && (forall i :: 0 <= i < |s| ==> IsIdentifierChar(s[i]))
    && (rejectLeadingZeros ==> !(|s| >= 2 && s[0] == '0' && AllDigits(s)))
  }

  predicate AllValid(parts: seq<string>, rejectLeadingZeros: bool) {
    forall i :: 0 <= i < |parts| ==> ValidIdentifier(parts[i], rejectLeadingZeros)
  }

  predicate IdentifiersAreValid(s: string, rejectLeadingZeros: bool) {
    s != "" && AllValid(Split(s, '.'), rejectLeadingZeros)
  }

  /** A decimal number with no needless leading zero. */
  predicate IsNumeral(s: string) {
    s != "" && AllDigits(s) && (s == "0" || s[0] != '0')
  }

  predicate IsCoreNumber(s: string) {
    |s| <= 20 && IsNumeral(s) && Number(s) <= U64_MAX
  }

  predicate IsCore(s: string) {
    var parts := Split(s, '.');
    |parts| == 3 && IsCoreNumber(parts[0]) && IsCoreNumber(parts[1]) && IsCoreNumber(parts[2])
  }

  predicate IsRelease(s: string) {
    var hyphen := IndexOf(s, '-');
    && (hyphen < |s| ==> IdentifiersAreValid(s[hyphen + 1..], true))
    && IsCore(s[..hyphen])
  }

  predicate IsSemVer(s: string) {
    var parts := Split(s, '+');
    && |parts| <= 2
    && (|parts| == 2 ==> IdentifiersAreValid(parts[1], false))
    && IsRelease(parts[0])
  }

  // ---- Versions ------------------------------------------------------------------

  datatype Version = Version(
    major: nat, minor: nat, patch: nat, preRelease: Option<seq<string>>, build: Option<seq<string>>)

  /** Items 2, 9 and 10 of the standard, with core numbers of 64 bits. */
  predicate Valid(v: Version) {
    && v.major <= U64_MAX && v.minor <= U64_MAX && v.patch <= U64_MAX
    && (v.preRelease.Some? ==> v.preRelease.value != [] && AllValid(v.preRelease.value, true))
    && (v.build.Some? ==> v.build.value != [] && AllValid(v.build.value, false))
  }

  function PrintNumber(n: nat): string {
    if n < 10 then [('0' as int + n) as char] else PrintNumber(n / 10) + [('0' as int + n % 10) as char]
  }

  function PrintCore(v: Version): string {
    Join([PrintNumber(v.major), PrintNumber(v.minor), PrintNumber(v.patch)], '.')
  }

  function PrintRelease(v: Version): string
    requires Valid(v)
  {
    PrintCore(v) + if v.preRelease.Some? then "-" + Join(v.preRelease.value, '.') else ""
  }

  function Print(v: Version): string
    requires Valid(v)
  {
    PrintRelease(v) + if v.build.Some? then "+" + Join(v.build.value, '.') else ""
  }

  /** The core of a version, as read from its three numerals. */
  function ReadCore(core: string): Version
    requires IsCore(core)
  {
    var parts := Split(core, '.');
    Version(Number(parts[0]), Number(parts[1]), Number(parts[2]), None, None)
  }

  function ReadRelease(s: string): Version
    requires IsRelease(s)
  {
    var hyphen := IndexOf(s, '-');
    ReadCore(s[..hyphen]).(preRelease := if hyphen < |s| then Some(Split(s[hyphen + 1..], '.')) else None)
  }

  /** The version a recognised string names. */
  function Read(s: string): Version
    requires IsSemVer(s)
  {
    var parts := Split(s, '+');
    ReadRelease(parts[0]).(build := if |parts| == 2 then Some(Split(parts[1], '.')) else None)
  }

  // ---- Numbers ---------------------------------------------------------------------

  lemma {:induction false} PrintedNumber(n: nat)
    ensures IsNumeral(PrintNumber(n)) && Number(PrintNumber(n)) == n
  {
    var s := PrintNumber(n);
    if n < 10 {
      assert s[..0] == "";
    } else {
      PrintedNumber(n / 10);
      assert s[..|s| - 1] == PrintNumber(n / 10);
      assert Number("0") == 10 * Number("") + 0;
      assert PrintNumber(n / 10) != "0";
    }
  }

  lemma {:induction false} NumeralIsPrinted(s: string)
    requires IsNumeral(s)
    ensures PrintNumber(Number(s)) == s
  {
    if |s| == 1 {
      assert Number(s) == 10 * Number(s[..0]) + DigitValue(s[0]);
    } else {
      var front := s[..|s| - 1];
      LeadingDigit(s);
      LeadingDigit(front);
      NumeralIsPrinted(front);
      assert s == front + [s[|s| - 1]];
    }
  }

  lemma LongNumeral(s: string)
    requires IsNumeral(s) && |s| > 20
    ensures Number(s) > U64_MAX
  {
    LeadingDigit(s);
    assert Pow10(10) == 10000000000;
    Pow10Plus(10, 10);
    Pow10Plus(20, |s| - 21);
    MulStep(0, Pow10(|s| - 21), Pow10(20));
    hide Pow10, Number;
  }

  /** Twenty digits are enough for 64 bits. */
  lemma CoreNumberLength(s: string)
    requires IsNumeral(s) && Number(s) <= U64_MAX
    ensures |s| <= 20
  {
    if |s| > 20 {
      LongNumeral(s);
      assert false;
    }
  }

  lemma PrintedCoreNumber(n: nat)
    requires n <= U64_MAX
    ensures IsCoreNumber(PrintNumber(n)) && Number(PrintNumber(n)) == n
    ensures Lacks(PrintNumber(n), '.') && Lacks(PrintNumber(n), '-') && Lacks(PrintNumber(n), '+')
  {
    PrintedNumber(n);
    CoreNumberLength(PrintNumber(n));
  }

  // ---- Identifiers --------------------------------------------------------------------

  lemma IdentifiersLack(parts: seq<string>, reject: bool)
    requires AllValid(parts, reject)
    ensures AllLack(parts, '.') && AllLack(parts, '+')
  {
  }

  lemma {:induction false} JoinLacks(parts: seq<string>, c: char, d: char)
    requires parts != [] && AllLack(parts, d) && c != d
    ensures Lacks(Join(parts, c), d)
  {
    if |parts| > 1 { JoinLacks(parts[1..], c, d); }
  }

  lemma SplitIdentifiers(s: string, reject: bool)
    requires IdentifiersAreValid(s, reject)
    ensures Split(s, '.') != [] && AllValid(Split(s, '.'), reject) && Join(Split(s, '.'), '.') == s
  {
    JoinSplit(s, '.');
  }

  lemma JoinIdentifiers(parts: seq<string>, reject: bool)
    requires parts != [] && AllValid(parts, reject)
    ensures IdentifiersAreValid(Join(parts, '.'), reject) && Split(Join(parts, '.'), '.') == parts
    ensures Lacks(Join(parts, '.'), '+')
  {
    IdentifiersLack(parts, reject);
    SplitJoin(parts, '.');
    JoinLacks(parts, '.', '+');
    assert ValidIdentifier(parts[0], reject);
  }

  // ---- Printing what was read --------------------------------------------------------------

  lemma CoreReprints(s: string, pre: Option<seq<string>>)
    requires IsCore(s)
    ensures PrintCore(ReadCore(s).(preRelease := pre)) == s
  {
    var parts := Split(s, '.');
    JoinSplit(s, '.');
    NumeralIsPrinted(parts[0]);
    NumeralIsPrinted(parts[1]);
    NumeralIsPrinted(parts[2]);
    assert parts == [parts[0], parts[1], parts[2]];
    hide Join, Split, PrintNumber, Number;
  }

  lemma TwoParts(s: string, c: char)
    requires |Split(s, c)| <= 2
    ensures var parts := Split(s, c);
      s == parts[0] + if |parts| == 2 then [c] + parts[1] else ""
  {
    JoinSplit(s, c);
    var parts := Split(s, c);
    if |parts| == 2 {
      assert Join(parts, c) == parts[0] + [c] + Join(parts[1..], c);
    }
  }

  lemma CutAt(s: string, k: nat)
    requires k < |s|
    ensures s == s[..k] + ([s[k]] + s[k + 1..])
  {
  }

  lemma ReleaseReprints(s: string)
    requires IsRelease(s)
    ensures Valid(ReadRelease(s)) && PrintRelease(ReadRelease(s)) == s
  {
    var hyphen := IndexOf(s, '-');
    var v := ReadRelease(s);
    assert v.major <= U64_MAX && v.minor <= U64_MAX && v.patch <= U64_MAX && v.build.None?;
    CoreReprints(s[..hyphen], v.preRelease);
    hide Join, Split, PrintCore, ReadCore, IsCore;
    if hyphen < |s| {
      SplitIdentifiers(s[hyphen + 1..], true);
      CutAt(s, hyphen);
    } else {
      assert s == s[..hyphen] + "";
    }
  }

  /** A recognised string is the printing of the valid version it reads as. */
  lemma ReadReprints(s: string)
    requires IsSemVer(s)
    ensures Valid(Read(s)) && Print(Read(s)) == s
  {
    var parts := Split(s, '+');
    ReleaseReprints(parts[0]);
    TwoParts(s, '+');
    if |parts| == 2 { SplitIdentifiers(parts[1], false); }
    assert PrintRelease(Read(s)) == PrintRelease(ReadRelease(parts[0]));
    hide Join, Split, PrintRelease, ReadRelease, AllValid;
  }

  // ---- Reading what was printed --------------------------------------------------------------

  lemma PrintedCore(v: Version)
    requires Valid(v)
    ensures IsCore(PrintCore(v)) && Lacks(PrintCore(v), '-') && Lacks(PrintCore(v), '+')
    ensures var parts := Split(PrintCore(v), '.');
      Number(parts[0]) == v.major && Number(parts[1]) == v.minor && Number(parts[2]) == v.patch
  {
    var parts := [PrintNumber(v.major), PrintNumber(v.minor), PrintNumber(v.patch)];
    PrintedCoreNumber(v.major);
    PrintedCoreNumber(v.minor);
    PrintedCoreNumber(v.patch);
    hide PrintNumber, Number;
    SplitJoin(parts, '.');
    JoinLacks(parts, '.', '-');
    JoinLacks(parts, '.', '+');
  }

  lemma HyphenCut(core: string, pre: string)
    requires Lacks(core, '-')
    ensures var s := core + ("-" + pre);
      IndexOf(s, '-') == |core| && s[..|core|] == core && s[|core| + 1..] == pre
    ensures IndexOf(core, '-') == |core| && core + "" == core && core[..|core|] == core
  {
    IndexIsFirst(core, "-" + pre, '-');
    assert core + "" == core;
    IndexIsFirst(core, "", '-');
  }

  lemma ReleaseWith(core: string, pre: string)
    requires IsCore(core) && Lacks(core, '-') && Lacks(core, '+')
    requires IdentifiersAreValid(pre, true) && Lacks(pre, '+')
    ensures var s := core + ("-" + pre);
      IsRelease(s) && Lacks(s, '+') && ReadRelease(s) == ReadCore(core).(preRelease := Some(Split(pre, '.')))
  {
    HyphenCut(core, pre);
    hide Split, IsCore, IndexOf, IdentifiersAreValid, ReadCore;
  }

  lemma ReleaseWithout(core: string)
    requires IsCore(core) && Lacks(core, '-') && Lacks(core, '+')
    ensures core + "" == core && IsRelease(core) && ReadRelease(core) == ReadCore(core)
  {
    HyphenCut(core, "");
    hide Split, IsCore, IndexOf, IdentifiersAreValid, ReadCore;
  }

  lemma PrintedRelease(v: Version)
    requires Valid(v)
    ensures var s := PrintRelease(v);
      IsRelease(s) && Lacks(s, '+') && ReadRelease(s) == v.(build := None)
  {
    var core := PrintCore(v);
    PrintedCore(v);
    assert ReadCore(core) == Version(v.major, v.minor, v.patch, None, None);
    hide PrintCore, Join, Split, IsCore, IdentifiersAreValid, IsRelease, ReadRelease, ReadCore, Lacks;
    if v.preRelease.Some? {
      JoinIdentifiers(v.preRelease.value, true);
      ReleaseWith(core, Join(v.preRelease.value, '.'));
    } else {
      ReleaseWithout(core);
    }
  }

  lemma JoinTwo(a: string, b: string, c: char)
    ensures Join([a, b], c) == a + ([c] + b)
  {
    assert [a, b][1..] == [b];
    assert Join([b], c) == b;
    assert a + [c] + b == a + ([c] + b);
  }

  lemma SplitOnce(a: string, b: Option<string>, c: char)
    requires Lacks(a, c) && (b.Some? ==> Lacks(b.value, c))
    ensures Split(a + if b.Some? then [c] + b.value else "", c) == if b.Some? then [a, b.value] else [a]
  {
    hide Split, Join;
    if b.Some? {
      SplitJoin([a, b.value], c);
      JoinTwo(a, b.value, c);
    } else {
      SplitAlone(a, c);
    }
  }

  lemma SplitAlone(a: string, c: char)
    requires Lacks(a, c)
    ensures Split(a, c) == [a] && a + "" == a
  {
    SplitJoin([a], c);
  }

  /** A printed valid version is recognised and reads as itself. */
  lemma PrintReads(v: Version)
    requires Valid(v)
    ensures IsSemVer(Print(v)) && Read(Print(v)) == v
  {
    var release := PrintRelease(v);
    PrintedRelease(v);
    var build := if v.build.Some? then Some(Join(v.build.value, '.')) else None;
    if v.build.Some? { JoinIdentifiers(v.build.value, false); }
    SplitOnce(release, build, '+');
    hide PrintRelease, ReadRelease, IsRelease, Join, Split, IdentifiersAreValid;
  }

  /** A string is recognised exactly when it is the printing of a valid version, and of only one. */
  lemma SemVerIff(s: string)
    ensures IsSemVer(s) <==> exists v :: Valid(v) && Print(v) == s
    ensures forall v, w :: Valid(v) && Valid(w) && Print(v) == s && Print(w) == s ==> v == w
  {
    if IsSemVer(s) {
      ReadReprints(s);
    }
    forall v | Valid(v) && Print(v) == s
      ensures IsSemVer(s) && Read(s) == v
    {
      PrintReads(v);
    }
    hide Print, Valid, IsSemVer;
  }
}
