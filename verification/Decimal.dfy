/** Reading a decimal quantity, and exactly which strings are accepted. */
module Decimal {
  import opened Common
  import opened DigitStrings
  import opened DecimalText
  import opened DecimalModel

  /** Trailing zeros go as long as they only pad the fraction. */
  function Trimmed(digits: string, scale: int): (string, int) {
    if scale > 0 && digits != "" && digits[|digits| - 1] == '0'
    then Trimmed(digits[..|digits| - 1], scale - 1)
    else (digits, scale)
  }

  function ComparableOf(digits: string, scale: int): Comparable {
    if digits == "" then ZERO else Comparable(digits, |digits| - scale)
  }

  /** The digits a numeral is reduced to, and their scale. */
  function Reduced(n: Numeral): (string, int)
    requires Valid(n)
  {
    Trimmed(DropLeadingZeros(n.whole + n.fraction), |n.fraction| - ExponentValue(n.exponent))
  }

  function Read(raw: string, positive: bool): Option<Comparable> {
    if |raw| > 64 || Parse(raw).None? then None
    else
      var n := Parse(raw).value;
      var (d, s) := Reduced(n);
      var c := ComparableOf(d, s);
      if (positive && DropLeadingZeros(n.whole + n.fraction) == "") || s > 28 || Compare(c, DECIMAL_MAX) > 0
      then None else Some(c)
  }

  /** Cuts a string at its exponent and its point. */
  method Cut(raw: string) returns (digits: string, scale: int)
    requires Parse(raw).Some?
    ensures var n := Parse(raw).value;
      digits == n.whole + n.fraction && scale == |n.fraction| - ExponentValue(n.exponent)
  {
    var unsigned := if raw != "" && raw[0] == '+' then raw[1..] else raw;
    var exponentAt := FindMarker(unsigned);
    var mantissa := unsigned[..exponentAt];
    var dot := FindPoint(mantissa);
    var fraction := if dot == |mantissa| then "" else mantissa[dot + 1..];
    digits := mantissa[..dot] + fraction;
    scale := |fraction| - ExponentValue(ExponentOf(unsigned));
  }

  method ReadDecimal(raw: string, positive: bool) returns (r: Option<Comparable>)
    ensures r == Read(raw, positive)
  {
    hide Parse, Compare, ExponentValue;
    if |raw| > 64 || Parse(raw).None? { return None; }
    var allDigits, scale := Cut(raw);
    var digits := DropLeadingZeros(allDigits);
    if positive && |digits| == 0 { return None; }
    ghost var trimmed := Trimmed(digits, scale);
    while scale > 0 && digits != "" && digits[|digits| - 1] == '0'
      invariant Trimmed(digits, scale) == trimmed
    {
      digits := digits[..|digits| - 1];
      scale := scale - 1;
    }
    var comparable := if |digits| == 0 then ZERO else Comparable(digits, |digits| - scale);
    if scale > 28 || Compare(comparable, DECIMAL_MAX) > 0 { return None; }
    return Some(comparable);
  }

  // ---- Trimming ----------------------------------------------------------------

  predicate NoTrailingZero(digits: string) {
    digits != "" ==> digits[|digits| - 1] != '0'
  }

  lemma {:induction false} TrimmedKeepsValue(digits: string, scale: int)
    requires AllDigits(digits) && (digits != "" ==> digits[0] != '0')
    ensures var (d, s) := Trimmed(digits, scale);
      && AllDigits(d) && (d == "" <==> digits == "") && (d != "" ==> d[0] != '0')
      && Scaled(Number(d), -s) == Scaled(Number(digits), -scale)
      && (s > 0 ==> NoTrailingZero(d))
      && (digits == "" ==> s == scale)
  {
    if scale > 0 && digits != "" && digits[|digits| - 1] == '0' {
      var shorter := digits[..|digits| - 1];
      TrimmedKeepsValue(shorter, scale - 1);
      assert Number(digits) == Number(shorter) * Pow10(1);
      ScaledPadded(Number(shorter), 1, -scale);
      hide Scaled, Number;
    }
  }

  // ---- Which strings are accepted ---------------------------------------------------

  predicate IsInteger(x: real) {
    x == x.Floor as real
  }

  function Shifted(x: real, k: nat): real {
    x * TenTo(k)
  }

  /** At most 28 decimals. A zero has none to count, so the way it is written is measured. */
  predicate Fits(n: Numeral)
    requires Valid(n)
  {
    if Denotes(n) == 0.0 then |n.fraction| - ExponentValue(n.exponent) <= 28
    else IsInteger(Shifted(Denotes(n), 28))
  }

  lemma TenToNat(k: nat)
    ensures TenTo(k) == Pow10(k) as real
  {
    hide Pow10;
  }

  lemma ScaledTimes(n: nat, e: int, k: nat)
    ensures Shifted(Scaled(n, e), k) == Scaled(n, e + k)
  {
    hide TenTo, Pow10;
    TenToPlus(e, k);
    TenToNat(k);
    Associate(n as real, TenTo(e), TenTo(k));
  }

  lemma Associate(x: real, y: real, z: real)
    ensures (x * y) * z == x * (y * z)
  {
  }

  lemma LastDigit(digits: string)
    requires AllDigits(digits) && digits != ""
    ensures Number(digits) % 10 == DigitValue(digits[|digits| - 1])
  {
  }

  lemma WholeNumber(n: nat, k: nat)
    ensures Scaled(n, k) == (n * Pow10(k)) as real
  {
    hide TenTo, Pow10;
    TenToNat(k);
    RealProduct(n, Pow10(k));
  }

  /** With no trailing zero to spare, s decimals are needed. */
  lemma DecimalsNeeded(digits: string, s: int, k: nat)
    requires AllDigits(digits) && digits != "" && (s > 0 ==> NoTrailingZero(digits))
    ensures IsInteger(Scaled(Number(digits), k - s)) <==> s <= k
  {
    var n := Number(digits);
    LastDigit(digits);
    hide Scaled, Number, Pow10, IsInteger;
    if s <= k {
      ShiftedIsInteger(n, k - s);
    } else if IsInteger(Scaled(n, k - s)) {
      Divides(n, s - k);
    }
  }

  lemma Divides(n: nat, k: nat)
    requires k > 0 && IsInteger(Scaled(n, 0 - k))
    ensures n % 10 == 0
  {
    var m := Scaled(n, 0 - k).Floor;
    var p := Pow10(k - 1);
    assert Pow10(k) == 10 * p;
    hide TenTo, Pow10, Scaled;
    ScaledTimes(n, 0 - k, k);
    WholeNumber(n, 0);
    PowZero();
    TenToNat(k);
    IntProduct(m, 10 * p);
    assert n == m * (10 * p);
    IntRegroup(m, p);
  }

  lemma ShiftedIsInteger(n: nat, k: nat)
    ensures IsInteger(Scaled(n, k))
  {
    hide Pow10, Scaled;
    WholeNumber(n, k);
    var m := n * Pow10(k);
    assert (m as real).Floor == m;
  }

  lemma PowZero()
    ensures Pow10(0) == 1
  {
  }

  lemma IntRegroup(m: int, p: int)
    ensures m * (10 * p) == 10 * (m * p)
  {
  }

  lemma IntProduct(m: int, n: int)
    ensures (m * n) as real == m as real * n as real
  {
  }

  /** Appends five digits to a number already read. */
  lemma FiveMore(s: string, n: nat, next: string, m: nat, longer: string)
    requires AllDigits(s) && Number(s) == n && AllDigits(next) && |next| == 5 && longer == s + next
    requires m == 10000 * DigitValue(next[0]) + 1000 * DigitValue(next[1]) + 100 * DigitValue(next[2])
                  + 10 * DigitValue(next[3]) + DigitValue(next[4])
    ensures AllDigits(longer) && Number(longer) == n * 100000 + m
  {
    FiveDigits(next);
    NumberConcat(s, next);
    assert Pow10(5) == 100000;
  }

  lemma MaxNumber()
    ensures AllDigits("079228162514264337593543950335")
    ensures Number("079228162514264337593543950335") == 79228162514264337593543950335
  {
    hide Number;
    FiveDigits("07922");
    FiveMore("07922", 7922, "81625", 81625, "0792281625");
    FiveMore("0792281625", 792281625, "14264", 14264, "079228162514264");
    FiveMore("079228162514264", 79228162514264, "33759", 33759, "07922816251426433759");
    FiveMore("07922816251426433759", 7922816251426433759, "35439", 35439, "0792281625142643375935439");
    FiveMore("0792281625142643375935439", 792281625142643375935439, "50335", 50335,
             "079228162514264337593543950335");
  }

  lemma WithoutZero(s: string, digits: string)
    requires s == "0" + digits && AllDigits(s)
    ensures AllDigits(digits) && Number(s) == Number(digits)
  {
    FirstDigit(s);
    assert s[1..] == digits;
  }

  /** The largest decimal the validator admits is 2^96-1. */
  lemma MaxIsExact()
    ensures Canonical(DECIMAL_MAX) && Value(DECIMAL_MAX) == TWO_TO_96 - 1.0
  {
    hide Number, Pow10, Scaled;
    MaxNumber();
    WithoutZero("079228162514264337593543950335", DECIMAL_MAX.digits);
    WholeNumber(79228162514264337593543950335, 0);
    PowZero();
  }

  lemma ReducedDigits(n: Numeral)
    requires Valid(n)
    ensures var (d, s) := Reduced(n);
      && AllDigits(d) && (d != "" ==> d[0] != '0') && (s > 0 ==> NoTrailingZero(d))
      && Scaled(Number(d), -s) == Denotes(n)
      && (d == "" <==> DropLeadingZeros(n.whole + n.fraction) == "")
      && (d == "" ==> s == |n.fraction| - ExponentValue(n.exponent))
  {
    var all := n.whole + n.fraction;
    LeadingZeros(all);
    TrimmedKeepsValue(DropLeadingZeros(all), |n.fraction| - ExponentValue(n.exponent));
    hide DropLeadingZeros, Trimmed, Scaled, Number, ExponentValue;
  }

  /** The form a numeral is reduced to has exactly its value. */
  lemma ReducedIsExact(n: Numeral)
    requires Valid(n)
    ensures var (d, s) := Reduced(n);
      && Canonical(ComparableOf(d, s)) && Value(ComparableOf(d, s)) == Denotes(n)
      && (d == "" <==> Denotes(n) == 0.0) && Denotes(n) >= 0.0
  {
    var (d, s) := Reduced(n);
    ReducedDigits(n);
    hide Reduced, Scaled, Denotes, Number, ExponentValue;
    if d == "" {
      ScaledZero(-s);
      ScaledZero(-1);
    } else {
      NonzeroIsPositive(d, -s);
    }
  }

  lemma ReducedFits(n: Numeral)
    requires Valid(n)
    ensures Fits(n) <==> Reduced(n).1 <= 28
  {
    var (d, s) := Reduced(n);
    ReducedDigits(n);
    ReducedIsExact(n);
    hide Reduced, Scaled, Denotes, Shifted, Number, ExponentValue, IsInteger;
    if d != "" {
      DecimalsNeeded(d, s, 28);
      ScaledTimes(Number(d), -s, 28);
    }
  }

  lemma ScaledZero(e: int)
    ensures Scaled(Number(""), e) == 0.0 && Scaled(Number("0"), e) == 0.0
  {
    assert Number("0") == 10 * Number("") + 0;
  }

  lemma NonzeroIsPositive(digits: string, e: int)
    requires AllDigits(digits) && digits != "" && digits[0] != '0'
    ensures Scaled(Number(digits), e) > 0.0
  {
    LeadingDigit(digits);
    ScaledMonotone(0, Number(digits), e);
    ScaledZero(e);
  }

  /**
   Accepted are exactly the printed numerals of at most 64 characters that denote a number of at
   most 2^96-1 with at most 28 decimals (positive where asked); the form kept has that exact value.
   */
  lemma AcceptedExactly(raw: string, positive: bool)
    ensures Read(raw, positive).Some? <==>
      && |raw| <= 64
      && Parse(raw).Some?
      && (positive ==> Denotes(Parse(raw).value) > 0.0)
      && Denotes(Parse(raw).value) <= TWO_TO_96 - 1.0
      && Fits(Parse(raw).value)
    ensures Read(raw, positive).Some? ==>
      Canonical(Read(raw, positive).value) && Value(Read(raw, positive).value) == Denotes(Parse(raw).value)
  {
    if Parse(raw).Some? {
      var n := Parse(raw).value;
      var (d, s) := Reduced(n);
      ReducedDigits(n);
      ReducedIsExact(n);
      ReducedFits(n);
      MaxIsExact();
      CompareIsExact(ComparableOf(d, s), DECIMAL_MAX);
      hide Compare, Denotes, Fits, ComparableOf, Reduced, DropLeadingZeros, Value, Canonical, Parse;
    }
  }

  /** Comparing two accepted strings gives the sign of the exact difference of what they denote. */
  lemma ComparisonOfAccepted(a: string, p: bool, b: string, q: bool)
    requires Read(a, p).Some? && Read(b, q).Some?
    ensures Parse(a).Some? && Parse(b).Some?
    ensures Compare(Read(a, p).value, Read(b, q).value)
      == SignOfDifference(Denotes(Parse(a).value), Denotes(Parse(b).value))
  {
    AcceptedExactly(a, p);
    AcceptedExactly(b, q);
    CompareIsExact(Read(a, p).value, Read(b, q).value);
  }

  /** A zero written with more than 28 decimals is refused although its value is in range. */
  lemma LongZeroIsRefused(n: Numeral, raw: string)
    requires Valid(n) && Print(n) == raw
    requires Denotes(n) == 0.0 && |n.fraction| - ExponentValue(n.exponent) > 28
    ensures Read(raw, false).None?
  {
    ParseIsUnique(raw, n);
    AcceptedExactly(raw, false);
  }
}
