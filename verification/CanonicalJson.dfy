/** The canonical form behind content fingerprints: JSON with the keys of every object sorted. */
module CanonicalJson {
  import opened DigitStrings

  datatype Json = Leaf(text: string) | Arr(items: seq<Json>) | Obj(fields: seq<Field>)
  datatype Field = Field(name: string, value: Json)

  predicate DistinctNames(fields: seq<Field>) {
    forall i, j :: 0 <= i < j < |fields| ==> fields[i].name != fields[j].name
  }

  /** No object has a key twice. */
  predicate WellFormed(j: Json) {
    match j
    case Leaf(_) => true
    case Arr(items) => forall i :: 0 <= i < |items| ==> WellFormed(items[i])
    case Obj(fields) => DistinctNames(fields) && forall i :: 0 <= i < |fields| ==> WellFormed(fields[i].value)
  }

  function Insert(sorted: seq<Field>, f: Field): seq<Field> {
    if sorted == [] || Precedes(f.name, sorted[0].name) then [f] + sorted
    else [sorted[0]] + Insert(sorted[1..], f)
  }

  function SortByName(fields: seq<Field>): seq<Field> {
    if fields == [] then [] else Insert(SortByName(fields[1..]), fields[0])
  }

  function Sort(j: Json): Json {
    match j
    case Leaf(_) => j
    case Arr(items) => Arr(seq(|items|, i requires 0 <= i < |items| => Sort(items[i])))
    case Obj(fields) =>
      Obj(SortByName(
            seq(|fields|, i requires 0 <= i < |fields| => Field(fields[i].name, Sort(fields[i].value)))))
  }

  /** Equal but for the order of keys. */
  predicate Same(a: Json, b: Json) {
    match a
    case Leaf(text) => b == Leaf(text)
    case Arr(items) =>
      b.Arr? && |items| == |b.items| && forall i :: 0 <= i < |items| ==> Same(items[i], b.items[i])
    case Obj(fields) =>
      b.Obj? && |fields| == |b.fields|
      && forall i :: 0 <= i < |fields| ==>
           exists k :: 0 <= k < |b.fields| && b.fields[k].name == fields[i].name
                       && Same(fields[i].value, b.fields[k].value)
  }

  // ---- Text order is a strict total order -----------------------------------------

  lemma {:induction false} PrecedesOrder(a: string, b: string)
    ensures !(Precedes(a, b) && Precedes(b, a)) && (a == b || Precedes(a, b) || Precedes(b, a))
    ensures !Precedes(a, a)
  {
    if a != "" && b != "" {
      PrecedesOrder(a[1..], b[1..]);
      assert a == [a[0]] + a[1..] && b == [b[0]] + b[1..];
    }
    if a != "" { PrecedesOrder(a[1..], a[1..]); }
  }

  lemma {:induction false} PrecedesTransitive(a: string, b: string, c: string)
    requires Precedes(a, b) && Precedes(b, c)
    ensures Precedes(a, c)
  {
    if a != "" && b[0] == a[0] && c[0] == b[0] {
      PrecedesTransitive(a[1..], b[1..], c[1..]);
    }
  }

  predicate Ascending(fields: seq<Field>) {
    forall i, j :: 0 <= i < j < |fields| ==> Precedes(fields[i].name, fields[j].name)
  }

  // ---- Sorting fields ---------------------------------------------------------------

  lemma {:induction false} InsertHolds(sorted: seq<Field>, f: Field)
    requires Ascending(sorted) && forall i :: 0 <= i < |sorted| ==> sorted[i].name != f.name
    ensures Ascending(Insert(sorted, f)) && |Insert(sorted, f)| == |sorted| + 1
    ensures forall x :: x in Insert(sorted, f) <==> x in sorted || x == f
  {
    if sorted != [] {
      var rest := sorted[1..];
      PrecedesOrder(f.name, sorted[0].name);
      if Precedes(f.name, sorted[0].name) {
        forall i | 0 <= i < |sorted|
          ensures Precedes(f.name, sorted[i].name)
        {
          if i > 0 { PrecedesTransitive(f.name, sorted[0].name, sorted[i].name); }
        }
      } else {
        InsertHolds(rest, f);
        var r := Insert(rest, f);
        forall i | 0 <= i < |r|
          ensures Precedes(sorted[0].name, r[i].name)
        {
          assert r[i] in r;
          if r[i] != f {
            var k :| 0 <= k < |rest| && rest[k] == r[i];
            assert sorted[k + 1] == r[i];
          }
        }
        assert sorted == [sorted[0]] + rest;
      }
    }
  }

  lemma {:induction false} SortHolds(fields: seq<Field>)
    requires DistinctNames(fields)
    ensures Ascending(SortByName(fields)) && |SortByName(fields)| == |fields|
    ensures forall x :: x in SortByName(fields) <==> x in fields
  {
    if fields != [] {
      var rest := fields[1..];
      assert fields == [fields[0]] + rest;
      SortHolds(rest);
      var s := SortByName(rest);
      forall i | 0 <= i < |s|
        ensures s[i].name != fields[0].name
      {
        assert s[i] in s;
        var k :| 0 <= k < |rest| && rest[k] == s[i];
        assert fields[k + 1] == s[i];
      }
      InsertHolds(s, fields[0]);
    }
  }

  /** The first of an ascending list precedes every other element. */
  lemma FirstPrecedes(s: seq<Field>, x: Field)
    requires Ascending(s) && s != [] && x in s
    ensures x == s[0] || Precedes(s[0].name, x.name)
  {
    var i :| 0 <= i < |s| && s[i] == x;
  }

  /** An ascending list is determined by what it holds. */
  lemma {:induction false} AscendingIsUnique(s: seq<Field>, t: seq<Field>)
    requires Ascending(s) && Ascending(t) && forall x :: x in s <==> x in t
    ensures s == t
    decreases |s|
  {
    if s == [] {
      assert forall i :: 0 <= i < |t| ==> t[i] in t;
    } else {
      assert s[0] in t;
      assert t[0] in s;
      FirstPrecedes(s, t[0]);
      FirstPrecedes(t, s[0]);
      PrecedesOrder(s[0].name, t[0].name);
      assert s[0] == t[0];
      TailHolds(s, t);
      AscendingIsUnique(s[1..], t[1..]);
      assert s == [s[0]] + s[1..] && t == [t[0]] + t[1..];
    }
  }

  lemma TailHolds(s: seq<Field>, t: seq<Field>)
    requires Ascending(s) && Ascending(t) && s != [] && t != [] && s[0] == t[0]
    requires forall x :: x in s <==> x in t
    ensures forall x :: x in s[1..] <==> x in t[1..]
    ensures Ascending(s[1..]) && Ascending(t[1..])
  {
    forall x | x in s[1..]
      ensures x in t[1..]
    {
      InTail(s, x);
      assert x in t;
      var k :| 0 <= k < |t| && t[k] == x;
      assert t[1..][k - 1] == x;
    }
    forall x | x in t[1..]
      ensures x in s[1..]
    {
      InTail(t, x);
      assert x in s;
      var k :| 0 <= k < |s| && s[k] == x;
      assert s[1..][k - 1] == x;
    }
  }

  lemma InTail(s: seq<Field>, x: Field)
    requires Ascending(s) && s != [] && x in s[1..]
    ensures x in s && x != s[0]
  {
    var i :| 0 <= i < |s[1..]| && s[1..][i] == x;
    assert s[i + 1] == x;
    PrecedesOrder(s[0].name, s[0].name);
  }

  // ---- The canonical form --------------------------------------------------------------

  function SortedValues(fields: seq<Field>): (r: seq<Field>)
    ensures |r| == |fields|
    ensures forall i :: 0 <= i < |fields| ==> r[i] == Field(fields[i].name, Sort(fields[i].value))
  {
    seq(|fields|, i requires 0 <= i < |fields| => Field(fields[i].name, Sort(fields[i].value)))
  }

  lemma SortObject(fields: seq<Field>)
    ensures Sort(Obj(fields)) == Obj(SortByName(SortedValues(fields)))
  {
    var direct := seq(|fields|, i requires 0 <= i < |fields| => Field(fields[i].name, Sort(fields[i].value)));
    assert direct == SortedValues(fields);
  }

  /** Two objects have the same canonical form exactly when they hold the same sorted fields. */
  lemma ObjectsAgreeIff(a: seq<Field>, b: seq<Field>)
    requires DistinctNames(a) && DistinctNames(b)
    ensures Sort(Obj(a)) == Sort(Obj(b)) <==> forall x :: x in SortedValues(a) <==> x in SortedValues(b)
  {
    var sa, sb := SortedValues(a), SortedValues(b);
    SortObject(a);
    SortObject(b);
    SortHolds(sa);
    SortHolds(sb);
    hide Sort, SortByName, SortedValues, Ascending;
    if forall x :: x in sa <==> x in sb {
      AscendingIsUnique(SortByName(sa), SortByName(sb));
    }
    if SortByName(sa) == SortByName(sb) {
      forall x
        ensures x in sa <==> x in sb
      {
        assert x in SortByName(sa) <==> x in SortByName(sb);
      }
    }
  }

  function Names(fields: seq<Field>): set<string> {
    set i | 0 <= i < |fields| :: fields[i].name
  }

  lemma {:induction false} NamesCount(fields: seq<Field>)
    requires DistinctNames(fields)
    ensures |Names(fields)| == |fields|
  {
    if fields != [] {
      var n := |fields| - 1;
      var front := fields[..n];
      NamesCount(front);
      assert Names(fields) == Names(front) + {fields[n].name} by {
        assert forall i :: 0 <= i < n ==> front[i] == fields[i];
      }
    }
  }

  lemma NamesEqual(a: seq<Field>, b: seq<Field>)
    requires DistinctNames(a) && DistinctNames(b) && |a| == |b| && Names(a) <= Names(b)
    ensures Names(a) == Names(b)
  {
    NamesCount(a);
    NamesCount(b);
    assert |Names(b) - Names(a)| == 0;
  }

  /** Matching every field of one object in another of the same size matches all fields of both. */
  lemma MatchedFields(a: seq<Field>, b: seq<Field>)
    requires DistinctNames(a) && DistinctNames(b) && |a| == |b|
    requires forall i :: 0 <= i < |a| ==>
      exists k :: 0 <= k < |b| && b[k].name == a[i].name && Sort(a[i].value) == Sort(b[k].value)
    ensures forall x :: x in SortedValues(a) <==> x in SortedValues(b)
  {
    hide Sort;
    var sa, sb := SortedValues(a), SortedValues(b);
    forall i | 0 <= i < |a|
      ensures a[i].name in Names(b) && sa[i] in sb
    {
      var k :| 0 <= k < |b| && b[k].name == a[i].name && Sort(a[i].value) == Sort(b[k].value);
      assert sb[k] == sa[i];
    }
    NamesEqual(a, b);
    forall k | 0 <= k < |b|
      ensures sb[k] in sa
    {
      assert b[k].name in Names(a);
      var i :| 0 <= i < |a| && a[i].name == b[k].name;
      var k' :| 0 <= k' < |b| && b[k'].name == a[i].name && Sort(a[i].value) == Sort(b[k'].value);
      assert k' == k;
      assert sa[i] == sb[k];
    }
  }

  lemma MatchFromEqual(a: seq<Field>, b: seq<Field>, i: nat)
    requires (forall x :: x in SortedValues(a) <==> x in SortedValues(b)) && i < |a|
    ensures exists k :: 0 <= k < |b| && b[k].name == a[i].name && Sort(a[i].value) == Sort(b[k].value)
  {
    hide Sort;
    var sa, sb := SortedValues(a), SortedValues(b);
    assert sa[i] in sb;
    var k :| 0 <= k < |sb| && sb[k] == sa[i];
    assert b[k].name == a[i].name;
  }

  lemma SameSizes(a: seq<Field>, b: seq<Field>)
    requires DistinctNames(a) && DistinctNames(b) && Sort(Obj(a)) == Sort(Obj(b))
    ensures |a| == |b|
  {
    SortObject(a);
    SortObject(b);
    SortHolds(SortedValues(a));
    SortHolds(SortedValues(b));
    hide Sort;
  }

  /** Two values have the same canonical form exactly when they are equal but for the order of keys. */
  lemma {:induction false} CanonicalIff(a: Json, b: Json)
    requires WellFormed(a) && WellFormed(b)
    ensures Sort(a) == Sort(b) <==> Same(a, b)
    decreases a
  {
    if a.Arr? && b.Arr? {
      ArraysIff(a.items, b.items);
    } else if a.Obj? && b.Obj? {
      forall i, k | 0 <= i < |a.fields| && 0 <= k < |b.fields|
        ensures Sort(a.fields[i].value) == Sort(b.fields[k].value) <==> Same(a.fields[i].value, b.fields[k].value)
      {
        CanonicalIff(a.fields[i].value, b.fields[k].value);
      }
      ObjectsIff(a.fields, b.fields);
    }
  }

  lemma ArraysIff(a: seq<Json>, b: seq<Json>)
    requires forall i :: 0 <= i < |a| ==> WellFormed(a[i])
    requires forall i :: 0 <= i < |b| ==> WellFormed(b[i])
    ensures Sort(Arr(a)) == Sort(Arr(b)) <==> Same(Arr(a), Arr(b))
    decreases a, 1
  {
    var sa, sb := Sort(Arr(a)), Sort(Arr(b));
    assert |sa.items| == |a| && |sb.items| == |b|;
    if |a| == |b| {
      forall i | 0 <= i < |a|
        ensures Sort(a[i]) == Sort(b[i]) <==> Same(a[i], b[i])
      {
        CanonicalIff(a[i], b[i]);
      }
      assert forall i :: 0 <= i < |a| ==> sa.items[i] == Sort(a[i]) && sb.items[i] == Sort(b[i]);
    }
  }

  lemma ObjectsIff(a: seq<Field>, b: seq<Field>)
    requires DistinctNames(a) && DistinctNames(b)
    requires forall i, k :: 0 <= i < |a| && 0 <= k < |b| ==>
      (Sort(a[i].value) == Sort(b[k].value) <==> Same(a[i].value, b[k].value))
    ensures Sort(Obj(a)) == Sort(Obj(b)) <==> Same(Obj(a), Obj(b))
  {
    ObjectsAgreeIff(a, b);
    if Sort(Obj(a)) == Sort(Obj(b)) {
      SameSizes(a, b);
      forall i | 0 <= i < |a|
        ensures exists k :: 0 <= k < |b| && b[k].name == a[i].name && Same(a[i].value, b[k].value)
      {
        MatchFromEqual(a, b, i);
        var k :| 0 <= k < |b| && b[k].name == a[i].name && Sort(a[i].value) == Sort(b[k].value);
        assert Same(a[i].value, b[k].value);
      }
    }
    if Same(Obj(a), Obj(b)) {
      forall i | 0 <= i < |a|
        ensures exists k :: 0 <= k < |b| && b[k].name == a[i].name && Sort(a[i].value) == Sort(b[k].value)
      {
        var k :| 0 <= k < |b| && b[k].name == a[i].name && Same(a[i].value, b[k].value);
        assert Sort(a[i].value) == Sort(b[k].value);
      }
      MatchedFields(a, b);
    }
  }

  lemma SortedObject(fields: seq<Field>)
    requires DistinctNames(fields)
    requires forall i :: 0 <= i < |fields| ==>
      WellFormed(Sort(fields[i].value)) && Same(fields[i].value, Sort(fields[i].value))
    ensures WellFormed(Sort(Obj(fields))) && Same(Obj(fields), Sort(Obj(fields)))
  {
    var values := SortedValues(fields);
    var sorted := SortByName(values);
    SortObject(fields);
    SortHolds(values);
    hide Sort, SortByName;
    forall i, j | 0 <= i < j < |sorted|
      ensures sorted[i].name != sorted[j].name
    {
      PrecedesOrder(sorted[i].name, sorted[i].name);
    }
    forall k | 0 <= k < |sorted|
      ensures WellFormed(sorted[k].value)
    {
      assert sorted[k] in values;
      var i :| 0 <= i < |values| && values[i] == sorted[k];
      assert values[i].value == Sort(fields[i].value);
    }
    forall i | 0 <= i < |fields|
      ensures exists k :: 0 <= k < |sorted| && sorted[k].name == fields[i].name && Same(fields[i].value, sorted[k].value)
    {
      assert values[i] in sorted;
      var k :| 0 <= k < |sorted| && sorted[k] == values[i];
      assert sorted[k].value == Sort(fields[i].value);
    }
  }

  /** The canonical form is the value itself but for the order of keys. */
  lemma {:induction false} CanonicalIsSame(j: Json)
    requires WellFormed(j)
    ensures WellFormed(Sort(j)) && Same(j, Sort(j))
  {
    match j {
      case Leaf(_) =>
      case Arr(items) =>
        forall i | 0 <= i < |items|
          ensures WellFormed(Sort(items[i])) && Same(items[i], Sort(items[i]))
        {
          CanonicalIsSame(items[i]);
        }
      case Obj(fields) =>
        forall i | 0 <= i < |fields|
          ensures WellFormed(Sort(fields[i].value)) && Same(fields[i].value, Sort(fields[i].value))
        {
          CanonicalIsSame(fields[i].value);
        }
        SortedObject(fields);
    }
  }

  /** Taking the canonical form twice is taking it once. */
  lemma CanonicalTwice(j: Json)
    requires WellFormed(j)
    ensures Sort(Sort(j)) == Sort(j)
  {
    CanonicalIsSame(j);
    CanonicalIff(j, Sort(j));
  }
}
