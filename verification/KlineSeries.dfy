/** K-lines keyed by open time, and the one list that sorts them. */
module KlineSeries {

  datatype Kline = Kline(
    symbol: string, interval: string, openTime: int,
    open: string, high: string, low: string, close: string, volume: string)

  predicate Increasing(s: seq<Kline>) {
    forall i, j :: 0 <= i < j < |s| ==> s[i].openTime < s[j].openTime
  }

  /** Each k-line is filed under its own open time. */
  predicate Keyed(m: map<int, Kline>) {
    forall t :: t in m ==> m[t].openTime == t
  }

  /** Later entries override earlier ones with the same open time. */
  function File(m: map<int, Kline>, s: seq<Kline>): map<int, Kline>
    decreases |s|
  {
    if s == [] then m else File(m[s[0].openTime := s[0]], s[1..])
  }

  // ---- Sorting --------------------------------------------------------------

  lemma Inhabited(ks: set<int>)
    ensures ks == {} || exists x :: x in ks
  {
    if forall x :: x !in ks {
      assert ks == {};
    }
  }

  ghost function Greatest(ks: set<int>): (k: int)
    requires ks != {}
    ensures k in ks && forall j :: j in ks ==> j <= k
  {
    assert exists x :: x in ks by { Inhabited(ks); }
    var x :| x in ks;
    var rest := ks - {x};
    assert ks == rest + {x};
    if rest == {} then x
    else
      var y := Greatest(rest);
      if x < y then y else x
  }

  ghost function Sorted(m: map<int, Kline>): seq<Kline>
    decreases |m|
  {
    if m == map[] then []
    else
      var k := Greatest(m.Keys);
      assert |m - {k}| < |m| by { Smaller(m, k); }
      Sorted(m - {k}) + [m[k]]
  }

  lemma Smaller(m: map<int, Kline>, k: int)
    requires k in m
    ensures |m - {k}| == |m| - 1 && (m - {k}).Keys == m.Keys - {k}
  {
    assert (m - {k}).Keys == m.Keys - {k};
    assert |(m - {k}).Keys| == |m - {k}| && |m.Keys| == |m|;
  }

  /** The sorted list holds exactly the filed k-lines, in strictly increasing open time. */
  lemma {:induction false} SortedListsAll(m: map<int, Kline>)
    requires Keyed(m)
    ensures Increasing(Sorted(m)) && |Sorted(m)| == |m|
    ensures forall x :: x in Sorted(m) <==> x.openTime in m && m[x.openTime] == x
    decreases |m|
  {
    if m != map[] {
      var k := Greatest(m.Keys);
      Smaller(m, k);
      SortedListsAll(m - {k});
      ListedBelow(m, k, Sorted(m - {k}));
    }
  }

  lemma ListedBelow(m: map<int, Kline>, k: int, rest: seq<Kline>)
    requires Keyed(m) && k in m && (forall j :: j in m ==> j <= k) && Increasing(rest)
    requires forall x :: x in rest <==> x.openTime in m - {k} && (m - {k})[x.openTime] == x
    ensures Increasing(rest + [m[k]])
    ensures forall x :: x in rest + [m[k]] <==> x.openTime in m && m[x.openTime] == x
  {
    forall i | 0 <= i < |rest|
      ensures rest[i].openTime < k
    {
      assert rest[i] in rest;
    }
  }

  /** A strictly increasing list is determined by what it holds. */
  lemma {:induction false} SortedIsUnique(m: map<int, Kline>, s: seq<Kline>)
    requires Keyed(m) && Increasing(s)
    requires forall x :: x in s <==> x.openTime in m && m[x.openTime] == x
    ensures s == Sorted(m)
    decreases |m|
  {
    if m == map[] {
      assert forall x: Kline :: x !in s;
    } else {
      var k := Greatest(m.Keys);
      var last := m[k];
      assert last in s;
      var i :| 0 <= i < |s| && s[i] == last;
      assert s[|s| - 1] in s;
      var rest := s[..|s| - 1];
      assert s == rest + [last];
      Smaller(m, k);
      PrefixHolds(m, s, k);
      SortedIsUnique(m - {k}, rest);
    }
  }

  lemma PrefixHolds(m: map<int, Kline>, s: seq<Kline>, k: int)
    requires Increasing(s) && s != [] && k in m && s[|s| - 1] == m[k] && Keyed(m)
    requires forall x :: x in s <==> x.openTime in m && m[x.openTime] == x
    ensures var rest := s[..|s| - 1];
      Increasing(rest) && forall x :: x in rest <==> x.openTime in m - {k} && m[x.openTime] == x
  {
    var rest := s[..|s| - 1];
    forall x | x in rest
      ensures x.openTime in m - {k} && m[x.openTime] == x
    {
      var i :| 0 <= i < |rest| && rest[i] == x;
      assert s[i] == x && x in s;
    }
    forall x: Kline | x.openTime in m - {k} && m[x.openTime] == x
      ensures x in rest
    {
      assert x in s;
      var i :| 0 <= i < |s| && s[i] == x;
      assert i != |s| - 1;
      assert rest[i] == x;
    }
  }

  lemma SortedStep(m: map<int, Kline>, k: int)
    requires k in m && forall j :: j in m ==> j <= k
    ensures Sorted(m) == Sorted(m - {k}) + [m[k]]
  {
    assert Greatest(m.Keys) == k;
  }

  lemma Listed(m: map<int, Kline>, t: int)
    requires Keyed(m) && t in m
    ensures m[t] in Sorted(m)
  {
    SortedListsAll(m);
  }

  /** A map is determined by its sorted list. */
  lemma SortedIsInjective(m: map<int, Kline>, n: map<int, Kline>)
    requires Keyed(m) && Keyed(n) && Sorted(m) == Sorted(n)
    ensures m == n
  {
    hide Sorted;
    forall t | t in m
      ensures t in n && n[t] == m[t]
    {
      Listed(m, t);
      SortedListsAll(n);
    }
    forall t | t in n
      ensures t in m
    {
      Listed(n, t);
      SortedListsAll(m);
    }
    assert m.Keys == n.Keys;
  }

  /** Filing a list that is already sorted, and sorting again, changes nothing. */
  lemma {:induction false} FileHolds(m: map<int, Kline>, s: seq<Kline>)
    requires Keyed(m)
    ensures Keyed(File(m, s))
    ensures forall t :: t in File(m, s) <==> t in m || exists i :: 0 <= i < |s| && s[i].openTime == t
    decreases |s|
  {
    if s != [] {
      FileHolds(m[s[0].openTime := s[0]], s[1..]);
      var f := File(m, s);
      forall t
        ensures t in f <==> t in m || exists i :: 0 <= i < |s| && s[i].openTime == t
      {
        if i :| 0 <= i < |s| && s[i].openTime == t {
          if i > 0 { assert s[1..][i - 1].openTime == t; }
        }
        if t in f && t !in m && t != s[0].openTime {
          var i :| 0 <= i < |s[1..]| && s[1..][i].openTime == t;
          assert s[i + 1].openTime == t;
        }
        assert s[0].openTime == t ==> exists i :: 0 <= i < |s| && s[i].openTime == t;
      }
    }
  }

  lemma {:induction false} FileKeeps(m: map<int, Kline>, s: seq<Kline>, t: int)
    requires forall i :: 0 <= i < |s| ==> s[i].openTime != t
    ensures (t in File(m, s) <==> t in m) && (t in m ==> File(m, s)[t] == m[t])
    decreases |s|
  {
    if s != [] {
      FileKeeps(m[s[0].openTime := s[0]], s[1..], t);
    }
  }

  lemma {:induction false} FileIncreasing(m: map<int, Kline>, s: seq<Kline>, i: nat)
    requires Increasing(s) && i < |s|
    ensures s[i].openTime in File(m, s) && File(m, s)[s[i].openTime] == s[i]
    decreases |s|
  {
    var n := m[s[0].openTime := s[0]];
    if i == 0 {
      FileKeeps(n, s[1..], s[0].openTime);
    } else {
      FileIncreasing(n, s[1..], i - 1);
    }
  }

  lemma SortedOfFiled(s: seq<Kline>)
    requires Increasing(s)
    ensures Keyed(File(map[], s)) && Sorted(File(map[], s)) == s
  {
    var m := File(map[], s);
    FileHolds(map[], s);
    forall x
      ensures x in s <==> x.openTime in m && m[x.openTime] == x
    {
      if i :| 0 <= i < |s| && s[i] == x {
        FileIncreasing(map[], s, i);
      }
      if x.openTime in m && m[x.openTime] == x {
        var i :| 0 <= i < |s| && s[i].openTime == x.openTime;
        FileIncreasing(map[], s, i);
      }
    }
    SortedIsUnique(m, s);
  }

  // ---- Sorting by insertion ------------------------------------------------------

  function Insert(s: seq<Kline>, x: Kline): seq<Kline> {
    if s == [] || x.openTime < s[0].openTime then [x] + s else [s[0]] + Insert(s[1..], x)
  }

  lemma {:induction false} InsertHolds(s: seq<Kline>, x: Kline)
    requires Increasing(s) && forall i :: 0 <= i < |s| ==> s[i].openTime != x.openTime
    ensures Increasing(Insert(s, x))
    ensures forall y :: y in Insert(s, x) <==> y in s || y == x
  {
    if s != [] && x.openTime > s[0].openTime {
      InsertHolds(s[1..], x);
      var r := Insert(s[1..], x);
      forall i | 0 <= i < |r|
        ensures s[0].openTime < r[i].openTime
      {
        assert r[i] in r;
      }
      assert s == [s[0]] + s[1..];
    }
  }

  method SortByTime(m: map<int, Kline>) returns (s: seq<Kline>)
    requires Keyed(m)
    ensures s == Sorted(m)
  {
    s := [];
    var rest := m;
    while rest.Keys != {}
      invariant Increasing(s) && Keyed(rest) && rest.Keys <= m.Keys
      invariant forall t :: t in rest ==> rest[t] == m[t]
      invariant forall x :: x in s <==> x.openTime in m && x.openTime !in rest && m[x.openTime] == x
      decreases |rest|
    {
      Inhabited(rest.Keys);
      var k :| k in rest.Keys;
      forall i | 0 <= i < |s|
        ensures s[i].openTime != k
      {
        assert s[i] in s;
      }
      InsertHolds(s, m[k]);
      Smaller(rest, k);
      s := Insert(s, m[k]);
      rest := rest - {k};
    }
    SortedIsUnique(m, s);
  }
}
