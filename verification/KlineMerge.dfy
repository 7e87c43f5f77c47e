/** Merging groups of k-lines by open time, the latest ten thousand kept. */
module KlineMerge {
  import opened KlineSeries

  const LIMIT: nat := 10000

  function FileAll(m: map<int, Kline>, groups: seq<seq<Kline>>): map<int, Kline>
    decreases |groups|
  {
    if groups == [] then m else FileAll(File(m, groups[0]), groups[1..])
  }

  function LastN(s: seq<Kline>, n: nat): seq<Kline> {
    if |s| <= n then s else s[|s| - n..]
  }

  ghost function Merge(groups: seq<seq<Kline>>): seq<Kline> {
    LastN(Sorted(FileAll(map[], groups)), LIMIT)
  }

  method MergeKlinesByOpenTime(groups: seq<seq<Kline>>) returns (r: seq<Kline>)
    ensures r == Merge(groups)
  {
    var merged: map<int, Kline> := map[];
    for i := 0 to |groups|
      invariant Keyed(merged)
      invariant FileAll(merged, groups[i..]) == FileAll(map[], groups)
    {
      ghost var before := merged;
      assert groups[i..][1..] == groups[i + 1..];
      for j := 0 to |groups[i]|
        invariant Keyed(merged)
        invariant File(merged, groups[i][j..]) == File(before, groups[i])
      {
        var kline := groups[i][j];
        assert groups[i][j..][1..] == groups[i][j + 1..];
        merged := merged[kline.openTime := kline];
      }
    }
    var sorted := SortByTime(merged);
    r := if |sorted| <= LIMIT then sorted else sorted[|sorted| - LIMIT..];
  }

  // ---- Filing is overriding ---------------------------------------------------

  lemma {:induction false} FileOverrides(m: map<int, Kline>, n: map<int, Kline>, s: seq<Kline>)
    ensures File(m + n, s) == m + File(n, s)
    decreases |s|
  {
    if s != [] {
      var k := s[0];
      assert (m + n)[k.openTime := k] == m + n[k.openTime := k];
      FileOverrides(m, n[k.openTime := k], s[1..]);
    }
  }

  lemma {:induction false} FileAllOverrides(m: map<int, Kline>, n: map<int, Kline>, groups: seq<seq<Kline>>)
    ensures FileAll(m + n, groups) == m + FileAll(n, groups)
    decreases |groups|
  {
    if groups != [] {
      FileOverrides(m, n, groups[0]);
      FileAllOverrides(m, File(n, groups[0]), groups[1..]);
    }
  }

  lemma {:induction false} FileAllAppend(m: map<int, Kline>, gs: seq<seq<Kline>>, hs: seq<seq<Kline>>)
    ensures FileAll(m, gs + hs) == FileAll(FileAll(m, gs), hs)
    decreases |gs|
  {
    if gs == [] {
      assert gs + hs == hs;
    } else {
      assert (gs + hs)[1..] == gs[1..] + hs;
      FileAllAppend(File(m, gs[0]), gs[1..], hs);
    }
  }

  lemma {:induction false} FileAllKeyed(m: map<int, Kline>, groups: seq<seq<Kline>>)
    requires Keyed(m)
    ensures Keyed(FileAll(m, groups))
    decreases |groups|
  {
    if groups != [] {
      FileHolds(m, groups[0]);
      FileAllKeyed(File(m, groups[0]), groups[1..]);
    }
  }

  // ---- The cut -------------------------------------------------------------------

  function Above(ks: set<int>, k: int): set<int> {
    set j | j in ks && j > k
  }

  /** The keys with fewer than n later ones. */
  function Latest(ks: set<int>, n: nat): set<int> {
    set k | k in ks && |Above(ks, k)| < n
  }

  function Cut(m: map<int, Kline>, n: nat): map<int, Kline> {
    map k | k in Latest(m.Keys, n) :: m[k]
  }

  lemma AboveWithoutGreatest(ks: set<int>, g: int, k: int)
    requires g in ks && (forall j :: j in ks ==> j <= g) && k in ks && k != g
    ensures |Above(ks, k)| == |Above(ks - {g}, k)| + 1
  {
    assert Above(ks, k) == Above(ks - {g}, k) + {g};
  }

  lemma LatestWithoutGreatest(ks: set<int>, g: int, n: nat)
    requires g in ks && (forall j :: j in ks ==> j <= g) && n > 0
    ensures g in Latest(ks, n) && Latest(ks, n) - {g} == Latest(ks - {g}, n - 1)
  {
    assert Above(ks, g) == {};
    forall k | k in ks && k != g
      ensures |Above(ks, k)| == |Above(ks - {g}, k)| + 1
    {
      AboveWithoutGreatest(ks, g, k);
    }
  }

  lemma CutWithoutGreatest(m: map<int, Kline>, g: int, n: nat)
    requires g in m && (forall j :: j in m ==> j <= g) && n > 0
    ensures g in Cut(m, n) && Cut(m, n) - {g} == Cut(m - {g}, n - 1) && Cut(m, n)[g] == m[g]
    ensures forall j :: j in Cut(m, n) ==> j <= g
  {
    LatestWithoutGreatest(m.Keys, g, n);
    assert (m - {g}).Keys == m.Keys - {g};
    assert Latest(m.Keys, n) <= m.Keys;
    hide Latest;
  }

  lemma CutNone(m: map<int, Kline>, n: nat)
    requires m == map[] || n == 0
    ensures Cut(m, n) == map[]
  {
    assert Latest(m.Keys, n) == {};
  }

  /** Keeping the last n of the sorted list is cutting the map and sorting what is left. */
  lemma {:induction false} LastIsCut(m: map<int, Kline>, n: nat)
    ensures LastN(Sorted(m), n) == Sorted(Cut(m, n))
    decreases |m|
  {
    if m == map[] || n == 0 {
      CutNone(m, n);
    } else {
      var g := Greatest(m.Keys);
      var c := Cut(m, n);
      hide Cut, Sorted, LastN;
      Smaller(m, g);
      LastIsCut(m - {g}, n - 1);
      CutWithoutGreatest(m, g, n);
      SortedStep(m, g);
      SortedStep(c, g);
      LastAppended(Sorted(m - {g}), m[g], n);
    }
  }

  lemma LastAppended(s: seq<Kline>, x: Kline, n: nat)
    requires n > 0
    ensures LastN(s + [x], n) == LastN(s, n - 1) + [x]
  {
  }

  lemma Subset(a: set<int>, b: set<int>)
    requires a <= b
    ensures |a| <= |b|
  {
    assert b == a + (b - a);
  }

  /** A key that is cut has at least n kept keys above it. */
  lemma {:induction false} CutLeavesN(ks: set<int>, n: nat, k: int)
    requires k in ks && |Above(ks, k)| >= n
    ensures |Above(Latest(ks, n), k)| >= n
    decreases |Above(ks, k)|
  {
    var above := Above(ks, k);
    var kept := Above(Latest(ks, n), k);
    if d :| d in above && d !in kept {
      assert Above(ks, d) <= above - {d};
      Subset(Above(ks, d), above - {d});
      CutLeavesN(ks, n, d);
      Subset(Above(Latest(ks, n), d), kept);
    } else {
      Subset(above, kept);
    }
  }

  /** Whether a key is among the latest does not depend on keys that were cut early. */
  lemma LatestKey(a: set<int>, b: set<int>, n: nat, k: int)
    requires k in a + b
    ensures k in Latest(a + b, n) <==> k in Latest(Latest(a, n) + b, n)
  {
    var early, all := Latest(a, n) + b, a + b;
    Subset(Above(early, k), Above(all, k));
    if k !in early {
      Subset(Above(a, k), Above(all, k));
    } else if d :| d in Above(all, k) && d !in Above(early, k) {
      CutLeavesN(a, n, d);
      Subset(Above(Latest(a, n), d), Above(early, k));
    } else {
      assert Above(early, k) == Above(all, k);
    }
  }

  lemma LatestIsIncremental(a: set<int>, b: set<int>, n: nat)
    ensures Latest(Latest(a, n) + b, n) == Latest(a + b, n)
  {
    forall k | k in a + b
      ensures k in Latest(a + b, n) <==> k in Latest(Latest(a, n) + b, n)
    {
      LatestKey(a, b, n, k);
    }
    assert Latest(a + b, n) <= a + b && Latest(Latest(a, n) + b, n) <= a + b;
    hide Latest;
  }

  /** Cutting before more entries arrive makes no difference once they have. */
  lemma CutIsIncremental(m: map<int, Kline>, n: map<int, Kline>, limit: nat)
    ensures Cut(Cut(m, limit) + n, limit) == Cut(m + n, limit)
  {
    LatestIsIncremental(m.Keys, n.Keys, limit);
    assert Latest((m + n).Keys, limit) <= (m + n).Keys && Latest(m.Keys, limit) <= m.Keys;
    assert (Cut(m, limit) + n).Keys == Latest(m.Keys, limit) + n.Keys;
    assert (m + n).Keys == m.Keys + n.Keys;
    hide Latest;
  }

  // ---- Theorems ---------------------------------------------------------------------

  /** What a merge holds: the last version given for each open time, the latest ten thousand, in order. */
  lemma MergeHolds(groups: seq<seq<Kline>>)
    ensures Increasing(Merge(groups)) && |Merge(groups)| <= LIMIT
    ensures var m := FileAll(map[], groups);
      forall x :: x in Merge(groups) <==> x.openTime in Latest(m.Keys, LIMIT) && m[x.openTime] == x
  {
    var m := FileAll(map[], groups);
    FileAllKeyed(map[], groups);
    LastIsCut(m, LIMIT);
    SortedListsAll(Cut(m, LIMIT));
    hide Sorted;
  }

  /** Filing a merge gives back the cut map. */
  lemma FiledMerge(groups: seq<seq<Kline>>)
    ensures File(map[], Merge(groups)) == Cut(FileAll(map[], groups), LIMIT)
  {
    var m := FileAll(map[], groups);
    FileAllKeyed(map[], groups);
    LastIsCut(m, LIMIT);
    MergeHolds(groups);
    SortedOfFiled(Merge(groups));
    hide Sorted, File, FileAll;
    SortedIsInjective(File(map[], Merge(groups)), Cut(m, LIMIT));
  }

  lemma MergeIsSortedCut(groups: seq<seq<Kline>>)
    ensures Merge(groups) == Sorted(Cut(FileAll(map[], groups), LIMIT))
  {
    LastIsCut(FileAll(map[], groups), LIMIT);
  }

  lemma FileAllUnion(gs: seq<seq<Kline>>, hs: seq<seq<Kline>>)
    ensures FileAll(map[], gs + hs) == FileAll(map[], gs) + FileAll(map[], hs)
  {
    var m := FileAll(map[], gs);
    FileAllAppend(map[], gs, hs);
    FileAllOverrides(m, map[], hs);
    hide FileAll;
    assert m + map[] == m;
  }

  lemma FileAllMerged(gs: seq<seq<Kline>>)
    ensures FileAll(map[], [Merge(gs)]) == Cut(FileAll(map[], gs), LIMIT)
  {
    FiledMerge(gs);
    hide Merge, Cut;
    assert [Merge(gs)][1..] == [];
  }

  /** Merging in steps, with any groups on either side, is merging at once, despite the cut. */
  lemma MergeIsIncremental(gs: seq<seq<Kline>>, hs: seq<seq<Kline>>)
    ensures Merge([Merge(gs)] + hs) == Merge(gs + hs)
  {
    hide Merge, File, FileAll, Cut, Sorted;
    FileAllUnion(gs, hs);
    FileAllUnion([Merge(gs)], hs);
    FileAllMerged(gs);
    CutIsIncremental(FileAll(map[], gs), FileAll(map[], hs), LIMIT);
    MergeIsSortedCut(gs + hs);
    MergeIsSortedCut([Merge(gs)] + hs);
  }
}
