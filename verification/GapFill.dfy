/** Normalising the k-lines of a chart: dedupe, sort, and fill gaps with flat bars. */
module GapFill {
  import opened Common
  import opened KlineSeries

  const MAX_INSERTED: nat := 500

  predicate Relevant(k: Kline, symbol: string, interval: string) {
    k.symbol == symbol && k.interval == interval && k.openTime > 0
  }

  function Chosen(s: seq<Kline>, symbol: string, interval: string): seq<Kline> {
    if s == [] then []
    else if Relevant(s[0], symbol, interval) then [s[0]] + Chosen(s[1..], symbol, interval)
    else Chosen(s[1..], symbol, interval)
  }

  /** The bars that belong to the chart, the last of each open time, in order. */
  ghost function Deduplicated(s: seq<Kline>, symbol: string, interval: string): seq<Kline> {
    Sorted(File(map[], Chosen(s, symbol, interval)))
  }

  /** A bar in which nothing was traded, at the previous close. */
  function Flat(p: Kline, t: int): Kline {
    Kline(p.symbol, p.interval, t, p.close, p.close, p.close, p.close, "0")
  }

  function Gap(p: Kline, from: int, until: int, step: int, left: nat): seq<Kline>
    decreases left
  {
    if from < until && left > 0 then [Flat(p, from)] + Gap(p, from + step, until, step, left - 1) else []
  }

  function Between(a: Kline, b: Kline, step: int): seq<Kline> {
    Gap(a, a.openTime + step, b.openTime, step, MAX_INSERTED)
  }

  function Fill(s: seq<Kline>, step: int): seq<Kline> {
    if |s| < 2 then s
    else
      var n := |s| - 1;
      Fill(s[..n], step) + Between(s[n - 1], s[n], step) + [s[n]]
  }

  ghost function Normalized(s: seq<Kline>, symbol: string, interval: string, step: int): seq<Kline> {
    Fill(Deduplicated(s, symbol, interval), step)
  }

  // ---- The loops -----------------------------------------------------------------

  method NormalizeKlines(next: seq<Kline>, symbol: string, interval: string, step: int) returns (r: seq<Kline>)
    ensures r == Normalized(next, symbol, interval, step)
  {
    var byTime: map<int, Kline> := map[];
    for i := 0 to |next|
      invariant Keyed(byTime)
      invariant File(byTime, Chosen(next[i..], symbol, interval)) == File(map[], Chosen(next, symbol, interval))
    {
      assert next[i..][1..] == next[i + 1..];
      var k := next[i];
      if k.symbol != symbol || k.interval != interval || k.openTime <= 0 { continue; }
      FileFirst(byTime, k, Chosen(next[i + 1..], symbol, interval));
      byTime := byTime[k.openTime := k];
    }
    var sorted := SortByTime(byTime);
    if |sorted| < 2 { return sorted; }
    r := FillGaps(sorted, step);
  }

  lemma FileFirst(m: map<int, Kline>, k: Kline, rest: seq<Kline>)
    ensures File(m, [k] + rest) == File(m[k.openTime := k], rest)
  {
    assert ([k] + rest)[1..] == rest;
  }

  /** The inner loop, for any limit on the bars inserted. */
  method InsertBars(previous: Kline, until: int, step: int, limit: nat) returns (bars: seq<Kline>)
    ensures bars == Gap(previous, previous.openTime + step, until, step, limit)
  {
    bars := [];
    var expected, inserted := previous.openTime + step, 0;
    while expected < until && inserted < limit
      invariant 0 <= inserted <= limit
      invariant bars + Gap(previous, expected, until, step, limit - inserted)
                == Gap(previous, previous.openTime + step, until, step, limit)
      decreases limit - inserted
    {
      bars := bars + [Flat(previous, expected)];
      expected := expected + step;
      inserted := inserted + 1;
    }
  }

  method FillGaps(sorted: seq<Kline>, step: int) returns (continuous: seq<Kline>)
    ensures continuous == Fill(sorted, step)
  {
    hide Gap;
    continuous := [];
    for i := 0 to |sorted|
      invariant continuous == Fill(sorted[..i], step)
      invariant i > 0 ==> |continuous| > 0 && continuous[|continuous| - 1] == sorted[i - 1]
    {
      FillStep(sorted, i, step);
      if |continuous| > 0 {
        var bars := InsertBars(continuous[|continuous| - 1], sorted[i].openTime, step, MAX_INSERTED);
        continuous := continuous + bars;
      }
      continuous := continuous + [sorted[i]];
    }
    assert sorted[..|sorted|] == sorted;
  }

  lemma FillStep(s: seq<Kline>, i: nat, step: int)
    requires i < |s|
    ensures Fill(s[..i + 1], step) ==
      if i == 0 then [s[0]] else Fill(s[..i], step) + Between(s[i - 1], s[i], step) + [s[i]]
  {
    assert s[..i + 1][..i] == s[..i];
  }

  // ---- One gap ---------------------------------------------------------------------

  function Times(n: int, step: int): int {
    n * step
  }

  lemma TimesNext(n: int, step: int)
    ensures Times(n + 1, step) == Times(n, step) + step
  {
  }

  lemma TimesOrdered(m: int, n: int, step: int)
    requires m <= n && step > 0
    ensures Times(m, step) <= Times(n, step) && (m < n ==> Times(m, step) + step <= Times(n, step))
    decreases n - m
  {
    if m < n {
      TimesOrdered(m, n - 1, step);
      TimesNext(n - 1, step);
      hide Times;
    }
  }

  /** The bars of a gap from its j-th on, one by one, and where they stop. */
  lemma {:induction false} GapBars(p: Kline, j: nat, until: int, step: int, left: nat)
    requires step > 0
    ensures var g := Gap(p, p.openTime + Times(j, step), until, step, left);
      && |g| <= left
      && (forall i :: 0 <= i < |g| ==>
            g[i] == Flat(p, p.openTime + Times(j + i, step)) && p.openTime + Times(j + i, step) < until)
      && (|g| < left ==> until <= p.openTime + Times(j + |g|, step))
    decreases left
  {
    hide Times;
    var from := p.openTime + Times(j, step);
    if from < until && left > 0 {
      TimesNext(j, step);
      GapBars(p, j + 1, until, step, left - 1);
      var g, rest := Gap(p, from, until, step, left), Gap(p, from + step, until, step, left - 1);
      forall i | 0 < i < |g|
        ensures g[i] == Flat(p, p.openTime + Times(j + i, step)) && p.openTime + Times(j + i, step) < until
      {
        assert g[i] == rest[i - 1] && j + 1 + (i - 1) == j + i;
      }
      assert j + 1 + |rest| == j + |g|;
    }
  }

  /** The stretch from one real bar to the next. */
  function Stretch(a: Kline, b: Kline, step: int): seq<Kline> {
    [a] + Between(a, b, step) + [b]
  }

  predicate IsBar(x: Kline, a: Kline, i: nat, step: int) {
    x.openTime == a.openTime + Times(i, step) && (if i == 0 then x == a else x == Flat(a, x.openTime))
  }

  lemma FirstTimes(step: int)
    ensures Times(0, step) == 0 && Times(1, step) == step
  {
  }

  lemma BetweenBars(a: Kline, b: Kline, step: int)
    requires step > 0
    ensures var g := Between(a, b, step);
      && |g| <= MAX_INSERTED
      && (forall i :: 0 <= i < |g| ==>
            g[i] == Flat(a, a.openTime + Times(1 + i, step)) && g[i].openTime < b.openTime)
      && (|g| < MAX_INSERTED ==> b.openTime <= a.openTime + Times(1 + |g|, step))
  {
    hide Times, Gap;
    FirstTimes(step);
    GapBars(a, 1, b.openTime, step, MAX_INSERTED);
  }

  /** A stretch is the real bar, up to 500 flat bars one step apart, and the next real bar. */
  lemma StretchBars(a: Kline, b: Kline, step: int)
    requires step > 0 && a.openTime < b.openTime
    ensures var t := Stretch(a, b, step);
      var n := |Between(a, b, step)|;
      && |t| == n + 2 && n <= MAX_INSERTED && t[n + 1] == b
      && (forall i :: 0 <= i <= n ==> IsBar(t[i], a, i, step) && t[i].openTime < b.openTime)
      && (n < MAX_INSERTED ==> b.openTime <= a.openTime + Times(n + 1, step))
  {
    hide Times, Between;
    var t, g := Stretch(a, b, step), Between(a, b, step);
    FirstTimes(step);
    BetweenBars(a, b, step);
    forall i | 0 < i <= |g|
      ensures IsBar(t[i], a, i, step) && t[i].openTime < b.openTime
    {
      assert t[i] == g[i - 1];
      assert g[i - 1] == Flat(a, a.openTime + Times(1 + (i - 1), step));
    }
  }

  lemma StretchIncreasing(a: Kline, b: Kline, step: int)
    requires step > 0 && a.openTime < b.openTime
    ensures Increasing(Stretch(a, b, step))
  {
    var t := Stretch(a, b, step);
    StretchBars(a, b, step);
    hide Stretch, Times, Between;
    forall i, j | 0 <= i < j < |t|
      ensures t[i].openTime < t[j].openTime
    {
      if j < |t| - 1 { TimesOrdered(i, j, step); }
    }
  }

  predicate NoGaps(s: seq<Kline>, step: int) {
    forall i :: 0 < i < |s| ==> s[i].openTime - s[i - 1].openTime <= step
  }

  /** A stretch ends within a step exactly when 500 bars are enough. */
  lemma StretchGaps(a: Kline, b: Kline, step: int)
    requires step > 0 && a.openTime < b.openTime
    ensures NoGaps(Stretch(a, b, step), step) <==> b.openTime <= a.openTime + Times(MAX_INSERTED + 1, step)
  {
    var t, n := Stretch(a, b, step), |Between(a, b, step)|;
    StretchBars(a, b, step);
    hide Stretch, Times, Between;
    forall i | 0 < i <= n
      ensures t[i].openTime - t[i - 1].openTime == step
    {
      TimesNext(i - 1, step);
      assert IsBar(t[i], a, i, step) && IsBar(t[i - 1], a, i - 1, step);
    }
    TimesNext(n, step);
    TimesOrdered(n, MAX_INSERTED, step);
    TimesNext(MAX_INSERTED, step);
    assert IsBar(t[n], a, n, step);
    assert b.openTime - t[n].openTime <= step <==> b.openTime <= a.openTime + Times(n + 1, step);
  }

  // ---- The whole list -----------------------------------------------------------------

  lemma {:induction false} FillTail(s: seq<Kline>, step: int)
    ensures s != [] ==> Fill(s, step) != [] && Fill(s, step)[|Fill(s, step)| - 1] == s[|s| - 1]
    ensures |s| >= 2 ==>
      Fill(s, step) == Fill(s[..|s| - 1], step) + Stretch(s[|s| - 2], s[|s| - 1], step)[1..]
  {
    hide Between;
    if |s| >= 2 {
      var a, b := s[|s| - 2], s[|s| - 1];
      assert Stretch(a, b, step)[1..] == Between(a, b, step) + [b];
      JoinThree(Fill(s[..|s| - 1], step), Between(a, b, step), [b]);
    }
  }

  lemma JoinIncreasing(x: seq<Kline>, t: seq<Kline>)
    requires Increasing(x) && Increasing(t) && x != [] && t != [] && x[|x| - 1] == t[0]
    ensures Increasing(x + t[1..])
  {
    var r := x + t[1..];
    forall i, j | 0 <= i < j < |r|
      ensures r[i].openTime < r[j].openTime
    {
      if i < |x| <= j {
        assert x[i].openTime <= t[0].openTime < t[j - |x| + 1].openTime;
      }
    }
  }

  lemma JoinNoGaps(x: seq<Kline>, t: seq<Kline>, step: int)
    requires x != [] && t != [] && x[|x| - 1] == t[0]
    ensures NoGaps(x + t[1..], step) <==> NoGaps(x, step) && NoGaps(t, step)
  {
    var r := x + t[1..];
    assert forall i :: 0 <= i < |x| ==> r[i] == x[i];
    assert forall j :: 0 <= j < |t| ==> r[|x| - 1 + j] == t[j];
    if NoGaps(r, step) {
      forall j | 0 < j < |t|
        ensures t[j].openTime - t[j - 1].openTime <= step
      {
        assert r[|x| - 1 + j].openTime - r[|x| - 1 + j - 1].openTime <= step;
      }
    }
    if NoGaps(x, step) && NoGaps(t, step) {
      forall i | 0 < i < |r|
        ensures r[i].openTime - r[i - 1].openTime <= step
      {
        if i >= |x| {
          var j := i - |x| + 1;
          assert t[j].openTime - t[j - 1].openTime <= step && r[i] == t[j] && r[i - 1] == t[j - 1];
        }
      }
    }
  }

  /** The output is strictly increasing in open time. */
  lemma {:induction false} FillIncreasing(s: seq<Kline>, step: int)
    requires step > 0 && Increasing(s)
    ensures Increasing(Fill(s, step))
  {
    if |s| >= 2 {
      var a, b, front := s[|s| - 2], s[|s| - 1], s[..|s| - 1];
      FillIncreasing(front, step);
      FillTail(s, step);
      FillTail(front, step);
      StretchIncreasing(a, b, step);
      hide Fill, Between;
      JoinIncreasing(Fill(front, step), Stretch(a, b, step));
    }
  }

  /** No two neighbouring bars are more than 501 steps apart. */
  predicate Reachable(s: seq<Kline>, step: int) {
    forall i :: 0 < i < |s| ==> s[i].openTime - s[i - 1].openTime <= Times(MAX_INSERTED + 1, step)
  }

  /** The output has no step above the interval exactly when no gap exceeds 501 intervals. */
  lemma {:induction false} FillGapsIff(s: seq<Kline>, step: int)
    requires step > 0 && Increasing(s)
    ensures NoGaps(Fill(s, step), step) <==> Reachable(s, step)
  {
    if |s| >= 2 {
      var a, b, front := s[|s| - 2], s[|s| - 1], s[..|s| - 1];
      FillGapsIff(front, step);
      FillTail(s, step);
      FillTail(front, step);
      StretchGaps(a, b, step);
      hide Fill, Between, Times, Stretch;
      StretchEnds(a, b, step);
      JoinNoGaps(Fill(front, step), Stretch(a, b, step), step);
      hide NoGaps;
      ReachableStep(s, step);
    }
  }

  lemma StretchEnds(a: Kline, b: Kline, step: int)
    ensures var t := Stretch(a, b, step); t != [] && t[0] == a
  {
    hide Between;
  }

  lemma ReachableStep(s: seq<Kline>, step: int)
    requires |s| >= 2
    ensures Reachable(s, step) <==>
      && Reachable(s[..|s| - 1], step)
      && s[|s| - 1].openTime <= s[|s| - 2].openTime + Times(MAX_INSERTED + 1, step)
  {
    hide Times;
    var front := s[..|s| - 1];
    assert forall i :: 0 <= i < |front| ==> front[i] == s[i];
    if Reachable(front, step) && s[|s| - 1].openTime <= s[|s| - 2].openTime + Times(MAX_INSERTED + 1, step) {
      forall i | 0 < i < |s|
        ensures s[i].openTime - s[i - 1].openTime <= Times(MAX_INSERTED + 1, step)
      {
        if i < |s| - 1 { assert front[i] == s[i] && front[i - 1] == s[i - 1]; }
      }
    }
    if Reachable(s, step) {
      assert s[|s| - 1].openTime - s[|s| - 1 - 1].openTime <= Times(MAX_INSERTED + 1, step);
      forall i | 0 < i < |front|
        ensures front[i].openTime - front[i - 1].openTime <= Times(MAX_INSERTED + 1, step)
      {
        assert front[i] == s[i] && front[i - 1] == s[i - 1];
      }
    }
  }

  // ---- What is real and what is inserted -------------------------------------------------

  predicate IsSubsequence(s: seq<Kline>, t: seq<Kline>)
    decreases |t|
  {
    || s == []
    || (t != [] && (if s[|s| - 1] == t[|t| - 1] then IsSubsequence(s[..|s| - 1], t[..|t| - 1])
                    else IsSubsequence(s, t[..|t| - 1])))
  }

  /** Bars put behind a list, or one more common last bar, keep a subsequence. */
  lemma {:induction false} SubsequenceGrows(s: seq<Kline>, t: seq<Kline>, more: seq<Kline>)
    requires IsSubsequence(s, t)
    requires forall i :: 0 <= i < |more| ==> s == [] || more[i] != s[|s| - 1]
    ensures IsSubsequence(s, t + more)
    decreases |more|
  {
    if more == [] {
      assert t + more == t;
    } else {
      var shorter := more[..|more| - 1];
      SubsequenceGrows(s, t, shorter);
      assert (t + more)[..|t + more| - 1] == t + shorter;
    }
  }

  lemma SubsequenceLast(s: seq<Kline>, t: seq<Kline>, x: Kline)
    requires IsSubsequence(s, t)
    ensures IsSubsequence(s + [x], t + [x])
  {
    assert (s + [x])[..|s|] == s && (t + [x])[..|t|] == t;
  }

  /** The deduplicated, sorted input is a subsequence of the output. */
  lemma {:induction false} FillKeepsInput(s: seq<Kline>, step: int)
    requires step > 0 && Increasing(s)
    ensures IsSubsequence(s, Fill(s, step))
  {
    hide IsSubsequence;
    if |s| < 2 {
      SubsequenceOfItself(s);
    } else {
      var n := |s| - 1;
      FillKeepsInput(s[..n], step);
      FillKeepsStep(s[..n], s[n], step);
      assert s == s[..n] + [s[n]];
    }
  }

  lemma {:induction false} SubsequenceOfItself(s: seq<Kline>)
    ensures IsSubsequence(s, s)
  {
    if s != [] { SubsequenceOfItself(s[..|s| - 1]); }
  }

  lemma FillKeepsStep(front: seq<Kline>, b: Kline, step: int)
    requires step > 0 && front != [] && IsSubsequence(front, Fill(front, step))
    ensures IsSubsequence(front + [b], Fill(front + [b], step))
  {
    hide Fill, IsSubsequence, Between;
    var a := front[|front| - 1];
    FillLast(front, b, step);
    BarsDiffer(a, b, step);
    SubsequenceGrows(front, Fill(front, step), Between(a, b, step));
    SubsequenceLast(front, Fill(front, step) + Between(a, b, step), b);
  }

  lemma FillLast(front: seq<Kline>, b: Kline, step: int)
    requires front != []
    ensures Fill(front + [b], step) == Fill(front, step) + Between(front[|front| - 1], b, step) + [b]
  {
    assert (front + [b])[..|front|] == front;
  }

  lemma BarsDiffer(a: Kline, b: Kline, step: int)
    requires step > 0
    ensures forall i :: 0 <= i < |Between(a, b, step)| ==> Between(a, b, step)[i] != a
  {
    var g := Between(a, b, step);
    BetweenBars(a, b, step);
    hide Between, Times;
    forall i | 0 <= i < |g|
      ensures g[i] != a
    {
      FirstTimes(step);
      TimesOrdered(0, 1 + i, step);
    }
  }

  /** An inserted bar: flat, at the close of the real bar before it, at most 500 steps on. */
  predicate Inserted(x: Kline, s: seq<Kline>, i: nat, j: nat, step: int)
    requires 0 < i < |s|
  {
    && 1 <= j <= MAX_INSERTED
    && x == Flat(s[i - 1], s[i - 1].openTime + Times(j, step))
    && s[i - 1].openTime < x.openTime < s[i].openTime
  }

  ghost predicate Explained(x: Kline, s: seq<Kline>, step: int) {
    x in s || exists i: nat, j: nat :: 0 < i < |s| && Inserted(x, s, i, j, step)
  }

  lemma ExplainedLater(x: Kline, s: seq<Kline>, b: Kline, step: int)
    requires Explained(x, s, step)
    ensures Explained(x, s + [b], step)
  {
    if x !in s {
      var i: nat, j: nat :| 0 < i < |s| && Inserted(x, s, i, j, step);
      assert Inserted(x, s + [b], i, j, step);
    }
  }

  lemma BarExplained(s: seq<Kline>, step: int, j: nat)
    requires step > 0 && |s| >= 2 && j < |Between(s[|s| - 2], s[|s| - 1], step)|
    ensures Explained(Between(s[|s| - 2], s[|s| - 1], step)[j], s, step)
  {
    var n := |s| - 1;
    BetweenBars(s[n - 1], s[n], step);
    FirstTimes(step);
    TimesOrdered(0, 1 + j, step);
    hide Times, Between;
    assert Inserted(Between(s[n - 1], s[n], step)[j], s, n, 1 + j, step);
  }

  /** Every bar of the output is real, or fills the gap behind the last real bar before it. */
  lemma {:induction false} FillExplained(s: seq<Kline>, step: int, k: nat)
    requires step > 0 && Increasing(s) && k < |Fill(s, step)|
    ensures Explained(Fill(s, step)[k], s, step)
  {
    if |s| >= 2 {
      var n := |s| - 1;
      var b, front := s[n], s[..n];
      var start, bars := Fill(front, step), Between(s[n - 1], b, step);
      assert s == front + [b];
      FillLast(front, b, step);
      if k < |start| {
        FillExplained(front, step, k);
        hide Fill, Between, Explained;
        ExplainedLater(start[k], front, b, step);
      } else if k < |start| + |bars| {
        hide Fill, Between, Explained;
        BarExplained(s, step, k - |start|);
      } else {
        hide Fill, Between;
        assert s[n] in s;
      }
    }
  }

  /** The step to the next bar is within the interval, or it leads from the 500th inserted bar to a real one. */
  ghost predicate Stepped(x: Kline, y: Kline, s: seq<Kline>, step: int) {
    || y.openTime - x.openTime <= step
    || exists i: nat :: 0 < i < |s| && Inserted(x, s, i, MAX_INSERTED, step) && y == s[i]
  }

  lemma SteppedLater(x: Kline, y: Kline, s: seq<Kline>, b: Kline, step: int)
    requires Stepped(x, y, s, step)
    ensures Stepped(x, y, s + [b], step)
  {
    if y.openTime - x.openTime > step {
      var i: nat :| 0 < i < |s| && Inserted(x, s, i, MAX_INSERTED, step) && y == s[i];
      assert Inserted(x, s + [b], i, MAX_INSERTED, step) && (s + [b])[i] == y;
    }
  }

  lemma StretchStepped(s: seq<Kline>, step: int, i: nat)
    requires step > 0 && Increasing(s) && |s| >= 2
    requires 0 < i < |Stretch(s[|s| - 2], s[|s| - 1], step)|
    ensures var t := Stretch(s[|s| - 2], s[|s| - 1], step);
      Stepped(t[i - 1], t[i], s, step)
  {
    var m := |s| - 1;
    var a, b := s[m - 1], s[m];
    var t, n := Stretch(a, b, step), |Between(a, b, step)|;
    StretchBars(a, b, step);
    hide Stretch, Times, Between;
    assert IsBar(t[i - 1], a, i - 1, step);
    TimesNext(i - 1, step);
    if i <= n {
      assert IsBar(t[i], a, i, step);
    } else if n == MAX_INSERTED {
      FirstTimes(step);
      TimesOrdered(0, n, step);
      assert Inserted(t[i - 1], s, m, MAX_INSERTED, step);
    }
  }

  lemma {:induction false} FillSteps(s: seq<Kline>, step: int, k: nat)
    requires step > 0 && Increasing(s) && 0 < k < |Fill(s, step)|
    ensures Stepped(Fill(s, step)[k - 1], Fill(s, step)[k], s, step)
  {
    if |s| >= 2 {
      var front := s[..|s| - 1];
      FillTail(s, step);
      FillTail(front, step);
      if k < |Fill(front, step)| {
        FillSteps(front, step, k);
      }
      hide Stretch, Fill, Stepped;
      FillStepsLast(s, Fill(front, step), step, k);
    }
  }

  lemma FillStepsLast(s: seq<Kline>, start: seq<Kline>, step: int, k: nat)
    requires step > 0 && Increasing(s) && |s| >= 2
    requires start != [] && start[|start| - 1] == s[|s| - 2]
    requires 0 < k < |start + Stretch(s[|s| - 2], s[|s| - 1], step)[1..]|
    requires k < |start| ==> Stepped(start[k - 1], start[k], s[..|s| - 1], step)
    ensures var r := start + Stretch(s[|s| - 2], s[|s| - 1], step)[1..];
      Stepped(r[k - 1], r[k], s, step)
  {
    var m := |s| - 1;
    var t := Stretch(s[m - 1], s[m], step);
    StretchEnds(s[m - 1], s[m], step);
    hide Stretch, Stepped;
    if k < |start| {
      SteppedLater(start[k - 1], start[k], s[..m], s[m], step);
      assert s == s[..m] + [s[m]];
    } else {
      JoinAt(start, t, k);
      StretchStepped(s, step, k - |start| + 1);
    }
  }

  lemma JoinAt(x: seq<Kline>, t: seq<Kline>, k: nat)
    requires x != [] && t != [] && x[|x| - 1] == t[0] && |x| <= k < |x + t[1..]|
    ensures (x + t[1..])[k] == t[k - |x| + 1] && (x + t[1..])[k - 1] == t[k - |x|]
  {
  }

  // ---- Normalising twice --------------------------------------------------------------------

  lemma {:induction false} FillFixed(s: seq<Kline>, step: int)
    ensures |Fill(s, step)| >= |s|
    ensures |Fill(s, step)| == |s| <==> NoGaps(s, step)
    ensures NoGaps(s, step) ==> Fill(s, step) == s
  {
    if |s| >= 2 {
      var n := |s| - 1;
      var front := s[..n];
      FillFixed(front, step);
      BetweenEmptyIff(s[n - 1], s[n], step);
      hide Between;
      NoGapsStep(s, step);
      assert s == front + [s[n]];
    }
  }

  lemma BetweenEmptyIff(a: Kline, b: Kline, step: int)
    ensures Between(a, b, step) == [] <==> b.openTime - a.openTime <= step
  {
  }

  lemma NoGapsStep(s: seq<Kline>, step: int)
    requires |s| >= 2
    ensures NoGaps(s, step) <==>
      NoGaps(s[..|s| - 1], step) && s[|s| - 1].openTime - s[|s| - 2].openTime <= step
  {
    var front := s[..|s| - 1];
    assert forall i :: 0 <= i < |front| ==> front[i] == s[i];
    if NoGaps(s, step) {
      assert s[|s| - 1].openTime - s[|s| - 1 - 1].openTime <= step;
      forall i | 0 < i < |front|
        ensures front[i].openTime - front[i - 1].openTime <= step
      {
        assert s[i].openTime - s[i - 1].openTime <= step;
      }
    }
    if NoGaps(front, step) && s[|s| - 1].openTime - s[|s| - 2].openTime <= step {
      forall i | 0 < i < |s|
        ensures s[i].openTime - s[i - 1].openTime <= step
      {
        if i < |s| - 1 { assert front[i].openTime - front[i - 1].openTime <= step; }
      }
    }
  }

  lemma {:induction false} ChosenHolds(s: seq<Kline>, symbol: string, interval: string)
    ensures forall i :: 0 <= i < |Chosen(s, symbol, interval)| ==>
      Relevant(Chosen(s, symbol, interval)[i], symbol, interval)
    ensures (forall i :: 0 <= i < |s| ==> Relevant(s[i], symbol, interval)) ==> Chosen(s, symbol, interval) == s
  {
    if s != [] {
      ChosenHolds(s[1..], symbol, interval);
      if forall i :: 0 <= i < |s| ==> Relevant(s[i], symbol, interval) {
        assert forall i :: 0 <= i < |s[1..]| ==> s[1..][i] == s[i + 1];
        assert s == [s[0]] + s[1..];
      }
    }
  }

  lemma {:induction false} FileRelevant(m: map<int, Kline>, s: seq<Kline>, symbol: string, interval: string)
    requires forall t :: t in m ==> Relevant(m[t], symbol, interval)
    requires forall i :: 0 <= i < |s| ==> Relevant(s[i], symbol, interval)
    ensures forall t :: t in File(m, s) ==> Relevant(File(m, s)[t], symbol, interval)
    decreases |s|
  {
    if s != [] { FileRelevant(m[s[0].openTime := s[0]], s[1..], symbol, interval); }
  }

  lemma DeduplicatedHolds(s: seq<Kline>, symbol: string, interval: string)
    ensures var d := Deduplicated(s, symbol, interval);
      Increasing(d) && forall i :: 0 <= i < |d| ==> Relevant(d[i], symbol, interval)
  {
    var c := Chosen(s, symbol, interval);
    var m := File(map[], c);
    ChosenHolds(s, symbol, interval);
    FileHolds(map[], c);
    FileRelevant(map[], c, symbol, interval);
    SortedListsAll(m);
    var d := Deduplicated(s, symbol, interval);
    forall i | 0 <= i < |d|
      ensures Relevant(d[i], symbol, interval)
    {
      assert d[i] in d;
    }
  }

  lemma FilledIsRelevant(s: seq<Kline>, symbol: string, interval: string, step: int, k: nat)
    requires step > 0 && Increasing(s) && k < |Fill(s, step)|
    requires forall i :: 0 <= i < |s| ==> Relevant(s[i], symbol, interval)
    ensures Relevant(Fill(s, step)[k], symbol, interval)
  {
    FillExplained(s, step, k);
    var x := Fill(s, step)[k];
    hide Fill;
    if x !in s {
      var i: nat, j: nat :| 0 < i < |s| && Inserted(x, s, i, j, step);
    }
  }

  /** A list that is already in order is its own deduplicated form. */
  lemma DeduplicatedTwice(s: seq<Kline>, symbol: string, interval: string)
    requires Increasing(s) && forall i :: 0 <= i < |s| ==> Relevant(s[i], symbol, interval)
    ensures Deduplicated(s, symbol, interval) == s
  {
    ChosenHolds(s, symbol, interval);
    SortedOfFiled(s);
  }

  /** Normalising twice is normalising once exactly when no gap exceeds 501 intervals. */
  lemma NormalizedTwiceIff(s: seq<Kline>, symbol: string, interval: string, step: int)
    requires step > 0
    ensures var r := Normalized(s, symbol, interval, step);
      Normalized(r, symbol, interval, step) == r <==> Reachable(Deduplicated(s, symbol, interval), step)
  {
    var d := Deduplicated(s, symbol, interval);
    var r := Fill(d, step);
    DeduplicatedHolds(s, symbol, interval);
    FillIncreasing(d, step);
    forall k | 0 <= k < |r|
      ensures Relevant(r[k], symbol, interval)
    {
      FilledIsRelevant(d, symbol, interval, step, k);
    }
    DeduplicatedTwice(r, symbol, interval);
    FillFixed(r, step);
    FillGapsIff(d, step);
    hide Fill, Deduplicated, NoGaps, Reachable;
  }

  /** What normalising promises, for any input. */
  lemma NormalizedHolds(s: seq<Kline>, symbol: string, interval: string, step: int)
    requires step > 0
    ensures var d, r := Deduplicated(s, symbol, interval), Normalized(s, symbol, interval, step);
      && Increasing(r)
      && IsSubsequence(d, r)
      && (forall k :: 0 <= k < |r| ==> Explained(r[k], d, step))
      && (forall k :: 0 < k < |r| ==> Stepped(r[k - 1], r[k], d, step))
      && (NoGaps(r, step) <==> Reachable(d, step))
  {
    var d, r := Deduplicated(s, symbol, interval), Normalized(s, symbol, interval, step);
    DeduplicatedHolds(s, symbol, interval);
    FillIncreasing(d, step);
    FillKeepsInput(d, step);
    FillGapsIff(d, step);
    forall k | 0 <= k < |r|
      ensures Explained(r[k], d, step)
    {
      FillExplained(d, step, k);
    }
    forall k | 0 < k < |r|
      ensures Stepped(r[k - 1], r[k], d, step)
    {
      FillSteps(d, step, k);
    }
  }
}
