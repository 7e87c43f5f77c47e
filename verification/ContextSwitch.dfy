/**
 Switching the chart context: transitions are queued one behind the other, and only the latest
 requested one may change what is shown. Each await of a transition is a cut.
 */
module ContextSwitch {
  import opened Common

  type Key(==, !new)
  type Bars(==, !new)

  datatype Outcome = Done | Superseded | Failed
  datatype Phase = Waiting | Flushing | Calling | Settled(outcome: Outcome)

  /** Transition i has generation i + 1 and follows transition i - 1. */
  datatype Transition = Transition(key: Key, phase: Phase)

  datatype Backend = Backend(context: Key, bars: Bars)

  datatype State = State(
    shown: Key, klines: Bars, backend: Option<Backend>, transitions: seq<Transition>)

  function Initial(shown: Key, klines: Bars): State {
    State(shown, klines, None, [])
  }

  datatype Event =
    | Request(key: Key)
    | Begin(i: nat)
    | Flushed(i: nat)
    | Called(i: nat, restored: Option<Bars>)
    | SetKlines(bars: Bars)

  predicate Latest(s: State, i: nat) {
    i + 1 == |s.transitions|
  }

  predicate InPhase(s: State, i: nat, p: Phase) {
    i < |s.transitions| && s.transitions[i].phase == p
  }

  function Enter(s: State, i: nat, p: Phase): State
    requires i < |s.transitions|
  {
    s.(transitions := s.transitions[i := s.transitions[i].(phase := p)])
  }

  /** A transition begins when the one before it has settled, whatever its outcome. */
  predicate CanBegin(s: State, i: nat) {
    InPhase(s, i, Waiting) && (i > 0 ==> s.transitions[i - 1].phase.Settled?)
  }

  function BeginTransition(s: State, i: nat): State {
    if !CanBegin(s, i) then s
    else if !Latest(s, i) then Enter(s, i, Settled(Superseded))
    else
      var key := s.transitions[i].key;
      var backend := if s.backend.Some? then s.backend.value else Backend(s.shown, s.klines);
      var t := s.(backend := Some(backend));
      if key == backend.context
      then Enter(t.(shown := key, klines := backend.bars), i, Settled(Done))
      else Enter(t, i, Flushing)
  }

  function AfterFlush(s: State, i: nat): State {
    if !InPhase(s, i, Flushing) then s
    else Enter(s, i, if Latest(s, i) then Calling else Settled(Superseded))
  }

  function AfterCall(s: State, i: nat, restored: Option<Bars>): State {
    if !InPhase(s, i, Calling) then s
    else if restored.None? then Enter(s, i, Settled(if Latest(s, i) then Failed else Superseded))
    else
      var key := s.transitions[i].key;
      var t := s.(backend := Some(Backend(key, restored.value)));
      if Latest(s, i)
      then Enter(t.(shown := key, klines := restored.value), i, Settled(Done))
      else Enter(t, i, Settled(Superseded))
  }

  function Step(s: State, e: Event): State {
    match e
    case Request(key) => s.(transitions := s.transitions + [Transition(key, Waiting)])
    case Begin(i) => BeginTransition(s, i)
    case Flushed(i) => AfterFlush(s, i)
    case Called(i, restored) => AfterCall(s, i, restored)
    case SetKlines(bars) => s.(klines := bars)
  }

  function Run(s: State, events: seq<Event>): State
    decreases |events|
  {
    if events == [] then s else Run(Step(s, events[0]), events[1..])
  }

  // ---- One at a time -----------------------------------------------------------

  predicate Running(t: Transition) {
    t.phase.Flushing? || t.phase.Calling?
  }

  /** What has begun is settled but for the last begun; everything after it waits. */
  ghost predicate Serial(transitions: seq<Transition>) {
    forall i, j :: 0 <= i < j < |transitions| && !transitions[j].phase.Waiting? ==> transitions[i].phase.Settled?
  }

  /** The latest transition, once done, fixed what is shown and what the backend serves. */
  ghost predicate Agreed(s: State) {
    s.transitions != [] ==>
      var last := s.transitions[|s.transitions| - 1];
      && last.phase != Settled(Superseded)
      && (last.phase == Settled(Done) ==>
            s.shown == last.key && s.backend.Some? && s.backend.value.context == last.key)
      && (!last.phase.Waiting? ==> s.backend.Some?)
  }

  lemma StepSerial(s: State, e: Event)
    requires Serial(s.transitions) && Agreed(s)
    ensures Serial(Step(s, e).transitions) && Agreed(Step(s, e))
  {
  }

  lemma {:induction false} RunSerial(s: State, events: seq<Event>)
    requires Serial(s.transitions) && Agreed(s)
    ensures Serial(Run(s, events).transitions) && Agreed(Run(s, events))
    decreases |events|
  {
    if events != [] {
      StepSerial(s, events[0]);
      RunSerial(Step(s, events[0]), events[1..]);
    }
  }

  /** At most one transition runs, so at most one backend call is outstanding; they settle in order. */
  lemma OneCallAtATime(shown: Key, klines: Bars, events: seq<Event>, i: nat, j: nat)
    requires var s := Run(Initial(shown, klines), events);
      i < |s.transitions| && j < |s.transitions| && Running(s.transitions[i]) && Running(s.transitions[j])
    ensures i == j
    ensures var s := Run(Initial(shown, klines), events);
      && (forall k :: 0 <= k < i ==> s.transitions[k].phase.Settled?)
      && (forall k :: i < k < |s.transitions| ==> s.transitions[k].phase.Waiting?)
  {
    var s := Run(Initial(shown, klines), events);
    RunSerial(Initial(shown, klines), events);
    assert Serial(s.transitions);
  }

  /**
   When everything has settled and the latest transition did not fail, the key shown, the context
   recorded for the backend and the key last requested agree.
   */
  lemma LatestWins(shown: Key, klines: Bars, events: seq<Event>)
    requires var s := Run(Initial(shown, klines), events);
      && s.transitions != []
      && (forall i :: 0 <= i < |s.transitions| ==> s.transitions[i].phase.Settled?)
      && s.transitions[|s.transitions| - 1].phase != Settled(Failed)
    ensures var s := Run(Initial(shown, klines), events);
      var key := s.transitions[|s.transitions| - 1].key;
      s.shown == key && s.backend.Some? && s.backend.value.context == key
  {
    var s := Run(Initial(shown, klines), events);
    RunSerial(Initial(shown, klines), events);
    var phase := s.transitions[|s.transitions| - 1].phase;
    assert phase.outcome.Done?;
    assert phase == Settled(Done);
  }

  // ---- After a failure --------------------------------------------------------------

  /** The context recorded for the backend is not the one shown. */
  predicate Apart(s: State) {
    s.backend.Some? && s.backend.value.context != s.shown
  }

  /** The backend answers a call. */
  predicate Succeeds(s: State, e: Event) {
    e.Called? && e.restored.Some? && InPhase(s, e.i, Calling)
  }

  /** The backend answers a superseded call for a key that is not shown. */
  predicate SucceedsLate(s: State, e: Event) {
    Succeeds(s, e) && !Latest(s, e.i) && s.transitions[e.i].key != s.shown
  }

  /** The latest transition asks for the context the backend already has. */
  predicate Rejoins(s: State, e: Event) {
    e.Begin? && CanBegin(s, e.i) && Latest(s, e.i)
    && s.backend.Some? && s.transitions[e.i].key == s.backend.value.context
  }

  lemma StepApart(s: State, e: Event)
    ensures Apart(Step(s, e)) <==> SucceedsLate(s, e) || (Apart(s) && !Succeeds(s, e) && !Rejoins(s, e))
  {
  }

  /** Event i is a late success, and nothing after it succeeds or rejoins. */
  ghost predicate LastLate(s: State, events: seq<Event>, i: nat)
    requires i < |events|
  {
    && SucceedsLate(Run(s, events[..i]), events[i])
    && forall j :: i < j < |events| ==>
         !Succeeds(Run(s, events[..j]), events[j]) && !Rejoins(Run(s, events[..j]), events[j])
  }

  lemma {:induction false} RunAppend(s: State, before: seq<Event>, after: seq<Event>)
    ensures Run(s, before + after) == Run(Run(s, before), after)
    decreases |before|
  {
    if before == [] {
      assert before + after == after;
    } else {
      assert (before + after)[1..] == before[1..] + after;
      RunAppend(Step(s, before[0]), before[1..], after);
    }
  }

  /** The last late success of a longer run is the new event, or an old one that the new event leaves. */
  lemma LastLateAppend(s: State, front: seq<Event>, e: Event)
    ensures (exists i: nat :: i < |front + [e]| && LastLate(s, front + [e], i)) <==>
      || SucceedsLate(Run(s, front), e)
      || ((exists i: nat :: i < |front| && LastLate(s, front, i))
          && !Succeeds(Run(s, front), e) && !Rejoins(Run(s, front), e))
  {
    var events, n := front + [e], |front|;
    assert events[..n] == front && events[n] == e;
    assert forall i :: 0 <= i < n ==> events[..i] == front[..i] && events[i] == front[i];
    if SucceedsLate(Run(s, front), e) {
      assert LastLate(s, events, n);
    }
    if i: nat :| i < |front| && LastLate(s, front, i) && !Succeeds(Run(s, front), e) && !Rejoins(Run(s, front), e) {
      assert LastLate(s, events, i);
    }
    if i: nat :| i < |events| && LastLate(s, events, i) {
      if i < n {
        assert !Succeeds(Run(s, events[..n]), events[n]) && !Rejoins(Run(s, events[..n]), events[n]);
        assert LastLate(s, front, i);
      }
    }
  }

  /**
   The backend serves another context than the one shown exactly when some superseded call for
   a key not shown has succeeded, and since then no call has succeeded and no transition has asked
   for the backend's own context.
   */
  lemma {:induction false} BackendIsAheadIff(shown: Key, klines: Bars, events: seq<Event>)
    ensures Apart(Run(Initial(shown, klines), events)) <==>
      exists i: nat :: i < |events| && LastLate(Initial(shown, klines), events, i)
    decreases |events|
  {
    if events != [] {
      var n := |events| - 1;
      var s, front, e := Initial(shown, klines), events[..n], events[n];
      assert events == front + [e];
      BackendIsAheadIff(shown, klines, front);
      LastLateAppend(s, front, e);
      RunAppend(s, front, [e]);
      var t := Run(s, front);
      assert Run(t, [e]) == Step(t, e);
      StepApart(t, e);
      hide Run, Step, LastLate;
    }
  }

  /** If the latest transition fails after a superseded call succeeded, the two stay apart. */
  lemma FailureLeavesBackendAhead(x: Key, a: Key, b: Key, klines: Bars, bars: Bars)
    requires a != x && b != a
    ensures var events := [Request(a), Begin(0), Flushed(0), Request(b), Called(0, Some(bars)),
                           Begin(1), Flushed(1), Called(1, None)];
      var s := Run(Initial(x, klines), events);
      && (forall i :: 0 <= i < |s.transitions| ==> s.transitions[i].phase.Settled?)
      && s.shown == x && s.backend == Some(Backend(a, bars))
  {
    var s0 := Initial(x, klines);
    var s1 := Step(s0, Request(a));
    var s2 := Step(s1, Begin(0));
    var s3 := Step(s2, Flushed(0));
    var s4 := Step(s3, Request(b));
    var s5 := Step(s4, Called(0, Some(bars)));
    var s6 := Step(s5, Begin(1));
    var s7 := Step(s6, Flushed(1));
    var s8 := Step(s7, Called(1, None));
    var events := [Request(a), Begin(0), Flushed(0), Request(b), Called(0, Some(bars)),
                   Begin(1), Flushed(1), Called(1, None)];
    assert s5.transitions == [Transition(a, Settled(Superseded)), Transition(b, Waiting)];
    assert s8.transitions == [Transition(a, Settled(Superseded)), Transition(b, Settled(Failed))];
    hide Step;
    assert Run(s8, events[8..]) == s8;
    assert Run(s7, events[7..]) == Run(s8, events[8..]) by { assert events[7..][1..] == events[8..]; }
    assert Run(s6, events[6..]) == Run(s7, events[7..]) by { assert events[6..][1..] == events[7..]; }
    assert Run(s5, events[5..]) == Run(s6, events[6..]) by { assert events[5..][1..] == events[6..]; }
    assert Run(s4, events[4..]) == Run(s5, events[5..]) by { assert events[4..][1..] == events[5..]; }
    assert Run(s3, events[3..]) == Run(s4, events[4..]) by { assert events[3..][1..] == events[4..]; }
    assert Run(s2, events[2..]) == Run(s3, events[3..]) by { assert events[2..][1..] == events[3..]; }
    assert Run(s1, events[1..]) == Run(s2, events[2..]) by { assert events[1..][1..] == events[2..]; }
  }

  // ---- The store --------------------------------------------------------------------

  class MarketStore {
    var shown: Key
    var klines: Bars
    var backend: Option<Backend>
    var transitions: seq<Transition>

    ghost function Abs(): (s: State)
      reads this
    {
      State(shown, klines, backend, transitions)
    }

    /** Transitions run one at a time and in order, and the latest, once done, is what is shown and served. */
    ghost predicate Valid()
      reads this
    {
      Serial(transitions) && Agreed(Abs())
    }

    constructor (key: Key, bars: Bars)
      ensures Valid()
      ensures Abs() == Initial(key, bars)
    {
      shown, klines, backend, transitions := key, bars, None, [];
    }

    method SetChartContext(key: Key) returns (i: nat)
      requires Valid()
      modifies this`transitions
      ensures Valid()
      ensures Abs() == Step(old(Abs()), Request(key))
      ensures i == |old(transitions)|
    {
      StepSerial(Abs(), Request(key));
      i := |transitions|;
      transitions := transitions + [Transition(key, Waiting)];
    }

    method Settle(i: nat, outcome: Outcome)
      requires i < |transitions|
      modifies this`transitions
      ensures Abs() == Enter(old(Abs()), i, Settled(outcome))
    {
      transitions := transitions[i := transitions[i].(phase := Settled(outcome))];
    }

    method BeginTransition(i: nat)
      requires Valid()
      requires CanBegin(Abs(), i)
      modifies this
      ensures Valid()
      ensures Abs() == Step(old(Abs()), Begin(i))
    {
      StepSerial(Abs(), Begin(i));
      if i + 1 != |transitions| {
        Settle(i, Superseded);
        return;
      }
      var key := transitions[i].key;
      if backend.None? { backend := Some(Backend(shown, klines)); }
      if key == backend.value.context {
        shown, klines := key, backend.value.bars;
        Settle(i, Done);
      } else {
        transitions := transitions[i := transitions[i].(phase := Flushing)];
      }
    }

    method AfterFlush(i: nat)
      requires Valid()
      requires InPhase(Abs(), i, Flushing)
      modifies this`transitions
      ensures Valid()
      ensures Abs() == Step(old(Abs()), Flushed(i))
    {
      StepSerial(Abs(), Flushed(i));
      if i + 1 != |transitions| {
        Settle(i, Superseded);
      } else {
        transitions := transitions[i := transitions[i].(phase := Calling)];
      }
    }

    method AfterCall(i: nat, restored: Option<Bars>)
      requires Valid()
      requires InPhase(Abs(), i, Calling)
      modifies this
      ensures Valid()
      ensures Abs() == Step(old(Abs()), Called(i, restored))
    {
      StepSerial(Abs(), Called(i, restored));
      var latest := i + 1 == |transitions|;
      if restored.None? {
        Settle(i, if latest then Failed else Superseded);
        return;
      }
      var key := transitions[i].key;
      backend := Some(Backend(key, restored.value));
      if !latest {
        Settle(i, Superseded);
        return;
      }
      shown, klines := key, restored.value;
      Settle(i, Done);
    }
  }
}
