/**
 The drain as runs of the state machine: a flush, and then the answers the store gives, one save
 at a time, take the service through exactly the passes of the drain loop and bring it to rest.
 */
module AutosaveRuns {
  import opened Common
  import opened AutosaveModel
  import opened AutosaveProofs
  import opened AutosaveDrain

  // ---- Answering the outstanding save ----------------------------------------

  /** The store serves the outstanding save and its answer arrives. */
  function AnswerEvent(y: System, src: Source): Event
    requires y.state.drain.Awaiting?
  {
    Answered(Some(SaveAnswer(y.store, y.state.drain.attempt)), src)
  }

  function Answer(y: System, src: Source): System
    requires y.state.drain.Awaiting?
  {
    System(Step(y.state, AnswerEvent(y, src)), SaveStore(y.store, y.state.drain.attempt))
  }

  /** The next n answers; a service that awaits nothing gets none. */
  function Answers(y: System, src: Source, n: nat): System
    decreases n
  {
    if n == 0 || !y.state.drain.Awaiting? then y else Answers(Answer(y, src), src, n - 1)
  }

  function AnswerEvents(y: System, src: Source, n: nat): seq<Event>
    decreases n
  {
    if n == 0 || !y.state.drain.Awaiting? then []
    else [AnswerEvent(y, src)] + AnswerEvents(Answer(y, src), src, n - 1)
  }

  lemma {:induction false} AnswersAreARun(y: System, src: Source, n: nat)
    ensures Run(y.state, AnswerEvents(y, src, n)) == Answers(y, src, n).state
    decreases n
  {
    if n > 0 && y.state.drain.Awaiting? {
      var rest := AnswerEvents(Answer(y, src), src, n - 1);
      AnswersAreARun(Answer(y, src), src, n - 1);
      assert ([AnswerEvent(y, src)] + rest)[1..] == rest;
      hide Step;
    }
  }

  lemma {:induction false} AnswersAdd(y: System, src: Source, m: nat, n: nat)
    ensures Answers(y, src, m + n) == Answers(Answers(y, src, m), src, n)
    decreases m
  {
    if m > 0 && y.state.drain.Awaiting? {
      AnswersAdd(Answer(y, src), src, m - 1, n);
      hide Answer;
    } else if m > 0 {
      AnswersIdle(y, src, m + n);
      AnswersIdle(y, src, n);
    }
  }

  lemma AnswersIdle(y: System, src: Source, n: nat)
    requires !y.state.drain.Awaiting?
    ensures Answers(y, src, n) == y
  {
  }

  // ---- The state of the loop is only its drain field ---------------------------

  function At(s: State, d: Drain): State {
    s.(drain := d)
  }

  lemma CaptureAt(s: State, d: Drain, src: Source)
    ensures CaptureActive(At(s, d), src) == At(CaptureActive(s, src), d)
  {
    hide Enqueue, RemoveOptionIfClean, Detect, StoreViewRecord, StorePreferencesRecord;
  }

  lemma ApplyAt(s: State, d: Drain, a: Attempt, res: SaveResult)
    ensures ApplyResult(At(s, d), a, res) == At(ApplyResult(s, a, res), d)
  {
    hide RemoveIfClean, AnswerRecords, AnswerRebases;
  }

  lemma {:induction false} RunCycleAt(s: State, d: Drain, keys: seq<KeyId>)
    ensures RunCycle(At(s, d), keys) == RunCycle(s, keys)
    decreases |keys|
  {
    hide CreateAttempt, RemoveIfClean;
    if keys != [] && CreateAttempt(s.records, keys[0]).None? {
      RunCycleAt(s.(queue := RemoveIfClean(s.records, s.queue, keys[0])), d, keys[1..]);
    }
  }

  lemma ContinueAt(s: State, d: Drain, keys: seq<KeyId>, src: Source)
    ensures ContinueDrain(At(s, d), keys, src) == ContinueDrain(s, keys, src)
  {
    RunCycleAt(s, d, keys);
    hide RunCycle;
  }

  lemma BeginCycleAt(s: State, d: Drain, src: Source)
    ensures BeginCycle(At(s, d), src) == BeginCycle(s, src)
  {
    var t := CaptureActive(s.(drainRequested := false), src);
    CaptureAt(s.(drainRequested := false), d, src);
    RunCycleAt(t, d, t.queue.order);
    hide CaptureActive, RunCycle;
  }

  // ---- One pass --------------------------------------------------------------

  /** Where a pass leads when its last key has been served. */
  function AfterPass(s: State, src: Source): State {
    if s.drainRequested then BeginCycle(s, src) else At(s, Settling)
  }

  /** Served by the store, the rest of a pass comes out as the loop over its keys says. */
  lemma {:induction false} PassRuns(y: System, keys: seq<KeyId>, src: Source) returns (n: nat)
    ensures n <= |keys|
    ensures Answers(System(ContinueDrain(y.state, keys, src), y.store), src, n)
      == System(AfterPass(Pass(y, keys).state, src), Pass(y, keys).store)
    decreases |keys|
  {
    var s := y.state;
    if keys == [] {
      n := 0;
      BeginCycleAt(s, Settling, src);
    } else {
      var k, rest := keys[0], keys[1..];
      var a := CreateAttempt(s.records, k);
      var y' := ServeKey(y, k);
      n := PassRuns(y', rest, src);
      if a.Some? {
        var d := Awaiting(a.value, rest);
        var t := System(At(s, d), y.store);
        assert RunCycle(s, keys) == At(s, d);
        assert ContinueDrain(s, keys, src) == At(s, d);
        ApplyAt(s, d, a.value, SaveAnswer(y.store, a.value));
        ContinueAt(y'.state, d, rest, src);
        hide ContinueDrain, ApplyResult, SaveAnswer, SaveStore, AfterPass;
        assert Answer(t, src) == System(ContinueDrain(y'.state, rest, src), y'.store);
        n := n + 1;
      } else {
        assert RunCycle(s, keys) == RunCycle(y'.state, rest);
        assert ContinueDrain(s, keys, src) == ContinueDrain(y'.state, rest, src);
      }
    }
  }

  /** A cycle that the service begins comes out as the loop says. */
  lemma CycleRuns(y: System, src: Source) returns (n: nat)
    ensures n <= |BeginPass(y.state, src).queue.order|
    ensures Answers(System(BeginCycle(y.state, src), y.store), src, n)
      == System(AfterPass(Cycle(y, src).state, src), Cycle(y, src).store)
  {
    var s := BeginPass(y.state, src);
    CaptureKeepsRequest(y.state.(drainRequested := false), src);
    RunCycleKeepsRequest(s, s.queue.order);
    assert ContinueDrain(s, s.queue.order, src) == BeginCycle(y.state, src);
    n := PassRuns(System(s, y.store), s.queue.order, src);
  }

  lemma CaptureKeepsRequest(s: State, src: Source)
    ensures CaptureActive(s, src).drainRequested == s.drainRequested
  {
    hide Enqueue, RemoveOptionIfClean, Detect, StoreViewRecord, StorePreferencesRecord;
  }

  lemma {:induction false} RunCycleKeepsRequest(s: State, keys: seq<KeyId>)
    ensures RunCycle(s, keys).drainRequested == s.drainRequested
    decreases |keys|
  {
    if keys != [] && CreateAttempt(s.records, keys[0]).None? {
      RunCycleKeepsRequest(s.(queue := RemoveIfClean(s.records, s.queue, keys[0])), keys[1..]);
    }
  }

  // ---- The whole drain ----------------------------------------------------------

  lemma {:induction false} PassShrinksQueue(y: System, keys: seq<KeyId>)
    ensures |Pass(y, keys).state.queue.order| <= |y.state.queue.order|
    decreases |keys|
  {
    if keys != [] {
      ServeShrinksQueue(y, keys[0]);
      PassShrinksQueue(ServeKey(y, keys[0]), keys[1..]);
    }
  }

  lemma ServeShrinksQueue(y: System, k: KeyId)
    ensures |ServeKey(y, k).state.queue.order| <= |y.state.queue.order|
  {
    hide AnswerRecords, AnswerRebases, SaveAnswer, SaveStore, HasWork;
    RemoveFirstShorter(y.state.queue.order, k);
    CreateAttemptKey(y.state.records, k);
    hide CreateAttempt;
  }

  lemma CreateAttemptKey(r: Records, k: KeyId)
    ensures CreateAttempt(r, k).Some? ==> CreateAttempt(r, k).value.keyId == k
  {
  }

  lemma {:induction false} RemoveFirstShorter<T>(s: seq<T>, x: T)
    ensures |RemoveFirst(s, x)| <= |s|
  {
    if s != [] { RemoveFirstShorter(s[1..], x); }
  }

  lemma SecondQueue(y: System, src: Source)
    requires StillInv(y.state) && Stable(src)
    ensures |BeginPass(Cycle(y, src).state, src).queue.order| <= |BeginPass(y.state, src).queue.order|
  {
    var s, t := BeginPass(y.state, src), Cycle(y, src);
    FirstCycle(y, src);
    QuietCapture(t.state.(drainRequested := false), src);
    PassShrinksQueue(System(s, y.store), s.queue.order);
  }

  /** Answered by the store and otherwise undisturbed, a cycle that begins ends the drain, all done. */
  lemma DrainRuns(y: System, src: Source) returns (n: nat)
    requires StillInv(y.state) && Stable(src)
    ensures n <= 2 * |BeginPass(y.state, src).queue.order|
    ensures Answers(System(BeginCycle(y.state, src), y.store), src, n)
      == System(At(WholeDrain(y, src).state, Settling), WholeDrain(y, src).store)
  {
    hide Cycle, BeginCycle, BeginPass, StillInv, Quiet, Ready, Settled, Answers;
    var t := Cycle(y, src);
    SecondQueue(y, src);
    n := CycleRuns(y, src);
    FirstCycle(y, src);
    if t.state.drainRequested {
      SecondCycle(t, src);
      var m := CycleRuns(t, src);
      AnswersAdd(System(BeginCycle(y.state, src), y.store), src, n, m);
      n := n + m;
    }
  }

  /**
   A flush of an idle service, followed by the store's answers and nothing else, is a run that
   comes to rest. No key is saved more than twice, nothing that could be saved is left, and what
   stays queued is exactly what an edit not captured had overtaken when the drain began.
   */
  lemma FlushDrains(before: seq<Event>, store: Store, timer: bool, source: Source, src: Source) returns (n: nat)
    requires Run(INITIAL, before).drain.Idle? && Stable(src)
    ensures var s, first := Run(INITIAL, before), Flushed(timer, source, src);
      var y := System(PrepareFlush(s, timer, source), store);
      var start := System(Step(s, first), store);
      var t := Run(s, [first] + AnswerEvents(start, src, n));
      && n <= 2 * |BeginPass(y.state, src).queue.order|
      && t == At(WholeDrain(y, src).state, Settling)
      && Answers(start, src, n).store == WholeDrain(y, src).store
      && Drained(t)
      && forall k :: k in t.queue.order <==> LeftBehind(y.state, src, k)
  {
    var s, first := Run(INITIAL, before), Flushed(timer, source, src);
    var p := PrepareFlush(s, timer, source);
    var y := System(p, store);
    var start := System(Step(s, first), store);
    assert Inv(INITIAL);
    RunInv(INITIAL, before);
    PrepareFlushInv(s, timer, source);
    BeginIgnoresRequest(p, src);
    assert start.state == BeginCycle(p, src);
    n := DrainRuns(y, src);
    AnswersAreARun(start, src, n);
    assert ([first] + AnswerEvents(start, src, n))[1..] == AnswerEvents(start, src, n);
    DrainFinishes(y, src);
    forall k
      ensures k in WholeDrain(y, src).state.queue.order <==> LeftBehind(p, src, k)
    {
      DrainLeavesIff(y, src, k);
    }
    hide WholeDrain, Step, PrepareFlush, LeftBehind, Answers, AnswerEvents, StillInv, BeginPass;
    RestIsDrained(WholeDrain(y, src).state);
  }

  lemma BeginIgnoresRequest(s: State, src: Source)
    ensures BeginCycle(s.(drainRequested := true), src) == BeginCycle(s, src)
  {
    assert s.(drainRequested := true).(drainRequested := false) == s.(drainRequested := false);
  }

  lemma RestIsDrained(s: State)
    requires StillInv(s) && Drained(s)
    ensures Inv(At(s, Settling)) && Drained(At(s, Settling))
  {
    hide RecordsInv, QueueInv, Settled;
    assert forall x :: Settled(At(s, Settling).records, x);
  }
}
