/** The promises of the autosave service, stated of every run from its initial state. */
module AutosaveTheorems {
  import opened Common
  import opened AutosaveModel
  import opened AutosaveProofs

  lemma InitialInv()
    ensures Inv(INITIAL)
  {
  }

  lemma {:induction false} RunAppend(s: State, before: seq<Event>, after: seq<Event>)
    ensures Run(s, before + after) == Run(Run(s, before), after)
    decreases |before|
  {
    if before == [] {
      assert before + after == after;
    } else {
      assert (before + after)[1..] == before[1..] + after;
      RunAppend(Step(s, before[0]), before[1..], after);
    }
  }

  lemma Reachable(events: seq<Event>)
    ensures Inv(Run(INITIAL, events))
  {
    InitialInv();
    RunInv(INITIAL, events);
  }

  /** In every reachable state a revision is unacknowledged exactly when something is still to be captured or saved. */
  lemma DirtyEquivalence(events: seq<Event>, k: KeyId)
    ensures var r := Run(INITIAL, events).records;
      && (k in r.views ==>
            var p := r.views[k].part;
            (p.revision > p.ackRevision <==> p.needsCapture || p.payload.Some?)
            && p.ackRevision <= p.revision)
      && var p := r.preferences.part;
         (p.revision > p.ackRevision <==> p.needsCapture || p.payload.Some?) && p.ackRevision <= p.revision
  {
    Reachable(events);
  }

  /** Whatever happens later, neither revision counter of a key or of the preferences is ever lower. */
  lemma CountersNeverFall(before: seq<Event>, after: seq<Event>, k: KeyId)
    ensures var r := Run(INITIAL, before).records;
      var r' := Run(INITIAL, before + after).records;
      && (k in r.views ==>
            && k in r'.views
            && r.views[k].part.revision <= r'.views[k].part.revision
            && r.views[k].part.ackRevision <= r'.views[k].part.ackRevision
            && r.views[k].forceGeneration <= r'.views[k].forceGeneration)
      && r.preferences.part.revision <= r'.preferences.part.revision
      && r.preferences.part.ackRevision <= r'.preferences.part.ackRevision
  {
    Reachable(before);
    RunAppend(INITIAL, before, after);
    RunInv(Run(INITIAL, before), after);
  }

  /** When nothing is pending, what was last observed is what the store acknowledged. */
  lemma NothingPendingIsAcknowledged(events: seq<Event>, k: KeyId)
    ensures var r := Run(INITIAL, events).records;
      && (k in r.views && !r.views[k].part.needsCapture && r.views[k].part.payload.None? ==>
            r.views[k].part.observed == r.views[k].part.ackFingerprint)
      && (!r.preferences.part.needsCapture && r.preferences.part.payload.None? ==>
            r.preferences.part.observed == r.preferences.part.ackFingerprint)
  {
    Reachable(events);
  }

  /** A revision of a key is never reused: two payloads of the same revision are the same payload. */
  lemma RevisionCarriesOneContent(before: seq<Event>, after: seq<Event>, k: KeyId)
    requires k in Run(INITIAL, before).records.views
    requires Run(INITIAL, before).records.views[k].part.payload.Some?
    ensures k in Run(INITIAL, before + after).records.views
    ensures var p := Run(INITIAL, before).records.views[k].part.payload;
      var q := Run(INITIAL, before + after).records.views[k].part.payload;
      q.Some? && q.value.revision == p.value.revision ==> q == p
  {
    var s := Run(INITIAL, before);
    Reachable(before);
    RunAppend(INITIAL, before, after);
    RunInv(s, after);
    var carried := PartAttempt(s.records.views[k].part.payload.value, Unobserved);
    MovesAttempt(s.records, Run(s, after).records, Attempt(k, Some(carried), None, None));
  }

  lemma PreferencesRevisionCarriesOneContent(before: seq<Event>, after: seq<Event>)
    requires Run(INITIAL, before).records.preferences.part.payload.Some?
    ensures var p := Run(INITIAL, before).records.preferences.part.payload;
      var q := Run(INITIAL, before + after).records.preferences.part.payload;
      q.Some? && q.value.revision == p.value.revision ==> q == p
  {
    var s := Run(INITIAL, before);
    Reachable(before);
    RunAppend(INITIAL, before, after);
    RunInv(s, after);
  }

  /** A save answer drops a pending view only if that very payload was in the request and is durable. */
  lemma AnswerDropsOnlyWhatItSaved(events: seq<Event>, res: SaveResult, k: KeyId)
    requires Run(INITIAL, events).drain.Awaiting?
    requires k in Run(INITIAL, events).records.views
    requires Run(INITIAL, events).records.views[k].part.payload.Some?
    ensures var s := Run(INITIAL, events);
      var a := s.drain.attempt;
      var p := s.records.views[k].part.payload.value;
      var r' := ApplyResult(s, a, res).records;
      && k in r'.views
      && if r'.views[k].part.payload.None? then
           && k == a.keyId && a.view.Some? && a.view.value.payload == p
           && Acknowledges(a.view.value, res.viewSaved, res.viewRevision)
         else r'.views[k].part.payload.value.content == p.content
  {
    Reachable(events);
    var s := Run(INITIAL, events);
    var a := s.drain.attempt;
    if a.view.Some? {
      AnswerPartInv(s.records.views[a.keyId].part, a.view.value, res.viewSaved, res.viewRevision);
    }
  }

  lemma AnswerDropsOnlySavedPreferences(events: seq<Event>, res: SaveResult)
    requires Run(INITIAL, events).drain.Awaiting?
    requires Run(INITIAL, events).records.preferences.part.payload.Some?
    ensures var s := Run(INITIAL, events);
      var a := s.drain.attempt;
      var p := s.records.preferences.part.payload.value;
      var r' := ApplyResult(s, a, res).records;
      if r'.preferences.part.payload.None? then
        && a.preferences.Some? && a.preferences.value.payload == p
        && Acknowledges(a.preferences.value, res.preferencesSaved, res.preferencesRevision)
      else r'.preferences.part.payload.value.content == p.content
  {
    Reachable(events);
    var s := Run(INITIAL, events);
    var a := s.drain.attempt;
    if a.preferences.Some? {
      AnswerPartInv(s.records.preferences.part, a.preferences.value, res.preferencesSaved, res.preferencesRevision);
    }
  }

  /** The payload of `p` is still pending in `q`, or a newer one is. */
  predicate StillPending(p: Payload, q: Part) {
    q.payload.Some? && (q.payload.value.content == p.content || q.payload.value.revision > p.revision)
  }

  /** A part that keeps the payload of a rebase keeps the content of the original, or something newer. */
  lemma PendingThroughRebase(p: Part, q: Part, t: Part)
    requires PartInv(p) && PartMoves(p, q) && PartKept(q, t) && p.payload.Some?
    requires q.payload.Some? ==> q.payload.value.content == p.payload.value.content
    ensures q.payload.Some? ==> StillPending(p.payload.value, t)
  {
  }

  /**
   No update is lost in any step: a pending view is still pending, superseded by a newer
   capture, replaced by a snapshot that is at least as new, or acknowledged as itself.
   */
  lemma PendingViewFate(events: seq<Event>, e: Event, k: KeyId)
    requires k in Run(INITIAL, events).records.views
    requires Run(INITIAL, events).records.views[k].part.payload.Some?
    ensures var s := Run(INITIAL, events);
      var p := s.records.views[k].part;
      var r' := Step(s, e).records;
      && k in r'.views
      && (|| StillPending(p.payload.value, r'.views[k].part)
          || (e.Adopted? && e.snapshot.keyId == k && e.snapshot.viewRevision >= p.revision)
          || (e.Answered? && e.result.Some? && s.drain.Awaiting? && s.drain.attempt.keyId == k
              && s.drain.attempt.view.Some? && s.drain.attempt.view.value.payload == p.payload.value
              && Acknowledges(s.drain.attempt.view.value, e.result.value.viewSaved, e.result.value.viewRevision)))
  {
    var s := Run(INITIAL, events);
    Reachable(events);
    StepInv(s, e);
    if e.Answered? && e.result.Some? && s.drain.Awaiting? {
      AnswerDropsOnlyWhatItSaved(events, e.result.value, k);
      var u := ApplyResult(s, s.drain.attempt, e.result.value);
      ApplyResultInv(s, s.drain.attempt, e.result.value);
      ContinueDrainInv(u, s.drain.rest, e.nextSource);
      PendingThroughRebase(s.records.views[k].part, u.records.views[k].part, Step(s, e).records.views[k].part);
    }
  }

  lemma PendingPreferencesFate(events: seq<Event>, e: Event)
    requires Run(INITIAL, events).records.preferences.part.payload.Some?
    ensures var s := Run(INITIAL, events);
      var p := s.records.preferences.part;
      || StillPending(p.payload.value, Step(s, e).records.preferences.part)
      || (e.Adopted? && e.snapshot.preferencesRevision >= p.revision)
      || (e.Answered? && e.result.Some? && s.drain.Awaiting? && s.drain.attempt.preferences.Some?
          && s.drain.attempt.preferences.value.payload == p.payload.value
          && Acknowledges(s.drain.attempt.preferences.value,
                          e.result.value.preferencesSaved, e.result.value.preferencesRevision))
  {
    var s := Run(INITIAL, events);
    Reachable(events);
    StepInv(s, e);
    if e.Answered? && e.result.Some? && s.drain.Awaiting? {
      AnswerDropsOnlySavedPreferences(events, e.result.value);
      var u := ApplyResult(s, s.drain.attempt, e.result.value);
      ApplyResultInv(s, s.drain.attempt, e.result.value);
      ContinueDrainInv(u, s.drain.rest, e.nextSource);
      PendingThroughRebase(
        s.records.preferences.part, u.records.preferences.part, Step(s, e).records.preferences.part);
    }
  }

  /** The queue has no duplicates, agrees with its id set, and holds exactly the keys with something to save. */
  lemma QueueIsExact(events: seq<Event>, k: KeyId)
    ensures var s := Run(INITIAL, events);
      && Distinct(s.queue.order)
      && (k in s.queue.order <==> k in s.queue.ids)
      && (k in s.queue.order <==>
            || (k in s.records.views && s.records.views[k].part.payload.Some?)
            || (k in s.records.views && s.records.views[k].forceKlineFlush)
            || (s.records.preferences.part.payload.Some? && s.records.preferences.keyId == Some(k)))
  {
    Reachable(events);
  }

  // ---- Forced flushes -------------------------------------------------

  /** The event forces the candles of `k` out. */
  predicate ForceRequest(s: State, e: Event, k: KeyId) {
    e.Flushed? && Forces(s, e.timer, e.source) && e.source.key == Some(k)
  }

  /** While a save is outstanding nothing but its answer clears a forced flush, and a new request counts up. */
  lemma OutstandingStep(s: State, e: Event, k: KeyId)
    requires Inv(s) && s.drain.Awaiting? && !e.Answered? && k in s.records.views
    ensures var t := Step(s, e);
      && t.drain == s.drain
      && k in t.records.views
      && (s.records.views[k].forceKlineFlush ==> t.records.views[k].forceKlineFlush)
      && (ForceRequest(s, e, k) ==>
            t.records.views[k].forceKlineFlush
            && t.records.views[k].forceGeneration > s.records.views[k].forceGeneration)
  {
    hide RecordsInv, QueueInv, AttemptInv;
    if e.Flushed? {
      CaptureActiveInv(s, e.source);
    }
    StepInv(s, e);
  }

  /** A flush forced while a save is outstanding survives the answer to that save, whatever else happens before it. */
  lemma {:induction false} LateForceSurvives(s: State, events: seq<Event>, i: nat, res: SaveResult)
    requires Inv(s) && s.drain.Awaiting? && i < |events|
    requires forall e :: e in events ==> !e.Answered?
    requires ForceRequest(Run(s, events[..i]), events[i], s.drain.attempt.keyId)
    ensures var t := Run(s, events);
      t.drain == s.drain
      && var r := ApplyResult(t, s.drain.attempt, res).records;
         s.drain.attempt.keyId in r.views && r.views[s.drain.attempt.keyId].forceKlineFlush
    decreases |events|
  {
    var k := s.drain.attempt.keyId;
    var t := Step(s, events[0]);
    StepInv(s, events[0]);
    OutstandingStep(s, events[0], k);
    if i == 0 {
      assert events[..0] == [];
      ForcedStays(t, s.drain.attempt, events[1..], res);
    } else {
      assert events[..i][1..] == events[1..][..i - 1];
      LateForceSurvives(t, events[1..], i - 1, res);
    }
  }

  lemma {:induction false} ForcedStays(s: State, a: Attempt, events: seq<Event>, res: SaveResult)
    requires Inv(s) && s.drain.Awaiting? && s.drain.attempt == a
    requires forall e :: e in events ==> !e.Answered?
    requires s.records.views[a.keyId].forceKlineFlush
    requires a.forceGeneration.Some? ==> a.forceGeneration.value < s.records.views[a.keyId].forceGeneration
    ensures var t := Run(s, events);
      t.drain == s.drain
      && var r := ApplyResult(t, a, res).records;
         a.keyId in r.views && r.views[a.keyId].forceKlineFlush
    decreases |events|
  {
    if events != [] {
      StepInv(s, events[0]);
      OutstandingStep(s, events[0], a.keyId);
      ForcedStays(Step(s, events[0]), a, events[1..], res);
    }
  }

  // ---- A drain that cannot empty the queue -------------------------------

  function ExampleSource(k: KeyId, c: Content): Source {
    var captured := Captured(1, c, Of(c), 0, c, Unobserved);
    Source(Some(k), Some(captured), Some(captured))
  }

  /** Source 0 is active and its view of `k` has been edited. */
  function EditedExample(k: KeyId): State {
    Step(Step(Step(Step(INITIAL, Register(0)), Register(1)), SetActive(0, true)), ViewDirty(0, Some(k)))
  }

  /** The view was sent, edited again, and source 1 took over before that edit was captured. */
  function OvertakenExample(k: KeyId, c: Content): State {
    var sent := Step(EditedExample(k), Flushed(true, ExampleSource(k, c), ExampleSource(k, c)));
    Step(Step(sent, ViewDirty(0, Some(k))), SetActive(1, true))
  }

  lemma EditedExampleState(k: KeyId)
    ensures EditedExample(k) == State(
      Records(map[k := ViewRecord(MarkPart(EMPTY_PART, 0), false, 0)], Preferences(EMPTY_PART, None, None)),
      Queue([], {}), map[0 := Registration(true, false), 1 := Registration(true, false)], Some(0), false, Idle)
  {
  }

  lemma SentExampleState(k: KeyId, c: Content)
    ensures var s := EditedExample(k);
      var part := CapturePart(MarkPart(EMPTY_PART, 0), c, Of(c));
      Step(s, Flushed(true, ExampleSource(k, c), ExampleSource(k, c))) ==
      s.(records := s.records.(views := map[k := ViewRecord(part, false, 0)]), queue := Queue([k], {k}),
         drain := Awaiting(Attempt(k, CarriedPart(part), None, None), []))
  {
    EditedExampleState(k);
    var s := EditedExample(k);
    var src := ExampleSource(k, c);
    var part := CapturePart(MarkPart(EMPTY_PART, 0), c, Of(c));
    var t := s.(records := s.records.(views := map[k := ViewRecord(part, false, 0)]), queue := Queue([k], {k}));
    assert Detect(s.records, 0, k, src.initial.value) == s.records;
    assert CaptureActive(s, src) == t;
    assert Detect(t.records, 0, k, src.initial.value) == t.records;
    assert CaptureActive(t, src) == t;
    assert t.(drainRequested := true).(drainRequested := false) == t;
    assert [k][1..] == [];
    assert RunCycle(t, [k]) == t.(drain := Awaiting(Attempt(k, CarriedPart(part), None, None), []));
  }

  /** Source 1 shows the same chart; what it reads has no say in an edit that source 0 owes. */
  lemma OvertakenExampleState(k: KeyId, c: Content)
    ensures var s := OvertakenExample(k, c);
      var part := MarkPart(CapturePart(MarkPart(EMPTY_PART, 0), c, Of(c)), 0);
      && s.records == Records(map[k := ViewRecord(part, false, 0)], Preferences(EMPTY_PART, None, None))
      && s.queue == Queue([k], {k}) && s.active == Some(1) && s.drainRequested
      && s.registrations == map[0 := Registration(true, false), 1 := Registration(true, false)]
      && s.drain == Awaiting(Attempt(k, CarriedPart(CapturePart(MarkPart(EMPTY_PART, 0), c, Of(c))), None, None), [])
  {
    EditedExampleState(k);
    SentExampleState(k, c);
  }

  /** An answer to an overtaken payload changes nothing but the place in the loop. */
  lemma OvertakenAnswer(s: State, k: KeyId, c: Content, c': Content, res: SaveResult)
    requires var part := MarkPart(CapturePart(MarkPart(EMPTY_PART, 0), c, Of(c)), 0);
      && s.records == Records(map[k := ViewRecord(part, false, 0)], Preferences(EMPTY_PART, None, None))
      && s.queue == Queue([k], {k}) && s.active == Some(1)
      && s.registrations == map[0 := Registration(true, false), 1 := Registration(true, false)]
      && s.drain.Awaiting? && s.drain.rest == [] && s.drain.attempt.keyId == k
      && s.drain.attempt.forceGeneration.None? && s.drain.attempt.preferences.None?
    ensures var t := Step(s, Answered(Some(res), ExampleSource(k, c')));
      && t == s.(drain := t.drain, drainRequested := false)
      && if s.drainRequested
         then t.drain == Awaiting(Attempt(k, CarriedPart(s.records.views[k].part), None, None), [])
         else t.drain == Settling
  {
    var src, a, part := ExampleSource(k, c'), s.drain.attempt, s.records.views[k].part;
    assert AnswerRecords(s.records, a, res) == s.records;
    assert !AnswerRebases(s.records, a, res);
    assert ApplyResult(s, a, res) == s;
    var t := s.(drain := Settling);
    assert RunCycle(s, []) == t;
    if s.drainRequested {
      var u := t.(drainRequested := false);
      assert Detect(u.records, 1, k, src.initial.value) == u.records;
      assert CaptureActive(u, src) == u;
      assert [k][1..] == [];
      assert RunCycle(u, [k]) == u.(drain := Awaiting(Attempt(k, CarriedPart(part), None, None), []));
    }
  }

  /**
   A drain that ends with its queue not empty. The view was sent and edited again, source 1 took
   over before that edit was captured: whatever is answered, two passes later the drain is at rest,
   the old payload is still queued and the edit that overtook it is still owed.
   */
  lemma OvertakenPayloadStaysQueued(k: KeyId, c: Content, c': Content, res: SaveResult, res': SaveResult)
    ensures var s, src := OvertakenExample(k, c), ExampleSource(k, c');
      var t := Step(Step(s, Answered(Some(res), src)), Answered(Some(res'), src));
      && t.drain.Settling? && !t.drainRequested
      && k in t.queue.order && k in t.records.views
      && t.records.views[k].part.payload == Some(Payload(c, 1)) && t.records.views[k].part.needsCapture
  {
    var s, src := OvertakenExample(k, c), ExampleSource(k, c');
    OvertakenExampleState(k, c);
    OvertakenAnswer(s, k, c, c', res);
    var t := Step(s, Answered(Some(res), src));
    OvertakenAnswer(t, k, c, c', res');
    hide Step, OvertakenExample;
    assert k in [k];
  }
}
