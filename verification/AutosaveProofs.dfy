/**
 What every run of the autosave protocol keeps: dirtiness is exactly an
 unacknowledged revision, the queue is exactly the pending work, and no answer
 drops a payload other than the one it saved.
 */
module AutosaveProofs {
  import opened Common
  import opened AutosaveModel

  // ---- Invariants -----------------------------------------------------

  predicate Dirty(p: Part) {
    p.needsCapture || p.payload.Some?
  }

  /** A part is ahead of its acknowledgement exactly when it is dirty; a clean part is the acknowledged one. */
  ghost predicate PartInv(p: Part) {
    && p.ackRevision <= p.revision
    && (p.revision > p.ackRevision <==> Dirty(p))
    && (!Dirty(p) ==> p.observed == p.ackFingerprint)
    && (p.payload.Some? ==>
          if p.needsCapture then p.payload.value.revision < p.revision
          else p.payload.value.revision == p.revision)
    && (p.needsCapture <==> p.registration.Some?)
  }

  /** An outstanding save carries an old revision of the part, or its present payload. */
  ghost predicate CarriedInv(p: Part, a: PartAttempt) {
    && a.payload.revision <= p.revision
    && (p.needsCapture ==> a.payload.revision < p.revision)
    && (p.payload.Some? && p.payload.value.revision == a.payload.revision ==> p.payload.value == a.payload)
  }

  ghost predicate RecordsInv(r: Records) {
    && (forall k :: k in r.views ==> PartInv(r.views[k].part))
    && PartInv(r.preferences.part)
    && (r.preferences.part.payload.Some? <==> r.preferences.keyId.Some?)
    && (r.preferences.part.needsCapture <==> r.preferences.captureKey.Some?)
    && (r.preferences.keyId.Some? ==> r.preferences.keyId.value in r.views)
  }

  /** The queue lists, once each, exactly the keys that have something to save. */
  ghost predicate QueueInv(r: Records, q: Queue) {
    && Distinct(q.order)
    && (forall k :: k in q.order <==> k in q.ids)
    && (forall k :: k in q.ids <==> HasWork(r, k))
  }

  ghost predicate AttemptInv(r: Records, a: Attempt) {
    && a.keyId in r.views
    && (a.view.Some? ==> CarriedInv(r.views[a.keyId].part, a.view.value))
    && (a.preferences.Some? ==> CarriedInv(r.preferences.part, a.preferences.value))
    && (a.forceGeneration.Some? ==> a.forceGeneration.value <= r.views[a.keyId].forceGeneration)
  }

  ghost predicate StillInv(s: State) {
    RecordsInv(s.records) && QueueInv(s.records, s.queue)
  }

  ghost predicate Inv(s: State) {
    StillInv(s) && (s.drain.Awaiting? ==> AttemptInv(s.records, s.drain.attempt))
  }

  // ---- How a state may evolve ------------------------------------------

  /** No counter falls, and every revision that gains a payload is a new one. */
  ghost predicate PartMoves(p: Part, q: Part) {
    && p.revision <= q.revision
    && p.ackRevision <= q.ackRevision
    && (q.needsCapture ==> p.needsCapture || q.revision > p.revision)
    && (q.payload.Some? ==>
          || q.payload == p.payload
          || q.payload.value.revision > p.revision
          || (p.needsCapture && q.payload.value.revision >= p.revision))
  }

  ghost predicate Moves(r: Records, r': Records) {
    && PartMoves(r.preferences.part, r'.preferences.part)
    && (forall k :: k in r.views ==>
          && k in r'.views
          && PartMoves(r.views[k].part, r'.views[k].part)
          && r.views[k].forceGeneration <= r'.views[k].forceGeneration)
  }

  /** A pending payload is still there, or a strictly newer one has taken its place. */
  ghost predicate PartKept(p: Part, q: Part) {
    p.payload.Some? ==>
      q.payload.Some? && (q.payload == p.payload || q.payload.value.revision > p.payload.value.revision)
  }

  /** Pending payloads and forced flushes are still pending. */
  ghost predicate Kept(r: Records, r': Records) {
    && PartKept(r.preferences.part, r'.preferences.part)
    && (forall k :: k in r.views ==>
          && k in r'.views
          && PartKept(r.views[k].part, r'.views[k].part)
          && (r.views[k].forceKlineFlush ==> r'.views[k].forceKlineFlush))
  }

  lemma MovesTransitive(r0: Records, r1: Records, r2: Records)
    requires Moves(r0, r1) && Moves(r1, r2)
    ensures Moves(r0, r2)
  {
  }

  lemma KeptTransitive(r0: Records, r1: Records, r2: Records)
    requires Kept(r0, r1) && Kept(r1, r2)
    ensures Kept(r0, r2)
  {
  }

  lemma MovesAttempt(r: Records, r': Records, a: Attempt)
    requires Moves(r, r') && AttemptInv(r, a)
    ensures AttemptInv(r', a)
  {
  }

  /** What a transition that neither answers a save nor adopts a snapshot does to the records. */
  ghost predicate Advances(r: Records, r': Records) {
    RecordsInv(r') && Moves(r, r') && Kept(r, r')
  }

  lemma AdvancesSelf(r: Records)
    requires RecordsInv(r)
    ensures Advances(r, r)
  {
  }

  lemma AdvancesTransitive(r0: Records, r1: Records, r2: Records)
    requires Advances(r0, r1) && Advances(r1, r2)
    ensures Advances(r0, r2)
  {
    MovesTransitive(r0, r1, r2);
    KeptTransitive(r0, r1, r2);
  }

  // ---- One part -------------------------------------------------------

  lemma MarkPartInv(p: Part, reg: RegId)
    requires PartInv(p)
    ensures var q := MarkPart(p, reg);
      PartInv(q) && PartMoves(p, q) && PartKept(p, q) && q.payload == p.payload
  {
  }

  lemma CapturePartInv(p: Part, content: Content, fingerprint: Fingerprint)
    requires PartInv(p) && p.needsCapture
    ensures var q := CapturePart(p, content, fingerprint);
      PartInv(q) && PartMoves(p, q) && PartKept(p, q) && q.payload.Some?
  {
  }

  lemma AdoptPartInv(p: Part, revision: nat, fingerprint: Fingerprint)
    requires PartInv(p)
    ensures var q := AdoptPart(p, revision, fingerprint);
      && PartInv(q) && PartMoves(p, q)
      && if revision >= p.revision then !Dirty(q) else q.payload == p.payload && q.needsCapture == p.needsCapture
  {
  }

  /** An answer drops a payload only as the very one that was saved; a rebase keeps its content. */
  lemma AnswerPartInv(p: Part, a: PartAttempt, saved: bool, durable: nat)
    requires PartInv(p) && CarriedInv(p, a)
    ensures var q := AnswerPart(p, a, saved, durable);
      && PartInv(q) && PartMoves(p, q) && q.needsCapture == p.needsCapture
      && (p.payload.None? ==> q == p)
      && (p.payload.Some? && q.payload.None? ==>
            p.payload.value == a.payload && Acknowledges(a, saved, durable) && q.ackRevision == durable)
      && (p.payload.Some? && q.payload.Some? ==>
            q.payload.value.content == p.payload.value.content
            && q.payload.value.revision >= p.payload.value.revision)
  {
  }

  // ---- Updates of one record ------------------------------------------

  lemma ViewUpdate(r: Records, k: KeyId, v: ViewRecord)
    requires RecordsInv(r) && k in r.views && PartInv(v.part)
    requires PartMoves(r.views[k].part, v.part) && r.views[k].forceGeneration <= v.forceGeneration
    ensures RecordsInv(WithView(r, k, v)) && Moves(r, WithView(r, k, v))
    ensures PartKept(r.views[k].part, v.part) && (r.views[k].forceKlineFlush ==> v.forceKlineFlush)
      ==> Kept(r, WithView(r, k, v))
  {
  }

  lemma PreferencesUpdate(r: Records, p: Preferences)
    requires RecordsInv(r) && PartInv(p.part) && PartMoves(r.preferences.part, p.part)
    requires p.part.payload.Some? <==> p.keyId.Some?
    requires p.part.needsCapture <==> p.captureKey.Some?
    requires p.keyId.Some? ==> p.keyId.value in r.views
    ensures RecordsInv(r.(preferences := p)) && Moves(r, r.(preferences := p))
    ensures PartKept(r.preferences.part, p.part) ==> Kept(r, r.(preferences := p))
  {
  }

  lemma EnsureViewAdvances(r: Records, k: KeyId)
    requires RecordsInv(r)
    ensures Advances(r, EnsureView(r, k))
    ensures forall x :: HasWork(EnsureView(r, k), x) <==> HasWork(r, x)
  {
  }

  lemma MarkViewAdvances(r: Records, reg: RegId, k: KeyId)
    requires RecordsInv(r) && k in r.views
    ensures Advances(r, MarkViewRecord(r, reg, k))
    ensures forall x :: HasWork(MarkViewRecord(r, reg, k), x) <==> HasWork(r, x)
  {
    MarkPartInv(r.views[k].part, reg);
    ViewUpdate(r, k, r.views[k].(part := MarkPart(r.views[k].part, reg)));
  }

  lemma MarkPreferencesAdvances(r: Records, reg: RegId, k: KeyId)
    requires RecordsInv(r)
    ensures Advances(r, MarkPreferencesRecord(r, reg, k))
    ensures forall x :: HasWork(MarkPreferencesRecord(r, reg, k), x) <==> HasWork(r, x)
  {
    MarkPartInv(r.preferences.part, reg);
    PreferencesUpdate(r, MarkPreferencesRecord(r, reg, k).preferences);
  }

  // ---- The queue ------------------------------------------------------

  lemma QueueSame(r: Records, r': Records, q: Queue)
    requires QueueInv(r, q) && forall x :: HasWork(r', x) <==> HasWork(r, x)
    ensures QueueInv(r', q)
  {
  }

  lemma QueueAdded(r: Records, r': Records, q: Queue, k: KeyId)
    requires QueueInv(r, q) && HasWork(r', k)
    requires forall x :: x != k ==> (HasWork(r', x) <==> HasWork(r, x))
    ensures QueueInv(r', Enqueue(q, k))
  {
  }

  /** Everything with work is queued, and what is queued has work, unless it is `k` or `j`. */
  ghost predicate QueueInvExcept(r: Records, q: Queue, k: Option<KeyId>, j: Option<KeyId>) {
    && Distinct(q.order)
    && (forall x :: x in q.order <==> x in q.ids)
    && (forall x :: HasWork(r, x) ==> x in q.ids)
    && (forall x :: x in q.ids && Some(x) != k && Some(x) != j ==> HasWork(r, x))
  }

  lemma RemoveIfCleanExact(r: Records, q: Queue, k: Option<KeyId>, j: Option<KeyId>)
    requires QueueInvExcept(r, q, k, j)
    ensures QueueInvExcept(r, RemoveOptionIfClean(r, q, k), None, j)
  {
    if k.Some? {
      RemoveFirstDistinct(q.order, k.value);
    }
  }

  // ---- Capture --------------------------------------------------------

  lemma DetectAdvances(r: Records, reg: RegId, k: KeyId, c: Captured)
    requires RecordsInv(r) && k in r.views
    ensures k in Detect(r, reg, k, c).views && Advances(r, Detect(r, reg, k, c))
    ensures forall x :: HasWork(Detect(r, reg, k, c), x) <==> HasWork(r, x)
  {
    var r' := DetectView(r, reg, k, c);
    MarkViewAdvances(r, reg, k);
    MarkPreferencesAdvances(r', reg, k);
    AdvancesTransitive(r, r', Detect(r, reg, k, c));
  }

  lemma StoreViewAdvances(s: State, reg: RegId, k: KeyId, c: Captured)
    requires StillInv(s) && k in s.records.views
    ensures var t := StoreView(s, reg, k, c); Advances(s.records, t.records) && StillInv(t)
  {
    var r := s.records;
    if CapturesView(r, reg, k) {
      CapturePartInv(r.views[k].part, c.viewContent, c.viewFingerprint);
      ViewUpdate(r, k, StoreViewRecord(r, k, c).views[k]);
      QueueAdded(r, StoreViewRecord(r, k, c), s.queue, k);
    }
  }

  lemma StorePreferencesAdvances(s: State, reg: RegId, k: KeyId, c: Captured)
    requires StillInv(s) && k in s.records.views
    ensures var t := StorePreferences(s, reg, k, c); Advances(s.records, t.records) && StillInv(t)
  {
    var r := s.records;
    if CapturesPreferences(r, reg, k) {
      var r' := StorePreferencesRecord(r, k, c);
      CapturePartInv(r.preferences.part, c.preferencesContent, c.preferencesFingerprint);
      PreferencesUpdate(r, r'.preferences);
      var previous := r.preferences.keyId;
      assert forall x :: x != k && Some(x) != previous ==> (HasWork(r', x) <==> HasWork(r, x));
      assert QueueInvExcept(r', Enqueue(s.queue, k), previous, None);
      RemoveIfCleanExact(r', Enqueue(s.queue, k), previous, None);
    }
  }

  lemma CaptureActiveInv(s: State, src: Source)
    requires StillInv(s)
    ensures var t := CaptureActive(s, src);
      Advances(s.records, t.records) && StillInv(t) && t.drain == s.drain && t.drainRequested == s.drainRequested
  {
    hide RecordsInv, QueueInv, Moves, Kept, HasWork;
    AdvancesSelf(s.records);
    var active := ActiveCapture(s, src.key);
    if active.Some? && s.registrations[active.value.0].captureEnabled {
      var (reg, k) := active.value;
      var r := EnsureView(s.records, k);
      EnsureViewAdvances(s.records, k);
      QueueSame(s.records, r, s.queue);
      if src.initial.Some? {
        var r' := Detect(r, reg, k, src.initial.value);
        DetectAdvances(r, reg, k, src.initial.value);
        QueueSame(r, r', s.queue);
        AdvancesTransitive(s.records, r, r');
        var t := s.(records := r');
        var chosen := ChosenCapture(r', reg, k, src.initial.value, src.again);
        if chosen.Some? {
          var u := StoreView(t, reg, k, chosen.value);
          StoreViewAdvances(t, reg, k, chosen.value);
          StorePreferencesAdvances(u, reg, k, chosen.value);
          AdvancesTransitive(s.records, r', u.records);
          AdvancesTransitive(s.records, u.records, StorePreferences(u, reg, k, chosen.value).records);
        }
      }
    }
  }

  // ---- The drain loop -------------------------------------------------

  lemma CreateAttemptInv(r: Records, k: KeyId)
    requires RecordsInv(r)
    ensures var a := CreateAttempt(r, k); a.Some? ==> a.value.keyId == k && AttemptInv(r, a.value)
    ensures CreateAttempt(r, k).Some? <==> HasWork(r, k)
  {
  }

  lemma {:induction false} RunCycleInv(s: State, rest: seq<KeyId>)
    requires StillInv(s)
    ensures var t := RunCycle(s, rest); Inv(t) && !t.drain.Idle? && t == s.(drain := t.drain)
    decreases |rest|
  {
    if rest != [] {
      CreateAttemptInv(s.records, rest[0]);
      if CreateAttempt(s.records, rest[0]).None? {
        assert RemoveIfClean(s.records, s.queue, rest[0]) == s.queue;
        RunCycleInv(s, rest[1..]);
      }
    }
  }

  lemma BeginCycleInv(s: State, src: Source)
    requires StillInv(s)
    ensures var t := BeginCycle(s, src); Inv(t) && Advances(s.records, t.records)
  {
    var t := CaptureActive(s.(drainRequested := false), src);
    CaptureActiveInv(s.(drainRequested := false), src);
    RunCycleInv(t, t.queue.order);
  }

  lemma ContinueDrainInv(s: State, rest: seq<KeyId>, src: Source)
    requires StillInv(s)
    ensures var t := ContinueDrain(s, rest, src); Inv(t) && Advances(s.records, t.records)
  {
    RunCycleInv(s, rest);
    BeginCycleInv(RunCycle(s, rest), src);
  }

  lemma FlushInv(s: State, timer: bool, src: Source, drainSource: Source)
    requires Inv(s)
    ensures var t := Flush(s, timer, src, drainSource); Inv(t) && Advances(s.records, t.records)
  {
    var t := PrepareFlush(s, timer, src);
    PrepareFlushInv(s, timer, src);
    if s.drain.Idle? {
      BeginCycleInv(t.(drainRequested := true), drainSource);
      AdvancesTransitive(s.records, t.records, Flush(s, timer, src, drainSource).records);
    } else if s.drain.Awaiting? {
      MovesAttempt(s.records, t.records, s.drain.attempt);
    }
  }

  lemma PrepareFlushInv(s: State, timer: bool, src: Source)
    requires StillInv(s)
    ensures var t := PrepareFlush(s, timer, src);
      Advances(s.records, t.records) && StillInv(t) && t.drain == s.drain
  {
    hide QueueInv, Moves, Kept;
    CaptureActiveInv(s, src);
    if Forces(s, timer, src) {
      var k := src.key.value;
      var t := CaptureActive(s, src);
      var r := EnsureView(t.records, k);
      EnsureViewAdvances(t.records, k);
      ViewUpdate(r, k, ForceRecord(r, k).views[k]);
      AdvancesTransitive(s.records, t.records, r);
      AdvancesTransitive(s.records, r, ForceRecord(r, k));
      QueueAdded(t.records, ForceRecord(r, k), t.queue, k);
    }
  }

  // ---- Answers and snapshots ------------------------------------------

  lemma AnswerViewInv(r: Records, a: Attempt, res: SaveResult)
    requires RecordsInv(r) && AttemptInv(r, a)
    ensures var r' := WithView(r, a.keyId, AnswerView(AnswerForce(r.views[a.keyId], a, res), a, res));
      RecordsInv(r') && Moves(r, r')
  {
    if a.view.Some? {
      AnswerPartInv(r.views[a.keyId].part, a.view.value, res.viewSaved, res.viewRevision);
    }
    ViewUpdate(r, a.keyId, AnswerView(AnswerForce(r.views[a.keyId], a, res), a, res));
  }

  lemma AnswerPreferencesInv(r: Records, a: Attempt, res: SaveResult)
    requires RecordsInv(r) && AttemptInv(r, a)
    ensures var r' := r.(preferences := AnswerPreferences(r.preferences, a, res)); RecordsInv(r') && Moves(r, r')
  {
    if a.preferences.Some? {
      AnswerPartInv(r.preferences.part, a.preferences.value, res.preferencesSaved, res.preferencesRevision);
    }
    PreferencesUpdate(r, AnswerPreferences(r.preferences, a, res));
  }

  lemma AnswerRecordsInv(r: Records, a: Attempt, res: SaveResult)
    requires RecordsInv(r) && AttemptInv(r, a)
    ensures RecordsInv(AnswerRecords(r, a, res)) && Moves(r, AnswerRecords(r, a, res))
  {
    hide RecordsInv, Moves;
    var r' := WithView(r, a.keyId, AnswerView(AnswerForce(r.views[a.keyId], a, res), a, res));
    AnswerViewInv(r, a, res);
    MovesAttempt(r, r', a);
    AnswerPreferencesInv(r', a, res);
    MovesTransitive(r, r', AnswerRecords(r, a, res));
  }

  lemma ApplyResultInv(s: State, a: Attempt, res: SaveResult)
    requires StillInv(s) && AttemptInv(s.records, a)
    ensures var t := ApplyResult(s, a, res); StillInv(t) && Moves(s.records, t.records)
  {
    hide RecordsInv, Moves;
    var r := AnswerRecords(s.records, a, res);
    AnswerRecordsInv(s.records, a, res);
    assert forall x :: x != a.keyId ==> (HasWork(r, x) <==> HasWork(s.records, x));
    assert HasWork(r, a.keyId) ==> HasWork(s.records, a.keyId);
    RemoveIfCleanExact(r, s.queue, Some(a.keyId), None);
  }

  lemma AdoptRecordsInv(r: Records, n: Snapshot)
    requires RecordsInv(r) && n.keyId in r.views
    ensures var r' := AdoptPreferencesRecord(AdoptViewRecord(r, n), n); RecordsInv(r') && Moves(r, r')
  {
    var r' := AdoptViewRecord(r, n);
    AdoptPartInv(r.views[n.keyId].part, n.viewRevision, n.viewFingerprint);
    ViewUpdate(r, n.keyId, r'.views[n.keyId]);
    AdoptPartInv(r.preferences.part, n.preferencesRevision, n.preferencesFingerprint);
    PreferencesUpdate(r', AdoptPreferencesRecord(r', n).preferences);
    MovesTransitive(r, r', AdoptPreferencesRecord(r', n));
  }

  lemma AdoptQueue(r: Records, q: Queue, n: Snapshot)
    requires RecordsInv(r) && QueueInv(r, q) && n.keyId in r.views
    ensures var r' := AdoptPreferencesRecord(AdoptViewRecord(r, n), n);
      QueueInvExcept(r', q, if ReplacesPreferences(r, n) then r.preferences.keyId else None, Some(n.keyId))
  {
    var r' := AdoptPreferencesRecord(AdoptViewRecord(r, n), n);
    AdoptPartInv(r.views[n.keyId].part, n.viewRevision, n.viewFingerprint);
    AdoptPartInv(r.preferences.part, n.preferencesRevision, n.preferencesFingerprint);
    assert forall x :: HasWork(r', x) ==> HasWork(r, x);
  }

  lemma AdoptSnapshotInv(s: State, n: Snapshot)
    requires StillInv(s)
    ensures var t := AdoptSnapshot(s, n); StillInv(t) && Moves(s.records, t.records)
  {
    var r := EnsureView(s.records, n.keyId);
    EnsureViewAdvances(s.records, n.keyId);
    var r' := AdoptPreferencesRecord(AdoptViewRecord(r, n), n);
    AdoptRecordsInv(r, n);
    MovesTransitive(s.records, r, r');
    AdoptQueue(r, s.queue, n);
    var k := if ReplacesPreferences(r, n) then r.preferences.keyId else None;
    RemoveIfCleanExact(r', s.queue, k, Some(n.keyId));
    RemoveIfCleanExact(r', RemoveOptionIfClean(r', s.queue, k), Some(n.keyId), None);
  }

  // ---- Every run ------------------------------------------------------

  lemma MarkInv(s: State, reg: RegId, key: Option<KeyId>)
    requires StillInv(s)
    ensures var t := MarkView(s, reg, key); StillInv(t) && Advances(s.records, t.records) && t.drain == s.drain
    ensures var t := MarkPreferences(s, reg, key); StillInv(t) && Advances(s.records, t.records) && t.drain == s.drain
  {
    hide RecordsInv, QueueInv, Moves, Kept, HasWork;
    AdvancesSelf(s.records);
    if key.Some? {
      var r := EnsureView(s.records, key.value);
      EnsureViewAdvances(s.records, key.value);
      MarkViewAdvances(r, reg, key.value);
      AdvancesTransitive(s.records, r, MarkViewRecord(r, reg, key.value));
      MarkPreferencesAdvances(s.records, reg, key.value);
      QueueSame(s.records, MarkViewRecord(r, reg, key.value), s.queue);
      QueueSame(s.records, MarkPreferencesRecord(s.records, reg, key.value), s.queue);
    }
  }

  lemma AnsweredInv(s: State, result: Option<SaveResult>, src: Source)
    requires Inv(s) && s.drain.Awaiting?
    ensures var t := Step(s, Answered(result, src));
      Inv(t) && Moves(s.records, t.records) && (result.None? ==> Kept(s.records, t.records))
  {
    hide RecordsInv, QueueInv, Moves, Kept;
    AdvancesSelf(s.records);
    var u := if result.Some? then ApplyResult(s, s.drain.attempt, result.value) else s;
    if result.Some? {
      ApplyResultInv(s, s.drain.attempt, result.value);
    }
    ContinueDrainInv(u, s.drain.rest, src);
    MovesTransitive(s.records, u.records, ContinueDrain(u, s.drain.rest, src).records);
  }

  /** Only an accepted answer or an adopted snapshot can take a pending payload away. */
  predicate MayDrop(e: Event) {
    e.Adopted? || (e.Answered? && e.result.Some?)
  }

  lemma StepInv(s: State, e: Event)
    requires Inv(s)
    ensures Inv(Step(s, e)) && Moves(s.records, Step(s, e).records)
    ensures !MayDrop(e) ==> Kept(s.records, Step(s, e).records)
  {
    hide RecordsInv, QueueInv, AttemptInv, Moves, Kept;
    var t := Step(s, e);
    AdvancesSelf(s.records);
    match e {
      case ViewDirty(reg, key) => MarkInv(s, reg, key);
      case PreferencesDirty(reg, key) => MarkInv(s, reg, key);
      case Adopted(n) => AdoptSnapshotInv(s, n);
      case Flushed(timer, source, drainSource) => FlushInv(s, timer, source, drainSource);
      case Answered(result, nextSource) => if s.drain.Awaiting? { AnsweredInv(s, result, nextSource); }
      case _ =>
    }
    if s.drain.Awaiting? && t.drain == s.drain {
      MovesAttempt(s.records, t.records, s.drain.attempt);
    }
  }

  /** Dirtiness, queue and attempt invariants hold after any events, and no counter ever falls. */
  lemma {:induction false} RunInv(s: State, events: seq<Event>)
    requires Inv(s)
    ensures Inv(Run(s, events)) && Moves(s.records, Run(s, events).records)
    decreases |events|
  {
    if events != [] {
      StepInv(s, events[0]);
      RunInv(Step(s, events[0]), events[1..]);
      MovesTransitive(s.records, Step(s, events[0]).records, Run(s, events).records);
    }
  }
}
