/**
 The service and its store under every interleaving: saves may be served long before they are
 answered, answers may be lost, snapshots may be read and adopted late, and others may write too.
 Whatever happens, a part that the service holds to be clean is durable.
 */
module AutosaveDurability {
  import opened Common
  import opened AutosaveModel
  import AutosaveProofs
  import opened AutosaveDrain

  /** The service, the store, and the answer the store has given but not yet delivered. */
  datatype World = World(state: State, store: Store, answer: Option<SaveResult>)

  datatype Happening =
    | Client(event: Event)                   // anything but an answer
    | Serve                                  // the store serves the outstanding save
    | Deliver(next: Source)                  // its answer arrives
    | Lose(next: Source)                     // the save fails for the service, served or not
    | WriteView(key: KeyId, view: Durable)   // someone else writes something newer
    | WritePreferences(preferences: Durable)

  const START := World(INITIAL, Store(map[], None), None)

  function RevisionOf(d: Option<Durable>): nat {
    if d.Some? then d.value.revision else 0
  }

  function Next(w: World, h: Happening): World {
    match h
    case Client(event) => if event.Answered? then w else w.(state := Step(w.state, event))
    case Serve =>
      if !w.state.drain.Awaiting? || w.answer.Some? then w
      else
        w.(store := SaveStore(w.store, w.state.drain.attempt),
           answer := Some(SaveAnswer(w.store, w.state.drain.attempt)))
    case Deliver(next) =>
      if w.answer.None? then w else w.(state := Step(w.state, Answered(w.answer, next)), answer := None)
    case Lose(next) => w.(state := Step(w.state, Answered(None, next)), answer := None)
    case WriteView(k, d) =>
      if d.revision <= RevisionOf(StoredView(w.store, k)) then w
      else w.(store := w.store.(views := w.store.views[k := d]))
    case WritePreferences(d) =>
      if d.revision <= RevisionOf(w.store.preferences) then w
      else w.(store := w.store.(preferences := Some(d)))
  }

  function Play(w: World, hs: seq<Happening>): World
    decreases |hs|
  {
    if hs == [] then w else Play(Next(w, hs[0]), hs[1..])
  }

  // ---- Honesty ---------------------------------------------------------------

  /** A capture comes with the fingerprint of its content. */
  predicate HonestCapture(c: Option<Captured>) {
    c.Some? ==> c.value.viewFingerprint == Of(c.value.viewContent)
                && c.value.preferencesFingerprint == Of(c.value.preferencesContent)
  }

  predicate HonestSource(src: Source) {
    HonestCapture(src.initial) && HonestCapture(src.again)
  }

  /** A snapshot was read from the store, now or earlier. */
  predicate Shows(d: Option<Durable>, revision: nat, fingerprint: Fingerprint) {
    revision <= RevisionOf(d) && (d.Some? && d.value.revision == revision ==> fingerprint == Of(d.value.content))
  }

  predicate Honest(w: World, h: Happening) {
    match h
    case Client(Adopted(n)) =>
      && Shows(StoredView(w.store, n.keyId), n.viewRevision, n.viewFingerprint)
      && Shows(w.store.preferences, n.preferencesRevision, n.preferencesFingerprint)
    case Client(Flushed(_, source, drainSource)) => HonestSource(source) && HonestSource(drainSource)
    case Deliver(next) => HonestSource(next)
    case Lose(next) => HonestSource(next)
    case _ => true
  }

  predicate HonestPlay(w: World, hs: seq<Happening>)
    decreases |hs|
  {
    hs == [] || (Honest(w, hs[0]) && HonestPlay(Next(w, hs[0]), hs[1..]))
  }

  // ---- One part -----------------------------------------------------------------

  /** The observed fingerprint is that of the pending payload; the acknowledged one is backed by the store. */
  ghost predicate Backed(p: Part, d: Option<Durable>) {
    && (p.payload.Some? ==> p.observed == Of(p.payload.value.content))
    && Shows(d, p.ackRevision, p.ackFingerprint)
  }

  /** The answer for a part was true of the store when given, and the store has not gone back since. */
  ghost predicate Told(a: PartAttempt, saved: bool, revision: nat, d: Option<Durable>) {
    && a.fingerprint == Of(a.payload.content)
    && revision <= RevisionOf(d)
    && (Acknowledges(a, saved, revision) && d.Some? && d.value.revision == revision ==>
          d.value.content == a.payload.content)
  }

  /** The store moves on: to a newer revision, or not at all. */
  predicate Onward(d: Option<Durable>, d': Option<Durable>) {
    d' == d || RevisionOf(d') > RevisionOf(d)
  }

  lemma SaveMovesOn(d: Option<Durable>, a: Option<PartAttempt>)
    requires d.Some? ==> d.value.revision > 0
    requires a.Some? ==> a.value.payload.revision > 0 && a.value.fingerprint == Of(a.value.payload.content)
    ensures var save := SavePart(d, a);
      && Onward(d, save.durable) && (save.durable.Some? ==> save.durable.value.revision > 0)
      && (a.Some? ==> Told(a.value, save.saved, save.revision, save.durable))
  {
  }

  lemma BackedOnward(p: Part, d: Option<Durable>, d': Option<Durable>)
    requires Backed(p, d) && Onward(d, d')
    ensures Backed(p, d')
  {
  }

  lemma ToldOnward(a: PartAttempt, saved: bool, revision: nat, d: Option<Durable>, d': Option<Durable>)
    requires Told(a, saved, revision, d) && Onward(d, d')
    ensures Told(a, saved, revision, d')
  {
  }

  lemma AnswerBacked(p: Part, a: PartAttempt, saved: bool, revision: nat, d: Option<Durable>)
    requires Backed(p, d) && Told(a, saved, revision, d)
    ensures Backed(AnswerPart(p, a, saved, revision), d)
  {
  }

  // ---- Records --------------------------------------------------------------------

  ghost predicate StoreInv(store: Store) {
    && (forall k :: k in store.views ==> store.views[k].revision > 0)
    && (store.preferences.Some? ==> store.preferences.value.revision > 0)
  }

  ghost predicate RecordsBacked(r: Records, store: Store) {
    && (forall k :: k in r.views ==> Backed(r.views[k].part, StoredView(store, k)))
    && Backed(r.preferences.part, store.preferences)
  }

  /** What a save carries has its own fingerprint and a revision above zero. */
  ghost predicate Carried(a: Option<PartAttempt>) {
    a.Some? ==> a.value.fingerprint == Of(a.value.payload.content) && a.value.payload.revision > 0
  }

  ghost predicate AttemptCarried(a: Attempt) {
    Carried(a.view) && Carried(a.preferences)
  }

  /** Payload revisions are above zero. */
  ghost predicate Numbered(p: Part) {
    (p.payload.Some? ==> p.payload.value.revision > 0) && (p.needsCapture ==> p.revision > 0)
  }

  ghost predicate RecordsNumbered(r: Records) {
    (forall k :: k in r.views ==> Numbered(r.views[k].part)) && Numbered(r.preferences.part)
  }

  ghost predicate Sound(r: Records, store: Store) {
    RecordsBacked(r, store) && RecordsNumbered(r)
  }

  lemma EnsureSound(r: Records, store: Store, k: KeyId)
    requires Sound(r, store) && StoreInv(store)
    ensures Sound(EnsureView(r, k), store)
  {
  }

  lemma ViewSound(r: Records, store: Store, k: KeyId, v: ViewRecord)
    requires Sound(r, store) && Backed(v.part, StoredView(store, k)) && Numbered(v.part)
    ensures Sound(WithView(r, k, v), store)
  {
  }

  lemma MarkSound(r: Records, store: Store, reg: RegId, k: KeyId)
    requires Sound(r, store)
    ensures Sound(MarkPreferencesRecord(r, reg, k), store)
    ensures k in r.views ==> Sound(MarkViewRecord(r, reg, k), store)
  {
    if k in r.views { ViewSound(r, store, k, r.views[k].(part := MarkPart(r.views[k].part, reg))); }
  }

  lemma DetectSound(r: Records, store: Store, reg: RegId, k: KeyId, c: Captured)
    requires Sound(r, store) && k in r.views
    ensures k in Detect(r, reg, k, c).views && Sound(Detect(r, reg, k, c), store)
  {
    hide Sound;
    MarkSound(r, store, reg, k);
    MarkSound(DetectView(r, reg, k, c), store, reg, k);
  }

  lemma StoreSound(s: State, store: Store, reg: RegId, k: KeyId, c: Captured)
    requires Sound(s.records, store) && k in s.records.views && HonestCapture(Some(c))
    ensures var t := StoreView(s, reg, k, c);
      k in t.records.views && Sound(t.records, store) && Sound(StorePreferences(s, reg, k, c).records, store)
  {
    hide Enqueue, RemoveOptionIfClean;
    var r := s.records;
    if CapturesView(r, reg, k) {
      ViewSound(r, store, k, StoreViewRecord(r, k, c).views[k]);
    }
  }

  lemma CaptureSound(s: State, store: Store, src: Source)
    requires Sound(s.records, store) && StoreInv(store) && HonestSource(src)
    ensures Sound(CaptureActive(s, src).records, store)
  {
    hide Sound, StoreInv, StoreView, StorePreferences;
    var active := ActiveCapture(s, src.key);
    if active.Some? && s.registrations[active.value.0].captureEnabled {
      var (reg, k) := active.value;
      var r := EnsureView(s.records, k);
      EnsureSound(s.records, store, k);
      if src.initial.Some? {
        var r' := Detect(r, reg, k, src.initial.value);
        DetectSound(r, store, reg, k, src.initial.value);
        var t := s.(records := r');
        var chosen := ChosenCapture(r', reg, k, src.initial.value, src.again);
        if chosen.Some? {
          StoreSound(t, store, reg, k, chosen.value);
          StoreSound(StoreView(t, reg, k, chosen.value), store, reg, k, chosen.value);
        }
      }
    }
  }

  lemma AdoptSound(r: Records, store: Store, n: Snapshot)
    requires Sound(r, store) && n.keyId in r.views
    requires Shows(StoredView(store, n.keyId), n.viewRevision, n.viewFingerprint)
    requires Shows(store.preferences, n.preferencesRevision, n.preferencesFingerprint)
    ensures Sound(AdoptPreferencesRecord(AdoptViewRecord(r, n), n), store)
  {
    var v := r.views[n.keyId];
    ViewSound(r, store, n.keyId, v.(part := AdoptPart(v.part, n.viewRevision, n.viewFingerprint)));
  }

  ghost predicate ToldAll(a: Attempt, res: SaveResult, store: Store) {
    && (a.view.Some? ==> Told(a.view.value, res.viewSaved, res.viewRevision, StoredView(store, a.keyId)))
    && (a.preferences.Some? ==>
          Told(a.preferences.value, res.preferencesSaved, res.preferencesRevision, store.preferences))
  }

  lemma AnswerSound(r: Records, store: Store, a: Attempt, res: SaveResult)
    requires Sound(r, store) && a.keyId in r.views && ToldAll(a, res, store)
    ensures Sound(AnswerRecords(r, a, res), store)
  {
    var v := r.views[a.keyId];
    if a.view.Some? {
      AnswerBacked(v.part, a.view.value, res.viewSaved, res.viewRevision, StoredView(store, a.keyId));
    }
    if a.preferences.Some? {
      AnswerBacked(r.preferences.part, a.preferences.value, res.preferencesSaved, res.preferencesRevision,
                   store.preferences);
    }
    ViewSound(r, store, a.keyId, AnswerView(AnswerForce(v, a, res), a, res));
  }

  // ---- Steps -------------------------------------------------------------------------

  ghost predicate StateSound(s: State, store: Store) {
    Sound(s.records, store) && (s.drain.Awaiting? ==> AttemptCarried(s.drain.attempt))
  }

  lemma {:induction false} RunCycleSound(s: State, store: Store, keys: seq<KeyId>)
    requires Sound(s.records, store)
    ensures StateSound(RunCycle(s, keys), store)
    decreases |keys|
  {
    if keys != [] {
      var a := CreateAttempt(s.records, keys[0]);
      if a.None? { RunCycleSound(s.(queue := RemoveIfClean(s.records, s.queue, keys[0])), store, keys[1..]); }
    }
  }

  lemma BeginCycleSound(s: State, store: Store, src: Source)
    requires Sound(s.records, store) && StoreInv(store) && HonestSource(src)
    ensures StateSound(BeginCycle(s, src), store)
  {
    var t := CaptureActive(s.(drainRequested := false), src);
    CaptureSound(s.(drainRequested := false), store, src);
    hide CaptureActive, RunCycle, Sound;
    RunCycleSound(t, store, t.queue.order);
  }

  lemma ContinueSound(s: State, store: Store, keys: seq<KeyId>, src: Source)
    requires Sound(s.records, store) && StoreInv(store) && HonestSource(src)
    ensures StateSound(ContinueDrain(s, keys, src), store)
  {
    RunCycleSound(s, store, keys);
    hide RunCycle, BeginCycle, Sound, AttemptCarried;
    BeginCycleSound(RunCycle(s, keys), store, src);
  }

  lemma AnsweredSound(s: State, store: Store, result: Option<SaveResult>, src: Source)
    requires StateSound(s, store) && StoreInv(store) && HonestSource(src)
    requires s.drain.Awaiting? && result.Some? ==> ToldAll(s.drain.attempt, result.value, store)
    ensures StateSound(Step(s, Answered(result, src)), store)
  {
    if s.drain.Awaiting? {
      var a := s.drain.attempt;
      hide Sound, AttemptCarried, ContinueDrain, AnswerRecords, ToldAll, StoreInv, HonestSource;
      if result.Some? {
        if a.keyId in s.records.views { AnswerSound(s.records, store, a, result.value); }
        ContinueSound(ApplyResult(s, a, result.value), store, s.drain.rest, src);
      } else {
        ContinueSound(s, store, s.drain.rest, src);
      }
    }
  }

  lemma FlushSound(s: State, store: Store, timer: bool, source: Source, src: Source)
    requires StateSound(s, store) && StoreInv(store) && HonestSource(source) && HonestSource(src)
    ensures StateSound(Flush(s, timer, source, src), store)
    ensures s.drain.Awaiting? ==> Flush(s, timer, source, src).drain == s.drain
  {
    var t := CaptureActive(s, source);
    CaptureSound(s, store, source);
    CaptureKeepsDrain(s, source);
    hide CaptureActive, BeginCycle, AttemptCarried, StoreInv, HonestSource, Enqueue;
    var p := PrepareFlush(s, timer, source);
    if Forces(s, timer, source) {
      var k := source.key.value;
      EnsureSound(t.records, store, k);
      var r := EnsureView(t.records, k);
      ViewSound(r, store, k, ForceRecord(r, k).views[k]);
    }
    assert Sound(p.records, store);
    hide Sound;
    BeginCycleSound(p.(drainRequested := true), store, src);
  }

  lemma CaptureKeepsDrain(s: State, src: Source)
    ensures CaptureActive(s, src).drain == s.drain
  {
    hide Enqueue, RemoveOptionIfClean, Detect, StoreViewRecord, StorePreferencesRecord;
  }

  lemma ClientSound(w: World, e: Event)
    requires StateSound(w.state, w.store) && StoreInv(w.store) && Honest(w, Client(e)) && !e.Answered?
    ensures StateSound(Step(w.state, e), w.store)
    ensures w.state.drain.Awaiting? ==> Step(w.state, e).drain == w.state.drain
  {
    var s, store := w.state, w.store;
    hide Sound, AttemptCarried, StoreInv;
    match e {
      case ViewDirty(reg, key) =>
        if key.Some? {
          EnsureSound(s.records, store, key.value);
          MarkSound(EnsureView(s.records, key.value), store, reg, key.value);
        }
      case PreferencesDirty(reg, key) => if key.Some? { MarkSound(s.records, store, reg, key.value); }
      case Adopted(n) =>
        EnsureSound(s.records, store, n.keyId);
        AdoptSound(EnsureView(s.records, n.keyId), store, n);
      case Flushed(timer, source, drainSource) => FlushSound(s, store, timer, source, drainSource);
      case _ =>
    }
  }

  // ---- Every interleaving ---------------------------------------------------------------

  ghost predicate WorldInv(w: World) {
    && StoreInv(w.store) && StateSound(w.state, w.store)
    && (w.answer.Some? ==> w.state.drain.Awaiting? && ToldAll(w.state.drain.attempt, w.answer.value, w.store))
  }

  /** The store moves on, part by part; what was sound and told stays so. */
  lemma StoreOnward(w: World, store: Store)
    requires WorldInv(w) && StoreInv(store)
    requires forall k :: Onward(StoredView(w.store, k), StoredView(store, k))
    requires Onward(w.store.preferences, store.preferences)
    ensures WorldInv(w.(store := store))
  {
    var r := w.state.records;
    forall k | k in r.views
      ensures Backed(r.views[k].part, StoredView(store, k))
    {
      BackedOnward(r.views[k].part, StoredView(w.store, k), StoredView(store, k));
    }
    BackedOnward(r.preferences.part, w.store.preferences, store.preferences);
    if w.answer.Some? {
      var a, res := w.state.drain.attempt, w.answer.value;
      if a.view.Some? {
        ToldOnward(a.view.value, res.viewSaved, res.viewRevision, StoredView(w.store, a.keyId), StoredView(store, a.keyId));
      }
      if a.preferences.Some? {
        ToldOnward(a.preferences.value, res.preferencesSaved, res.preferencesRevision,
                   w.store.preferences, store.preferences);
      }
    }
    hide Backed, Told, Onward, StoredView;
  }

  lemma ServeInv(w: World)
    requires WorldInv(w)
    ensures WorldInv(Next(w, Serve))
  {
    if w.state.drain.Awaiting? && w.answer.None? {
      var a := w.state.drain.attempt;
      var store := SaveStore(w.store, a);
      SaveMovesOn(StoredView(w.store, a.keyId), a.view);
      SaveMovesOn(w.store.preferences, a.preferences);
      hide SavePart, Told, Backed;
      assert StoreInv(store);
      StoreOnward(w, store);
    }
  }

  lemma NextInv(w: World, h: Happening)
    requires WorldInv(w) && Honest(w, h)
    ensures WorldInv(Next(w, h))
  {
    match h {
      case Client(e) =>
        if !e.Answered? {
          ClientSound(w, e);
          hide Step, StoreInv, Sound, AttemptCarried, ToldAll;
        }
      case Serve => ServeInv(w);
      case Deliver(next) =>
        if w.answer.Some? {
          AnsweredSound(w.state, w.store, w.answer, next);
          hide Step, StoreInv, Sound, AttemptCarried, ToldAll;
        }
      case Lose(next) =>
        AnsweredSound(w.state, w.store, None, next);
        hide Step, StoreInv, Sound, AttemptCarried, ToldAll;
      case WriteView(k, d) =>
        if d.revision > RevisionOf(StoredView(w.store, k)) {
          StoreOnward(w, w.store.(views := w.store.views[k := d]));
        }
      case WritePreferences(d) =>
        if d.revision > RevisionOf(w.store.preferences) {
          StoreOnward(w, w.store.(preferences := Some(d)));
        }
    }
  }

  lemma {:induction false} PlayInv(w: World, hs: seq<Happening>)
    requires WorldInv(w) && HonestPlay(w, hs)
    ensures WorldInv(Play(w, hs))
    decreases |hs|
  {
    if hs != [] {
      hide WorldInv, Next, Honest;
      NextInv(w, hs[0]);
      PlayInv(Next(w, hs[0]), hs[1..]);
    }
  }

  /** The store has this revision of the content, or something newer. */
  predicate Holds(d: Option<Durable>, revision: nat, fingerprint: Fingerprint) {
    d.Some? && (d.value.revision > revision || (d.value.revision == revision && Of(d.value.content) == fingerprint))
  }

  /**
   In every interleaving, what the service has acknowledged the store holds, at that revision
   and with that content, or something newer.
   */
  lemma AcknowledgedIsDurable(hs: seq<Happening>, k: KeyId)
    requires HonestPlay(START, hs)
    ensures var w := Play(START, hs);
      && (k in w.state.records.views && w.state.records.views[k].part.ackRevision > 0 ==>
            var p := w.state.records.views[k].part;
            Holds(StoredView(w.store, k), p.ackRevision, p.ackFingerprint))
      && (w.state.records.preferences.part.ackRevision > 0 ==>
            var p := w.state.records.preferences.part;
            Holds(w.store.preferences, p.ackRevision, p.ackFingerprint))
  {
    assert WorldInv(START);
    PlayInv(START, hs);
  }

  /** The service inside is the state machine, so its own invariant holds throughout. */
  lemma {:induction false} PlayKeepsService(w: World, hs: seq<Happening>)
    requires AutosaveProofs.Inv(w.state)
    ensures AutosaveProofs.Inv(Play(w, hs).state)
    decreases |hs|
  {
    if hs != [] {
      hide Step, AutosaveProofs.Inv;
      match hs[0] {
        case Client(e) => AutosaveProofs.StepInv(w.state, e);
        case Deliver(next) => AutosaveProofs.StepInv(w.state, Answered(w.answer, next));
        case Lose(next) => AutosaveProofs.StepInv(w.state, Answered(None, next));
        case _ =>
      }
      PlayKeepsService(Next(w, hs[0]), hs[1..]);
    }
  }

  /** A part the service holds to be clean is durable as it was last observed, or something newer is. */
  lemma CleanIsDurable(hs: seq<Happening>, k: KeyId)
    requires HonestPlay(START, hs)
    ensures var w := Play(START, hs);
      && (k in w.state.records.views ==>
            var p := w.state.records.views[k].part;
            !AutosaveProofs.Dirty(p) && p.revision > 0 ==> Holds(StoredView(w.store, k), p.revision, p.observed))
      && (var p := w.state.records.preferences.part;
          !AutosaveProofs.Dirty(p) && p.revision > 0 ==> Holds(w.store.preferences, p.revision, p.observed))
  {
    AcknowledgedIsDurable(hs, k);
    assert AutosaveProofs.Inv(START.state);
    PlayKeepsService(START, hs);
    hide Play, HonestPlay;
  }
}
