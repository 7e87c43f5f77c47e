/**
 The drain loop against the durable store behind it. The store keeps the newest
 revision of each part: it writes a strictly newer one, accepts a repetition of what
 it has, and otherwise reports its own revision. Without concurrent edits one rebase
 per record suffices, so two passes drain everything that can be drained.
 */
module AutosaveDrain {
  import opened Common
  import opened AutosaveModel
  import opened AutosaveProofs

  // ---- The store ------------------------------------------------------

  datatype Durable = Durable(content: Content, revision: nat)

  datatype Store = Store(views: map<KeyId, Durable>, preferences: Option<Durable>)

  datatype PartSave = PartSave(durable: Option<Durable>, saved: bool, revision: nat)

  function SavePart(durable: Option<Durable>, requested: Option<PartAttempt>): PartSave {
    var revision := if durable.Some? then durable.value.revision else 0;
    if requested.None? then PartSave(durable, true, revision)
    else
      var p := requested.value.payload;
      if durable.Some? && p.revision <= revision then
        PartSave(durable, p.revision == revision && p.content == durable.value.content, revision)
      else PartSave(Some(Durable(p.content, p.revision)), true, p.revision)
  }

  function StoredView(store: Store, k: KeyId): Option<Durable> {
    if k in store.views then Some(store.views[k]) else None
  }

  function SaveStore(store: Store, a: Attempt): Store {
    var v := SavePart(StoredView(store, a.keyId), a.view).durable;
    Store(
      if v.Some? then store.views[a.keyId := v.value] else store.views,
      SavePart(store.preferences, a.preferences).durable)
  }

  function SaveAnswer(store: Store, a: Attempt): SaveResult {
    var v := SavePart(StoredView(store, a.keyId), a.view);
    var p := SavePart(store.preferences, a.preferences);
    SaveResult(true, v.saved, v.revision, p.saved, p.revision)
  }

  // ---- Passes over the queue -------------------------------------------

  datatype System = System(state: State, store: Store)

  /** One iteration of the loop over a cycle: save the key, or drop it if there is nothing to save. */
  function ServeKey(y: System, k: KeyId): System {
    var a := CreateAttempt(y.state.records, k);
    if a.None? then
      y.(state := y.state.(queue := RemoveIfClean(y.state.records, y.state.queue, k)))
    else
      System(ApplyResult(y.state, a.value, SaveAnswer(y.store, a.value)), SaveStore(y.store, a.value))
  }

  function Pass(y: System, keys: seq<KeyId>): System
    decreases |keys|
  {
    if keys == [] then y else Pass(ServeKey(y, keys[0]), keys[1..])
  }

  function BeginPass(s: State, src: Source): State {
    CaptureActive(s.(drainRequested := false), src)
  }

  // ---- What is left to do for a part -----------------------------------

  /** A pending payload that an edit not yet captured has made obsolete: its answer is ignored. */
  predicate Overtaken(p: Part) {
    p.payload.Some? && p.needsCapture
  }

  predicate Servable(p: Part) {
    p.payload.Some? && !p.needsCapture
  }

  predicate Ahead(p: Part, d: Option<Durable>) {
    Servable(p) && d.Some? ==> p.payload.value.revision > d.value.revision
  }

  /** Serving a part either makes its content durable or leaves it ahead of the store. */
  lemma ServePart(p: Part, d: Option<Durable>)
    requires PartInv(p)
    ensures CarriedPart(p).Some? ==>
      var a := CarriedPart(p).value;
      var save := SavePart(d, Some(a));
      var q := AnswerPart(p, a, save.saved, save.revision);
      && q.needsCapture == p.needsCapture && q.observed == p.observed && q.registration == p.registration
      && (Overtaken(p) ==> q == p && !Rebases(p, a, save.saved, save.revision))
      && (Servable(p) && q.payload.None? ==> save.durable == Some(Durable(p.payload.value.content, q.ackRevision)))
      && (Servable(p) && q.payload.Some? ==>
            && q.payload.value.content == p.payload.value.content
            && Ahead(q, save.durable) && Rebases(p, a, save.saved, save.revision))
      && (Servable(p) && Ahead(p, d) ==> q.payload.None? && !Rebases(p, a, save.saved, save.revision))
  {
  }

  /** Nothing of `k` can be saved any more. */
  predicate Settled(r: Records, k: KeyId) {
    && (k in r.views ==> !Servable(r.views[k].part) && !r.views[k].forceKlineFlush)
    && (r.preferences.keyId == Some(k) ==> !Servable(r.preferences.part))
  }

  /** Whatever can be saved of `k` is newer than what the store has. */
  predicate Ready(r: Records, store: Store, k: KeyId) {
    && (k in r.views ==> Ahead(r.views[k].part, StoredView(store, k)))
    && (r.preferences.keyId == Some(k) ==> Ahead(r.preferences.part, store.preferences))
  }

  /** One iteration settles its key, or rebases it ahead of the store and asks for another pass. */
  lemma ServeKeyInv(y: System, k: KeyId)
    requires StillInv(y.state)
    ensures var t := ServeKey(y, k); StillInv(t.state)
  {
    CreateAttemptInv(y.state.records, k);
    var a := CreateAttempt(y.state.records, k);
    if a.Some? {
      ApplyResultInv(y.state, a.value, SaveAnswer(y.store, a.value));
    }
  }

  lemma ServeKeyProgress(y: System, k: KeyId)
    requires RecordsInv(y.state.records)
    ensures var t := ServeKey(y, k);
      && (Settled(t.state.records, k) || (t.state.drainRequested && Ready(t.state.records, t.store, k)))
      && (y.state.drainRequested ==> t.state.drainRequested)
      && (Ready(y.state.records, y.store, k) ==>
            Settled(t.state.records, k) && t.state.drainRequested == y.state.drainRequested)
  {
    hide RemoveIfClean;
    var r := y.state.records;
    if k in r.views {
      ServePart(r.views[k].part, StoredView(y.store, k));
      ServePart(r.preferences.part, y.store.preferences);
    }
  }

  /** One iteration does not touch the other keys. */
  lemma ServeKeyFrame(y: System, k: KeyId, x: KeyId)
    requires RecordsInv(y.state.records) && x != k
    ensures var t := ServeKey(y, k);
      && (Settled(t.state.records, x) <==> Settled(y.state.records, x))
      && (Ready(y.state.records, y.store, x) ==> Ready(t.state.records, t.store, x))
      && (x in t.state.records.views <==> x in y.state.records.views)
      && (x in y.state.records.views ==> t.state.records.views[x] == y.state.records.views[x])
      && StoredView(t.store, x) == StoredView(y.store, x)
  {
    hide RemoveIfClean;
  }

  lemma {:induction false} PassInv(y: System, keys: seq<KeyId>)
    requires StillInv(y.state)
    ensures StillInv(Pass(y, keys).state)
    decreases |keys|
  {
    if keys != [] {
      ServeKeyInv(y, keys[0]);
      PassInv(ServeKey(y, keys[0]), keys[1..]);
    }
  }

  /** After a pass every key is settled, or rebased ahead of the store with another pass requested. */
  lemma {:induction false} PassProgress(y: System, keys: seq<KeyId>, x: KeyId)
    requires StillInv(y.state) && Distinct(keys)
    requires x in keys || Settled(y.state.records, x) || (y.state.drainRequested && Ready(y.state.records, y.store, x))
    ensures var t := Pass(y, keys);
      && (Settled(t.state.records, x) || (t.state.drainRequested && Ready(t.state.records, t.store, x)))
      && (y.state.drainRequested ==> t.state.drainRequested)
    decreases |keys|
  {
    if keys != [] {
      var k := keys[0];
      ServeKeyInv(y, k);
      ServeKeyProgress(y, k);
      if x != k {
        ServeKeyFrame(y, k, x);
      }
      PassProgress(ServeKey(y, k), keys[1..], x);
    }
  }

  /** A pass over keys that are all ahead of the store settles them all and asks for nothing more. */
  lemma {:induction false} PassFinishes(y: System, keys: seq<KeyId>)
    requires StillInv(y.state) && Distinct(keys)
    requires forall x :: x in keys ==> Ready(y.state.records, y.store, x)
    ensures var t := Pass(y, keys);
      && t.state.drainRequested == y.state.drainRequested
      && forall x :: x in keys || Settled(y.state.records, x) ==> Settled(t.state.records, x)
    decreases |keys|
  {
    if keys != [] {
      var k := keys[0];
      var t := ServeKey(y, k);
      ServeKeyInv(y, k);
      ServeKeyProgress(y, k);
      forall x | x != k
        ensures Settled(t.state.records, x) <==> Settled(y.state.records, x)
        ensures Ready(y.state.records, y.store, x) ==> Ready(t.state.records, t.store, x)
      {
        ServeKeyFrame(y, k, x);
      }
      assert k !in keys[1..];
      PassFinishes(t, keys[1..]);
    }
  }

  // ---- Contents become durable ------------------------------------------

  /** Content `c` of a part is what it will save, or what the store already holds at the acknowledged revision. */
  predicate Secured(p: Part, d: Option<Durable>, c: Content) {
    && !p.needsCapture
    && if p.payload.Some? then p.payload.value.content == c else d == Some(Durable(c, p.ackRevision))
  }

  predicate SecuredView(y: System, k: KeyId, c: Content) {
    k in y.state.records.views && Secured(y.state.records.views[k].part, StoredView(y.store, k), c)
  }

  predicate SecuredPreferences(y: System, c: Content) {
    Secured(y.state.records.preferences.part, y.store.preferences, c)
  }

  lemma ServeKeySecures(y: System, k: KeyId, x: KeyId, c: Content)
    requires RecordsInv(y.state.records)
    ensures SecuredView(y, x, c) ==> SecuredView(ServeKey(y, k), x, c)
    ensures SecuredPreferences(y, c) ==> SecuredPreferences(ServeKey(y, k), c)
  {
    hide RemoveIfClean;
    var r := y.state.records;
    if x != k {
      ServeKeyFrame(y, k, x);
    }
    if k in r.views {
      ServePart(r.views[k].part, StoredView(y.store, k));
      ServePart(r.preferences.part, y.store.preferences);
    }
  }

  lemma {:induction false} PassSecures(y: System, keys: seq<KeyId>, x: KeyId, c: Content)
    requires StillInv(y.state)
    ensures SecuredView(y, x, c) ==> SecuredView(Pass(y, keys), x, c)
    ensures SecuredPreferences(y, c) ==> SecuredPreferences(Pass(y, keys), c)
    decreases |keys|
  {
    if keys != [] {
      ServeKeyInv(y, keys[0]);
      ServeKeySecures(y, keys[0], x, c);
      PassSecures(ServeKey(y, keys[0]), keys[1..], x, c);
    }
  }

  // ---- No concurrent edits ----------------------------------------------

  /** The source reads the same content whenever it is asked during the drain. */
  predicate Stable(src: Source) {
    src.initial.Some? ==>
      && src.again.Some?
      && src.again.value.viewFingerprint == src.initial.value.viewFingerprint
      && src.again.value.preferencesFingerprint == src.initial.value.preferencesFingerprint
  }

  predicate QuietPart(p: Part, captures: bool, fingerprint: Fingerprint) {
    if p.needsCapture then !captures else p.observed == fingerprint
  }

  /** The source has nothing to add to the records. */
  predicate Quiet(s: State, src: Source) {
    var active := ActiveCapture(s, src.key);
    active.Some? && s.registrations[active.value.0].captureEnabled && src.initial.Some? ==>
      var (reg, k) := active.value;
      && k in s.records.views
      && QuietPart(s.records.views[k].part, CapturesView(s.records, reg, k), src.initial.value.viewFingerprint)
      && QuietPart(s.records.preferences.part, CapturesPreferences(s.records, reg, k),
                   src.initial.value.preferencesFingerprint)
  }

  lemma CaptureLeavesQuiet(s: State, src: Source)
    requires Stable(src)
    ensures Quiet(CaptureActive(s, src), src)
  {
    hide Enqueue, RemoveOptionIfClean;
    var active := ActiveCapture(s, src.key);
    if active.Some? && s.registrations[active.value.0].captureEnabled && src.initial.Some? {
      var (reg, k) := active.value;
      var c := src.initial.value;
      var t := s.(records := Detect(EnsureView(s.records, k), reg, k, c));
      var chosen := ChosenCapture(t.records, reg, k, c, src.again).value;
      var u := StoreView(t, reg, k, chosen);
      assert QuietPart(u.records.views[k].part, CapturesView(u.records, reg, k), c.viewFingerprint);
      var w := StorePreferences(u, reg, k, chosen);
      assert QuietPart(w.records.preferences.part, CapturesPreferences(w.records, reg, k), c.preferencesFingerprint);
    }
  }

  lemma QuietCapture(s: State, src: Source)
    requires Quiet(s, src)
    ensures var t := CaptureActive(s, src);
      t == s.(records := t.records) && (src.key.None? || t.records == EnsureView(s.records, src.key.value) || t == s)
  {
  }

  lemma ServeKeyQuiet(y: System, k: KeyId, src: Source)
    requires RecordsInv(y.state.records) && Quiet(y.state, src)
    ensures Quiet(ServeKey(y, k).state, src)
  {
    hide RemoveIfClean;
    var r := y.state.records;
    if k in r.views {
      ServePart(r.views[k].part, StoredView(y.store, k));
      ServePart(r.preferences.part, y.store.preferences);
    }
  }

  lemma {:induction false} PassQuiet(y: System, keys: seq<KeyId>, src: Source)
    requires StillInv(y.state) && Quiet(y.state, src)
    ensures Quiet(Pass(y, keys).state, src)
    decreases |keys|
  {
    if keys != [] {
      ServeKeyInv(y, keys[0]);
      ServeKeyQuiet(y, keys[0], src);
      PassQuiet(ServeKey(y, keys[0]), keys[1..], src);
    }
  }

  // ---- The drain is bounded ---------------------------------------------

  /** One cycle of the loop: capture, then a pass over a copy of the queue. */
  function Cycle(y: System, src: Source): System {
    var s := BeginPass(y.state, src);
    Pass(System(s, y.store), s.queue.order)
  }

  /** A drain is over: no further cycle is requested and nothing that could be saved is left. */
  ghost predicate Drained(s: State) {
    !s.drainRequested && forall x :: Settled(s.records, x)
  }

  lemma QueueSettled(s: State, x: KeyId)
    requires StillInv(s) && x !in s.queue.order
    ensures Settled(s.records, x)
  {
  }

  /** The first cycle drains, or leaves everything ahead of the store and asks for a second one. */
  lemma FirstCycle(y: System, src: Source)
    requires StillInv(y.state) && Stable(src)
    ensures var t := Cycle(y, src);
      && StillInv(t.state) && Quiet(t.state, src)
      && (!t.state.drainRequested ==> Drained(t.state))
      && forall x :: Settled(t.state.records, x) || Ready(t.state.records, t.store, x)
  {
    CaptureActiveInv(y.state.(drainRequested := false), src);
    CaptureLeavesQuiet(y.state.(drainRequested := false), src);
    var s := BeginPass(y.state, src);
    var t := Cycle(y, src);
    PassInv(System(s, y.store), s.queue.order);
    PassQuiet(System(s, y.store), s.queue.order, src);
    forall x
      ensures Settled(t.state.records, x) || (t.state.drainRequested && Ready(t.state.records, t.store, x))
    {
      if x !in s.queue.order {
        QueueSettled(s, x);
      }
      PassProgress(System(s, y.store), s.queue.order, x);
    }
  }

  lemma SettledIsReady(r: Records, store: Store, x: KeyId)
    requires Settled(r, x)
    ensures Ready(r, store, x)
  {
  }

  /** A second cycle, if there is one, is the last: one rebase per record suffices. */
  lemma DrainIsBounded(y: System, src: Source)
    requires StillInv(y.state) && Stable(src)
    ensures var t := Cycle(y, src);
      Drained(t.state) || (StillInv(Cycle(t, src).state) && Drained(Cycle(t, src).state))
  {
    var t := Cycle(y, src);
    FirstCycle(y, src);
    if t.state.drainRequested {
      SecondCycle(t, src);
    }
  }

  lemma SecondCycle(y: System, src: Source)
    requires StillInv(y.state) && Quiet(y.state, src)
    requires forall x :: Settled(y.state.records, x) || Ready(y.state.records, y.store, x)
    ensures StillInv(Cycle(y, src).state) && Drained(Cycle(y, src).state)
  {
    var s0 := y.state.(drainRequested := false);
    var s := BeginPass(y.state, src);
    CaptureActiveInv(s0, src);
    QuietCapture(s0, src);
    forall x
      ensures Ready(s.records, y.store, x)
    {
      if Settled(y.state.records, x) {
        SettledIsReady(y.state.records, y.store, x);
      }
      assert Ready(y.state.records, y.store, x);
    }
    PassInv(System(s, y.store), s.queue.order);
    PassFinishes(System(s, y.store), s.queue.order);
    forall x
      ensures Settled(Cycle(y, src).state.records, x)
    {
      if x !in s.queue.order {
        QueueSettled(s, x);
      }
    }
  }

  // ---- What a drain leaves queued -------------------------------------------

  /** A pending payload of `k`, view or preferences, has been overtaken. */
  predicate OvertakenAt(r: Records, k: KeyId) {
    || (k in r.views && Overtaken(r.views[k].part))
    || (r.preferences.keyId == Some(k) && Overtaken(r.preferences.part))
  }

  /** What a finished drain leaves queued is exactly what is overtaken then. */
  lemma DrainedQueue(s: State, k: KeyId)
    requires StillInv(s) && Drained(s)
    ensures k in s.queue.order <==> OvertakenAt(s.records, k)
  {
    assert Settled(s.records, k);
  }

  lemma ServeKeyOvertaken(y: System, k: KeyId, x: KeyId)
    requires RecordsInv(y.state.records)
    ensures OvertakenAt(ServeKey(y, k).state.records, x) <==> OvertakenAt(y.state.records, x)
  {
    hide RemoveIfClean;
    var r := y.state.records;
    if k in r.views {
      ServePart(r.views[k].part, StoredView(y.store, k));
      ServePart(r.preferences.part, y.store.preferences);
    }
  }

  lemma {:induction false} PassOvertaken(y: System, keys: seq<KeyId>, x: KeyId)
    requires StillInv(y.state)
    ensures OvertakenAt(Pass(y, keys).state.records, x) <==> OvertakenAt(y.state.records, x)
    decreases |keys|
  {
    if keys != [] {
      ServeKeyInv(y, keys[0]);
      ServeKeyOvertaken(y, keys[0], x);
      PassOvertaken(ServeKey(y, keys[0]), keys[1..], x);
    }
  }

  /** The active source can be read, so what it owes is captured. */
  predicate Captures(s: State, src: Source) {
    var active := ActiveCapture(s, src.key);
    active.Some? && s.registrations[active.value.0].captureEnabled && src.initial.Some?
  }

  /** The pending view of `k` has been overtaken by an edit that the active source will not capture. */
  predicate ViewLeftBehind(s: State, src: Source, k: KeyId) {
    && k in s.records.views && Overtaken(s.records.views[k].part)
    && !(Captures(s, src) && src.key == Some(k) && s.records.views[k].part.registration == s.active)
  }

  predicate PreferencesLeftBehind(s: State, src: Source, k: KeyId) {
    && s.records.preferences.keyId == Some(k) && Overtaken(s.records.preferences.part)
    && !(Captures(s, src) && s.records.preferences.part.registration == s.active
         && s.records.preferences.captureKey == src.key)
  }

  predicate LeftBehind(s: State, src: Source, k: KeyId) {
    ViewLeftBehind(s, src, k) || PreferencesLeftBehind(s, src, k)
  }

  /** What a capture that succeeds makes of the records. */
  function CapturedRecords(s: State, src: Source): Records
    requires Captures(s, src) && Stable(src)
  {
    var (reg, k) := ActiveCapture(s, src.key).value;
    var r := Detect(EnsureView(s.records, k), reg, k, src.initial.value);
    var c := ChosenCapture(r, reg, k, src.initial.value, src.again).value;
    var r' := if CapturesView(r, reg, k) then StoreViewRecord(r, k, c) else r;
    if CapturesPreferences(r, reg, k) then StorePreferencesRecord(r', k, c) else r'
  }

  lemma CaptureRecords(s: State, src: Source)
    requires Stable(src)
    ensures Captures(s, src) ==> CaptureActive(s, src).records == CapturedRecords(s, src)
    ensures !Captures(s, src) ==>
      CaptureActive(s, src).records == s.records
      || (src.key.Some? && CaptureActive(s, src).records == EnsureView(s.records, src.key.value))
  {
    hide Enqueue, RemoveOptionIfClean, Detect, StorePreferencesRecord;
  }

  lemma CaptureViewOvertaken(s: State, src: Source, k: KeyId)
    requires Stable(src)
    ensures var r := CaptureActive(s, src).records;
      k in r.views && Overtaken(r.views[k].part) <==> ViewLeftBehind(s, src, k)
  {
    CaptureRecords(s, src);
    hide CaptureActive;
  }

  lemma CapturePreferencesOvertaken(s: State, src: Source, k: KeyId)
    requires Stable(src)
    ensures var r := CaptureActive(s, src).records;
      r.preferences.keyId == Some(k) && Overtaken(r.preferences.part) <==> PreferencesLeftBehind(s, src, k)
  {
    CaptureRecords(s, src);
    hide CaptureActive;
  }

  lemma CaptureOvertaken(s: State, src: Source, k: KeyId)
    requires Stable(src)
    ensures OvertakenAt(CaptureActive(s, src).records, k) <==> LeftBehind(s, src, k)
  {
    hide CaptureActive, ViewLeftBehind, PreferencesLeftBehind, Overtaken;
    CaptureViewOvertaken(s, src, k);
    CapturePreferencesOvertaken(s, src, k);
  }

  /** The whole drain: a cycle, and another if the first asks for it. */
  function WholeDrain(y: System, src: Source): System {
    var t := Cycle(y, src);
    if t.state.drainRequested then Cycle(t, src) else t
  }

  lemma DrainFinishes(y: System, src: Source)
    requires StillInv(y.state) && Stable(src)
    ensures StillInv(WholeDrain(y, src).state) && Drained(WholeDrain(y, src).state)
  {
    FirstCycle(y, src);
    if Cycle(y, src).state.drainRequested { SecondCycle(Cycle(y, src), src); }
    hide Cycle;
  }

  lemma CycleOvertaken(y: System, src: Source, k: KeyId)
    requires StillInv(y.state)
    ensures OvertakenAt(Cycle(y, src).state.records, k) <==> OvertakenAt(BeginPass(y.state, src).records, k)
  {
    var s := BeginPass(y.state, src);
    CaptureActiveInv(y.state.(drainRequested := false), src);
    PassOvertaken(System(s, y.store), s.queue.order, k);
  }

  lemma QuietOvertaken(s: State, src: Source, k: KeyId)
    requires Quiet(s, src)
    ensures OvertakenAt(BeginPass(s, src).records, k) <==> OvertakenAt(s.records, k)
  {
    QuietCapture(s.(drainRequested := false), src);
  }

  /**
   After a drain exactly the keys are still queued whose pending payload had, before the drain,
   been overtaken by an edit that the active source does not capture.
   */
  lemma DrainLeavesIff(y: System, src: Source, k: KeyId)
    requires StillInv(y.state) && Stable(src)
    ensures k in WholeDrain(y, src).state.queue.order <==> LeftBehind(y.state, src, k)
  {
    var s0 := y.state.(drainRequested := false);
    var t := Cycle(y, src);
    CaptureOvertaken(s0, src, k);
    assert LeftBehind(s0, src, k) <==> LeftBehind(y.state, src, k);
    CycleOvertaken(y, src, k);
    FirstCycle(y, src);
    if t.state.drainRequested {
      CycleOvertaken(t, src, k);
      QuietOvertaken(t.state, src, k);
    }
    DrainFinishes(y, src);
    DrainedQueue(WholeDrain(y, src).state, k);
    hide Cycle, OvertakenAt, LeftBehind, BeginPass;
  }

  // ---- What a drain saves -----------------------------------------------------

  lemma CycleSecures(y: System, src: Source, k: KeyId, c: Content)
    requires StillInv(y.state)
    ensures var s := System(BeginPass(y.state, src), y.store);
      && (SecuredView(s, k, c) ==> SecuredView(Cycle(y, src), k, c))
      && (SecuredPreferences(s, c) ==> SecuredPreferences(Cycle(y, src), c))
  {
    var s := BeginPass(y.state, src);
    CaptureActiveInv(y.state.(drainRequested := false), src);
    hide SecuredView, SecuredPreferences, Pass, CaptureActive;
    PassSecures(System(s, y.store), s.queue.order, k, c);
  }

  lemma QuietSecures(y: System, src: Source, k: KeyId, c: Content)
    requires Quiet(y.state, src)
    ensures var s := System(BeginPass(y.state, src), y.store);
      && (SecuredView(y, k, c) ==> SecuredView(s, k, c))
      && (SecuredPreferences(y, c) ==> SecuredPreferences(s, c))
  {
    QuietCapture(y.state.(drainRequested := false), src);
    hide CaptureActive;
  }

  lemma DrainSecures(y: System, src: Source, k: KeyId, c: Content)
    requires StillInv(y.state) && Stable(src)
    ensures var s := System(BeginPass(y.state, src), y.store);
      && (SecuredView(s, k, c) ==> SecuredView(WholeDrain(y, src), k, c))
      && (SecuredPreferences(s, c) ==> SecuredPreferences(WholeDrain(y, src), c))
  {
    hide SecuredView, SecuredPreferences, BeginPass, Cycle, StillInv;
    var t := Cycle(y, src);
    CycleSecures(y, src, k, c);
    FirstCycle(y, src);
    if t.state.drainRequested {
      QuietSecures(t, src, k, c);
      CycleSecures(t, src, k, c);
    }
  }

  /** What is captured before the drain is durable after it, with its content, at the revision the client holds. */
  lemma DrainSaves(y: System, src: Source, k: KeyId, c: Content)
    requires StillInv(y.state) && Stable(src)
    ensures var r, z := BeginPass(y.state, src).records, WholeDrain(y, src);
      && (k in r.views && Servable(r.views[k].part) && r.views[k].part.payload.value.content == c ==>
            && k in z.state.records.views && z.state.records.views[k].part.payload.None?
            && StoredView(z.store, k) == Some(Durable(c, z.state.records.views[k].part.ackRevision)))
      && (Servable(r.preferences.part) && r.preferences.part.payload.value.content == c ==>
            && z.state.records.preferences.part.payload.None?
            && z.store.preferences == Some(Durable(c, z.state.records.preferences.part.ackRevision)))
  {
    var z := WholeDrain(y, src);
    DrainSecures(y, src, k, c);
    DrainFinishes(y, src);
    hide WholeDrain;
    assert Settled(z.state.records, k);
    var p := z.state.records.preferences;
    if p.keyId.Some? { assert Settled(z.state.records, p.keyId.value); }
  }
}
