/**
 The autosave protocol as a state machine. Every `await` of the service is a
 boundary: an event runs from one await point to the next, so a run is any
 interleaving of user marks, captures, adopted snapshots, flushes and answers.

 A content fingerprint is the canonical text of a content, hence injective: it is
 modelled as that content under a constructor, with a separate value for the empty
 fingerprint of a record that was never observed.
 */
module AutosaveModel {
  import opened Common

  type KeyId(==, !new)
  type RegId = nat
  type Content(==, !new)

  datatype Fingerprint = Unobserved | Of(content: Content)

  datatype Payload = Payload(content: Content, revision: nat)

  /** The fields that a view record and the preferences record have in common. */
  datatype Part = Part(
    payload: Option<Payload>,
    revision: nat,
    ackRevision: nat,
    observed: Fingerprint,
    ackFingerprint: Fingerprint,
    needsCapture: bool,
    registration: Option<RegId>)

  const EMPTY_PART := Part(None, 0, 0, Unobserved, Unobserved, false, None)

  datatype ViewRecord = ViewRecord(part: Part, forceKlineFlush: bool, forceGeneration: nat)

  const EMPTY_VIEW := ViewRecord(EMPTY_PART, false, 0)

  datatype Preferences = Preferences(part: Part, captureKey: Option<KeyId>, keyId: Option<KeyId>)

  datatype Registration = Registration(captureEnabled: bool, removed: bool)

  /** What one save request carries of a part: the payload and its fingerprint. */
  datatype PartAttempt = PartAttempt(payload: Payload, fingerprint: Fingerprint)

  datatype Attempt = Attempt(
    keyId: KeyId,
    view: Option<PartAttempt>,
    preferences: Option<PartAttempt>,
    forceGeneration: Option<nat>)

  datatype SaveResult = SaveResult(
    klineSaved: bool,
    viewSaved: bool, viewRevision: nat,
    preferencesSaved: bool, preferencesRevision: nat)

  /** The drain loop: not running, suspended in `await save`, or returned but its promise not yet cleared. */
  datatype Drain = Idle | Awaiting(attempt: Attempt, rest: seq<KeyId>) | Settling

  /** Everything the service remembers about contents; the view records and the one preferences record. */
  datatype Records = Records(views: map<KeyId, ViewRecord>, preferences: Preferences)

  /** The work queue and the set of ids in it. */
  datatype Queue = Queue(order: seq<KeyId>, ids: set<KeyId>)

  datatype State = State(
    records: Records,
    queue: Queue,
    registrations: map<RegId, Registration>,
    active: Option<RegId>,
    drainRequested: bool,
    drain: Drain)

  const INITIAL := State(
    Records(map[], Preferences(EMPTY_PART, None, None)), Queue([], {}), map[], None, false, Idle)

  /** What one call of the capture callback returns. */
  datatype Captured = Captured(
    viewRevision: nat, viewContent: Content, viewFingerprint: Fingerprint,
    preferencesRevision: nat, preferencesContent: Content, preferencesFingerprint: Fingerprint)

  /** The answers of the capture source during one captureActive: its key, a first capture, a second one. */
  datatype Source = Source(key: Option<KeyId>, initial: Option<Captured>, again: Option<Captured>)

  datatype Snapshot = Snapshot(
    keyId: KeyId,
    viewRevision: nat, viewFingerprint: Fingerprint,
    preferencesRevision: nat, preferencesFingerprint: Fingerprint)

  // ---- One part -------------------------------------------------------

  function MarkPart(p: Part, reg: RegId): Part {
    p.(revision := Max(p.revision, p.ackRevision) + 1, needsCapture := true, registration := Some(reg))
  }

  function AdoptPart(p: Part, revision: nat, fingerprint: Fingerprint): Part {
    if revision >= p.revision then
      Part(None, revision, revision, fingerprint, fingerprint, false, None)
    else if revision >= p.ackRevision then
      p.(ackRevision := revision, ackFingerprint := fingerprint)
    else p
  }

  function CapturePart(p: Part, content: Content, fingerprint: Fingerprint): Part {
    p.(payload := Some(Payload(content, p.revision)), observed := fingerprint,
       needsCapture := false, registration := None)
  }

  predicate StillCurrent(p: Part, a: PartAttempt) {
    && p.payload.Some?
    && !p.needsCapture
    && p.revision == a.payload.revision
    && p.payload.value.revision == a.payload.revision
    && p.observed == a.fingerprint
  }

  predicate Acknowledges(a: PartAttempt, saved: bool, durable: nat) {
    saved && durable >= a.payload.revision
  }

  predicate Rebases(p: Part, a: PartAttempt, saved: bool, durable: nat) {
    !Acknowledges(a, saved, durable) && StillCurrent(p, a) && durable >= a.payload.revision
  }

  function AnswerPart(p: Part, a: PartAttempt, saved: bool, durable: nat): Part {
    if Acknowledges(a, saved, durable) then
      if StillCurrent(p, a) then
        p.(payload := None, revision := durable, ackRevision := durable, ackFingerprint := a.fingerprint)
      else p
    else if Rebases(p, a, saved, durable) then
      p.(revision := durable + 1, payload := Some(p.payload.value.(revision := durable + 1)))
    else p
  }

  // ---- Records and the queue -----------------------------------------

  function EnsureView(r: Records, k: KeyId): Records {
    if k in r.views then r else r.(views := r.views[k := EMPTY_VIEW])
  }

  function WithView(r: Records, k: KeyId, v: ViewRecord): Records {
    r.(views := r.views[k := v])
  }

  predicate HasViewWork(r: Records, k: KeyId) {
    k in r.views && (r.views[k].part.payload.Some? || r.views[k].forceKlineFlush)
  }

  predicate HasPreferencesWork(r: Records, k: KeyId) {
    r.preferences.part.payload.Some? && r.preferences.keyId == Some(k)
  }

  predicate HasWork(r: Records, k: KeyId) {
    HasViewWork(r, k) || HasPreferencesWork(r, k)
  }

  function Enqueue(q: Queue, k: KeyId): Queue {
    if k in q.ids then q else Queue(q.order + [k], q.ids + {k})
  }

  function RemoveIfClean(r: Records, q: Queue, k: KeyId): Queue {
    if HasWork(r, k) || k !in q.ids then q else Queue(RemoveFirst(q.order, k), q.ids - {k})
  }

  function RemoveOptionIfClean(r: Records, q: Queue, k: Option<KeyId>): Queue {
    if k.Some? then RemoveIfClean(r, q, k.value) else q
  }

  // ---- Marks and adoption ---------------------------------------------

  /** The active registration and its key, when there is one and it has not been removed. */
  function ActiveCapture(s: State, key: Option<KeyId>): Option<(RegId, KeyId)> {
    if s.active.Some? && key.Some? && s.active.value in s.registrations
       && !s.registrations[s.active.value].removed
    then Some((s.active.value, key.value)) else None
  }

  predicate IsCurrent(s: State, reg: RegId) {
    && reg in s.registrations
    && !s.registrations[reg].removed
    && s.registrations[reg].captureEnabled
    && s.active == Some(reg)
  }

  function RequestFollowup(s: State): State {
    if s.drain.Idle? then s else s.(drainRequested := true)
  }

  function MarkViewRecord(r: Records, reg: RegId, k: KeyId): Records
    requires k in r.views
  {
    WithView(r, k, r.views[k].(part := MarkPart(r.views[k].part, reg)))
  }

  function MarkPreferencesRecord(r: Records, reg: RegId, k: KeyId): Records {
    r.(preferences := r.preferences.(part := MarkPart(r.preferences.part, reg), captureKey := Some(k)))
  }

  function MarkView(s: State, reg: RegId, key: Option<KeyId>): State {
    if IsCurrent(s, reg) && key.Some? then
      RequestFollowup(s.(records := MarkViewRecord(EnsureView(s.records, key.value), reg, key.value)))
    else s
  }

  function MarkPreferences(s: State, reg: RegId, key: Option<KeyId>): State {
    if IsCurrent(s, reg) && key.Some? then
      RequestFollowup(s.(records := MarkPreferencesRecord(s.records, reg, key.value)))
    else s
  }

  function AdoptViewRecord(r: Records, n: Snapshot): Records
    requires n.keyId in r.views
  {
    var v := r.views[n.keyId];
    WithView(r, n.keyId, v.(part := AdoptPart(v.part, n.viewRevision, n.viewFingerprint)))
  }

  predicate ReplacesPreferences(r: Records, n: Snapshot) {
    n.preferencesRevision >= r.preferences.part.revision
  }

  function AdoptPreferencesRecord(r: Records, n: Snapshot): Records {
    var part := AdoptPart(r.preferences.part, n.preferencesRevision, n.preferencesFingerprint);
    r.(preferences :=
      if ReplacesPreferences(r, n) then Preferences(part, None, None) else r.preferences.(part := part))
  }

  function AdoptSnapshot(s: State, n: Snapshot): State {
    var r := AdoptViewRecord(EnsureView(s.records, n.keyId), n);
    var r' := AdoptPreferencesRecord(r, n);
    var q := if ReplacesPreferences(r, n) then RemoveOptionIfClean(r', s.queue, r.preferences.keyId) else s.queue;
    s.(records := r', queue := RemoveIfClean(r', q, n.keyId))
  }

  // ---- Capture --------------------------------------------------------

  /** A fingerprint that differs from the observed one marks the view even if no callback did. */
  function DetectView(r: Records, reg: RegId, k: KeyId, c: Captured): Records
    requires k in r.views
  {
    if !r.views[k].part.needsCapture && c.viewFingerprint != r.views[k].part.observed
    then MarkViewRecord(r, reg, k) else r
  }

  function DetectPreferences(r: Records, reg: RegId, k: KeyId, c: Captured): Records {
    if !r.preferences.part.needsCapture && c.preferencesFingerprint != r.preferences.part.observed
    then MarkPreferencesRecord(r, reg, k) else r
  }

  function Detect(r: Records, reg: RegId, k: KeyId, c: Captured): Records
    requires k in r.views
  {
    DetectPreferences(DetectView(r, reg, k, c), reg, k, c)
  }

  predicate CapturesView(r: Records, reg: RegId, k: KeyId)
    requires k in r.views
  {
    r.views[k].part.needsCapture && r.views[k].part.registration == Some(reg)
  }

  predicate CapturesPreferences(r: Records, reg: RegId, k: KeyId) {
    && r.preferences.part.needsCapture
    && r.preferences.part.registration == Some(reg)
    && r.preferences.captureKey == Some(k)
  }

  /** The capture to store: the first one, a fresh one if its revisions are behind, or none if that failed. */
  function ChosenCapture(r: Records, reg: RegId, k: KeyId, initial: Captured, again: Option<Captured>): Option<Captured>
    requires k in r.views
  {
    if (CapturesView(r, reg, k) && initial.viewRevision != r.views[k].part.revision)
       || (CapturesPreferences(r, reg, k) && initial.preferencesRevision != r.preferences.part.revision)
    then again else Some(initial)
  }

  function StoreViewRecord(r: Records, k: KeyId, c: Captured): Records
    requires k in r.views
  {
    WithView(r, k, r.views[k].(part := CapturePart(r.views[k].part, c.viewContent, c.viewFingerprint)))
  }

  function StorePreferencesRecord(r: Records, k: KeyId, c: Captured): Records {
    var part := CapturePart(r.preferences.part, c.preferencesContent, c.preferencesFingerprint);
    r.(preferences := Preferences(part, None, Some(k)))
  }

  function StoreView(s: State, reg: RegId, k: KeyId, c: Captured): State
    requires k in s.records.views
  {
    if CapturesView(s.records, reg, k)
    then s.(records := StoreViewRecord(s.records, k, c), queue := Enqueue(s.queue, k)) else s
  }

  function StorePreferences(s: State, reg: RegId, k: KeyId, c: Captured): State {
    if CapturesPreferences(s.records, reg, k) then
      var previous := s.records.preferences.keyId;
      var r := StorePreferencesRecord(s.records, k, c);
      var q := Enqueue(s.queue, k);
      s.(records := r, queue := if previous != Some(k) then RemoveOptionIfClean(r, q, previous) else q)
    else s
  }

  function CaptureActive(s: State, src: Source): State {
    var active := ActiveCapture(s, src.key);
    if active.None? || !s.registrations[active.value.0].captureEnabled then s
    else
      var (reg, k) := active.value;
      var r := EnsureView(s.records, k);
      if src.initial.None? then s.(records := r)
      else
        var r' := Detect(r, reg, k, src.initial.value);
        var t := s.(records := r');
        var chosen := ChosenCapture(r', reg, k, src.initial.value, src.again);
        if chosen.None? then t
        else StorePreferences(StoreView(t, reg, k, chosen.value), reg, k, chosen.value)
  }

  // ---- Saving ---------------------------------------------------------

  function CarriedPart(p: Part): Option<PartAttempt> {
    if p.payload.Some? then Some(PartAttempt(p.payload.value, p.observed)) else None
  }

  function CreateAttempt(r: Records, k: KeyId): Option<Attempt> {
    if k !in r.views then None
    else
      var v := r.views[k];
      var view := CarriedPart(v.part);
      var preferences := if r.preferences.keyId == Some(k) then CarriedPart(r.preferences.part) else None;
      var force := if v.forceKlineFlush then Some(v.forceGeneration) else None;
      if view.None? && preferences.None? && force.None? then None
      else Some(Attempt(k, view, preferences, force))
  }

  function AnswerForce(v: ViewRecord, a: Attempt, res: SaveResult): ViewRecord {
    if a.forceGeneration.Some? && res.klineSaved && v.forceGeneration == a.forceGeneration.value
    then v.(forceKlineFlush := false) else v
  }

  function AnswerView(v: ViewRecord, a: Attempt, res: SaveResult): ViewRecord {
    if a.view.Some? then v.(part := AnswerPart(v.part, a.view.value, res.viewSaved, res.viewRevision)) else v
  }

  function AnswerPreferences(q: Preferences, a: Attempt, res: SaveResult): Preferences {
    if a.preferences.None? || q.keyId != Some(a.keyId) || q.part.payload.None? then q
    else
      var part := AnswerPart(q.part, a.preferences.value, res.preferencesSaved, res.preferencesRevision);
      q.(part := part, keyId := if part.payload.None? then None else q.keyId)
  }

  predicate AnswerRebases(r: Records, a: Attempt, res: SaveResult)
    requires a.keyId in r.views
  {
    || (a.view.Some? && Rebases(r.views[a.keyId].part, a.view.value, res.viewSaved, res.viewRevision))
    || (a.preferences.Some? && r.preferences.keyId == Some(a.keyId)
        && Rebases(r.preferences.part, a.preferences.value, res.preferencesSaved, res.preferencesRevision))
  }

  function AnswerRecords(r: Records, a: Attempt, res: SaveResult): Records
    requires a.keyId in r.views
  {
    WithView(r, a.keyId, AnswerView(AnswerForce(r.views[a.keyId], a, res), a, res))
      .(preferences := AnswerPreferences(r.preferences, a, res))
  }

  function ApplyResult(s: State, a: Attempt, res: SaveResult): State {
    if a.keyId !in s.records.views then s
    else
      var r := AnswerRecords(s.records, a, res);
      s.(records := r,
         queue := RemoveIfClean(r, s.queue, a.keyId),
         drainRequested := s.drainRequested || AnswerRebases(s.records, a, res))
  }

  // ---- The drain loop -------------------------------------------------

  /** Runs the rest of a cycle up to its next save, or to its end. */
  function RunCycle(s: State, rest: seq<KeyId>): State
    decreases |rest|
  {
    if rest == [] then s.(drain := Settling)
    else
      var a := CreateAttempt(s.records, rest[0]);
      if a.Some? then s.(drain := Awaiting(a.value, rest[1..]))
      else RunCycle(s.(queue := RemoveIfClean(s.records, s.queue, rest[0])), rest[1..])
  }

  function BeginCycle(s: State, src: Source): State {
    var t := CaptureActive(s.(drainRequested := false), src);
    RunCycle(t, t.queue.order)
  }

  function ContinueDrain(s: State, rest: seq<KeyId>, src: Source): State {
    var t := RunCycle(s, rest);
    if t.drain.Settling? && t.drainRequested then BeginCycle(t, src) else t
  }

  function ForceRecord(r: Records, k: KeyId): Records
    requires k in r.views
  {
    WithView(r, k, r.views[k].(forceKlineFlush := true, forceGeneration := r.views[k].forceGeneration + 1))
  }

  predicate Forces(s: State, timer: bool, src: Source) {
    !timer && ActiveCapture(s, src.key).Some?
  }

  /** A flush for any reason but the timer forces the candles of the active key out as well. */
  function PrepareFlush(s: State, timer: bool, src: Source): State {
    var t := CaptureActive(s, src);
    if Forces(s, timer, src) then
      var k := src.key.value;
      t.(records := ForceRecord(EnsureView(t.records, k), k), queue := Enqueue(t.queue, k))
    else t
  }

  function Flush(s: State, timer: bool, src: Source, drainSource: Source): State {
    var t := PrepareFlush(s, timer, src).(drainRequested := true);
    if t.drain.Idle? then BeginCycle(t, drainSource) else t
  }

  // ---- Runs -----------------------------------------------------------

  datatype Event =
    | Register(reg: RegId)
    | SetActive(reg: RegId, active: bool)
    | SetCaptureEnabled(reg: RegId, enabled: bool)
    | Unregister(reg: RegId)
    | ViewDirty(reg: RegId, key: Option<KeyId>)
    | PreferencesDirty(reg: RegId, key: Option<KeyId>)
    | Adopted(snapshot: Snapshot)
    | Flushed(timer: bool, source: Source, drainSource: Source)
    | Answered(result: Option<SaveResult>, nextSource: Source)  // None: the save was rejected
    | DrainSettled

  function Configure(s: State, reg: RegId, r: Registration): State {
    s.(registrations := s.registrations[reg := r])
  }

  function Step(s: State, e: Event): State {
    match e
    case Register(reg) =>
      if reg in s.registrations then s else Configure(s, reg, Registration(true, false))
    case SetActive(reg, active) =>
      if reg !in s.registrations || s.registrations[reg].removed then s
      else if active then s.(active := Some(reg))
      else if s.active == Some(reg) then s.(active := None) else s
    case SetCaptureEnabled(reg, enabled) =>
      if reg !in s.registrations || s.registrations[reg].removed then s
      else Configure(s, reg, s.registrations[reg].(captureEnabled := enabled))
    case Unregister(reg) =>
      if reg !in s.registrations || s.registrations[reg].removed then s
      else
        var t := Configure(s, reg, s.registrations[reg].(removed := true));
        if s.active == Some(reg) then t.(active := None) else t
    case ViewDirty(reg, key) => MarkView(s, reg, key)
    case PreferencesDirty(reg, key) => MarkPreferences(s, reg, key)
    case Adopted(snapshot) => AdoptSnapshot(s, snapshot)
    case Flushed(timer, source, drainSource) => Flush(s, timer, source, drainSource)
    case Answered(result, nextSource) =>
      if !s.drain.Awaiting? then s
      else
        var t := if result.Some? then ApplyResult(s, s.drain.attempt, result.value) else s;
        ContinueDrain(t, s.drain.rest, nextSource)
    case DrainSettled =>
      if s.drain.Settling? then s.(drain := Idle) else s
  }

  function Run(s: State, events: seq<Event>): State
    decreases |events|
  {
    if events == [] then s else Run(Step(s, events[0]), events[1..])
  }
}
