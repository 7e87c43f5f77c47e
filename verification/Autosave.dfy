/**
 The autosave service itself: the fields of the class and the methods that update them
 in place. Each method is proved to take the step of the state machine it stands for.
 */
module Autosave {
  import opened Common
  import opened AutosaveModel
  import AutosaveProofs
  import AutosaveDrain

  class ChartWorkspaceAutosave {
    var views: map<KeyId, ViewRecord>
    var preferences: Preferences
    var queue: seq<KeyId>
    var queuedIds: set<KeyId>
    var registrations: map<RegId, Registration>
    var activeRegistration: Option<RegId>
    var drainRequested: bool
    var drain: Drain

    ghost function Abs(): (s: State)
      reads this
    {
      State(Records(views, preferences), Queue(queue, queuedIds),
            registrations, activeRegistration, drainRequested, drain)
    }

    /** The queue is exactly the pending work, and dirtiness exactly an unacknowledged revision. */
    ghost predicate Valid()
      reads this
    {
      AutosaveProofs.Inv(Abs())
    }

    constructor ()
      ensures Valid()
      ensures Abs() == INITIAL
    {
      views, preferences := map[], Preferences(EMPTY_PART, None, None);
      queue, queuedIds := [], {};
      registrations, activeRegistration := map[], None;
      drainRequested, drain := false, Idle;
    }

    // ---- Capture sources ------------------------------------------------

    method RegisterCaptureSource(reg: RegId)
      requires Valid()
      modifies this
      ensures Valid()
      ensures Abs() == Step(old(Abs()), Register(reg))
    {
      hide AutosaveProofs.Inv, AutosaveProofs.Moves, AutosaveProofs.Kept;
      AutosaveProofs.StepInv(Abs(), Register(reg));
      if reg !in registrations {
        registrations := registrations[reg := Registration(true, false)];
      }
    }

    method SetActive(reg: RegId, active: bool)
      requires Valid()
      modifies this
      ensures Valid()
      ensures Abs() == Step(old(Abs()), Event.SetActive(reg, active))
    {
      hide AutosaveProofs.Inv, AutosaveProofs.Moves, AutosaveProofs.Kept;
      AutosaveProofs.StepInv(Abs(), Event.SetActive(reg, active));
      if reg !in registrations || registrations[reg].removed { return; }
      if active {
        activeRegistration := Some(reg);
      } else if activeRegistration == Some(reg) {
        activeRegistration := None;
      }
    }

    method SetCaptureEnabled(reg: RegId, enabled: bool)
      requires Valid()
      modifies this
      ensures Valid()
      ensures Abs() == Step(old(Abs()), Event.SetCaptureEnabled(reg, enabled))
    {
      hide AutosaveProofs.Inv, AutosaveProofs.Moves, AutosaveProofs.Kept;
      AutosaveProofs.StepInv(Abs(), Event.SetCaptureEnabled(reg, enabled));
      if reg in registrations && !registrations[reg].removed {
        registrations := registrations[reg := registrations[reg].(captureEnabled := enabled)];
      }
    }

    method Unregister(reg: RegId)
      requires Valid()
      modifies this
      ensures Valid()
      ensures Abs() == Step(old(Abs()), Event.Unregister(reg))
    {
      hide AutosaveProofs.Inv, AutosaveProofs.Moves, AutosaveProofs.Kept;
      AutosaveProofs.StepInv(Abs(), Event.Unregister(reg));
      if reg !in registrations || registrations[reg].removed { return; }
      registrations := registrations[reg := registrations[reg].(removed := true)];
      if activeRegistration == Some(reg) {
        activeRegistration := None;
      }
    }

    method ReadActiveCapture(key: Option<KeyId>) returns (active: Option<(RegId, KeyId)>)
      ensures active == ActiveCapture(Abs(), key)
    {
      if activeRegistration.None? { return None; }
      var reg := activeRegistration.value;
      if reg !in registrations || registrations[reg].removed || key.None? { return None; }
      return Some((reg, key.value));
    }

    method EnsureView(k: KeyId)
      modifies this`views
      ensures Abs() == old(Abs()).(records := AutosaveModel.EnsureView(old(Abs()).records, k))
    {
      if k !in views {
        views := views[k := EMPTY_VIEW];
      }
    }

    method RequestFollowupDrain()
      modifies this`drainRequested
      ensures Abs() == RequestFollowup(old(Abs()))
    {
      if !drain.Idle? {
        drainRequested := true;
      }
    }

    method MarkViewDirty(reg: RegId, key: Option<KeyId>)
      requires Valid()
      modifies this
      ensures Valid()
      ensures Abs() == MarkView(old(Abs()), reg, key)
    {
      hide AutosaveProofs.Inv, AutosaveProofs.Moves, AutosaveProofs.Kept;
      AutosaveProofs.StepInv(Abs(), ViewDirty(reg, key));
      if reg !in registrations || registrations[reg].removed || !registrations[reg].captureEnabled
         || activeRegistration != Some(reg) || key.None? { return; }
      var k := key.value;
      EnsureView(k);
      var record := views[k];
      var part := record.part.(revision := Max(record.part.revision, record.part.ackRevision) + 1);
      part := part.(needsCapture := true, registration := Some(reg));
      views := views[k := record.(part := part)];
      RequestFollowupDrain();
    }

    method MarkPreferencesDirty(reg: RegId, key: Option<KeyId>)
      requires Valid()
      modifies this
      ensures Valid()
      ensures Abs() == MarkPreferences(old(Abs()), reg, key)
    {
      hide AutosaveProofs.Inv, AutosaveProofs.Moves, AutosaveProofs.Kept;
      AutosaveProofs.StepInv(Abs(), PreferencesDirty(reg, key));
      if reg !in registrations || registrations[reg].removed || !registrations[reg].captureEnabled
         || activeRegistration != Some(reg) || key.None? { return; }
      var part := preferences.part.(revision := Max(preferences.part.revision, preferences.part.ackRevision) + 1);
      part := part.(needsCapture := true, registration := Some(reg));
      preferences := preferences.(part := part, captureKey := key);
      RequestFollowupDrain();
    }

    // ---- The queue ------------------------------------------------------

    method Enqueue(k: KeyId)
      modifies this`queue, this`queuedIds
      ensures Abs() == old(Abs()).(queue := AutosaveModel.Enqueue(old(Abs()).queue, k))
    {
      if k in queuedIds { return; }
      queuedIds := queuedIds + {k};
      queue := queue + [k];
    }

    method RemoveFromQueueIfClean(k: KeyId)
      modifies this`queue, this`queuedIds
      ensures Abs() == old(Abs()).(queue := RemoveIfClean(old(Abs()).records, old(Abs()).queue, k))
    {
      var hasViewWork := k in views && (views[k].part.payload.Some? || views[k].forceKlineFlush);
      var hasPreferencesWork := preferences.part.payload.Some? && preferences.keyId == Some(k);
      if hasViewWork || hasPreferencesWork || k !in queuedIds { return; }
      queuedIds := queuedIds - {k};
      queue := RemoveFirst(queue, k);
    }

    // ---- Adoption -------------------------------------------------------

    method AdoptSnapshot(n: Snapshot)
      requires Valid()
      modifies this
      ensures Valid()
      ensures Abs() == AutosaveModel.AdoptSnapshot(old(Abs()), n)
    {
      hide AutosaveProofs.Inv, AutosaveProofs.Moves, AutosaveProofs.Kept;
      AutosaveProofs.StepInv(Abs(), Adopted(n));
      EnsureView(n.keyId);
      var record := views[n.keyId];
      if n.viewRevision >= record.part.revision {
        record := record.(part := Part(None, n.viewRevision, n.viewRevision,
                                       n.viewFingerprint, n.viewFingerprint, false, None));
      } else if n.viewRevision >= record.part.ackRevision {
        record := record.(part := record.part.(ackRevision := n.viewRevision, ackFingerprint := n.viewFingerprint));
      }
      views := views[n.keyId := record];

      if n.preferencesRevision >= preferences.part.revision {
        var oldKeyId := preferences.keyId;
        preferences := Preferences(
          Part(None, n.preferencesRevision, n.preferencesRevision,
               n.preferencesFingerprint, n.preferencesFingerprint, false, None), None, None);
        if oldKeyId.Some? {
          RemoveFromQueueIfClean(oldKeyId.value);
        }
      } else if n.preferencesRevision >= preferences.part.ackRevision {
        preferences := preferences.(part := preferences.part.(
          ackRevision := n.preferencesRevision, ackFingerprint := n.preferencesFingerprint));
      }
      RemoveFromQueueIfClean(n.keyId);
    }

    // ---- Capture --------------------------------------------------------

    method CaptureActive(src: Source) returns (active: Option<(RegId, KeyId)>)
      modifies this
      ensures Abs() == AutosaveModel.CaptureActive(old(Abs()), src)
      ensures active == ActiveCapture(old(Abs()), src.key)
    {
      active := ReadActiveCapture(src.key);
      if active.None? || !registrations[active.value.0].captureEnabled { return; }
      var (reg, k) := active.value;
      EnsureView(k);
      if src.initial.None? { return; }
      var initial := src.initial.value;
      DetectChanges(reg, k, initial);

      var capturesView := views[k].part.needsCapture && views[k].part.registration == Some(reg);
      var capturesPreferences := preferences.part.needsCapture
        && preferences.part.registration == Some(reg) && preferences.captureKey == Some(k);
      var captured := initial;
      if (capturesView && initial.viewRevision != views[k].part.revision)
         || (capturesPreferences && initial.preferencesRevision != preferences.part.revision) {
        if src.again.None? { return; }
        captured := src.again.value;
      }
      StoreCapture(reg, k, captured);
    }

    method DetectChanges(reg: RegId, k: KeyId, initial: Captured)
      requires k in views
      modifies this`views, this`preferences
      ensures k in views
      ensures Abs() == old(Abs()).(records := Detect(old(Abs()).records, reg, k, initial))
    {
      var record := views[k];
      if !record.part.needsCapture && initial.viewFingerprint != record.part.observed {
        views := views[k := record.(part := MarkPart(record.part, reg))];
      }
      if !preferences.part.needsCapture && initial.preferencesFingerprint != preferences.part.observed {
        preferences := preferences.(part := MarkPart(preferences.part, reg), captureKey := Some(k));
      }
    }

    method StoreCapture(reg: RegId, k: KeyId, captured: Captured)
      requires k in views
      modifies this
      ensures Abs() == StorePreferences(StoreView(old(Abs()), reg, k, captured), reg, k, captured)
    {
      var record := views[k];
      if record.part.needsCapture && record.part.registration == Some(reg) {
        views := views[k := record.(part := CapturePart(record.part, captured.viewContent, captured.viewFingerprint))];
        Enqueue(k);
      }
      if preferences.part.needsCapture && preferences.part.registration == Some(reg)
         && preferences.captureKey == Some(k) {
        var oldKeyId := preferences.keyId;
        preferences := Preferences(
          CapturePart(preferences.part, captured.preferencesContent, captured.preferencesFingerprint), None, Some(k));
        Enqueue(k);
        if oldKeyId.Some? && oldKeyId.value != k {
          RemoveFromQueueIfClean(oldKeyId.value);
        }
      }
    }

    // ---- Saving ---------------------------------------------------------

    method CreateAttempt(k: KeyId) returns (attempt: Option<Attempt>)
      ensures attempt == AutosaveModel.CreateAttempt(Abs().records, k)
    {
      if k !in views { return None; }
      var record := views[k];
      var view: Option<PartAttempt> := None;
      if record.part.payload.Some? {
        view := Some(PartAttempt(record.part.payload.value, record.part.observed));
      }
      var carried: Option<PartAttempt> := None;
      if preferences.part.payload.Some? && preferences.keyId == Some(k) {
        carried := Some(PartAttempt(preferences.part.payload.value, preferences.part.observed));
      }
      var force := if record.forceKlineFlush then Some(record.forceGeneration) else None;
      if view.None? && carried.None? && force.None? { return None; }
      return Some(Attempt(k, view, carried, force));
    }

    method ApplyResult(a: Attempt, res: SaveResult)
      modifies this
      ensures Abs() == AutosaveModel.ApplyResult(old(Abs()), a, res)
    {
      if a.keyId !in views { return; }
      ApplyViewResult(a, res);
      ApplyPreferencesResult(a, res);
      RemoveFromQueueIfClean(a.keyId);
    }

    method ApplyViewResult(a: Attempt, res: SaveResult)
      requires a.keyId in views
      modifies this`views, this`drainRequested
      ensures views == old(views)[a.keyId := AnswerView(AnswerForce(old(views[a.keyId]), a, res), a, res)]
      ensures drainRequested == (old(drainRequested)
        || (a.view.Some? && Rebases(old(views[a.keyId]).part, a.view.value, res.viewSaved, res.viewRevision)))
    {
      var record := views[a.keyId];
      if a.forceGeneration.Some? && res.klineSaved && record.forceGeneration == a.forceGeneration.value {
        record := record.(forceKlineFlush := false);
      }
      if a.view.Some? {
        var sent := a.view.value;
        var stillCurrent := StillCurrent(record.part, sent);
        if res.viewSaved && res.viewRevision >= sent.payload.revision {
          if stillCurrent {
            record := record.(part := record.part.(
              payload := None, revision := res.viewRevision, ackRevision := res.viewRevision,
              ackFingerprint := sent.fingerprint));
          }
        } else if stillCurrent && res.viewRevision >= sent.payload.revision {
          var revision := res.viewRevision + 1;
          record := record.(part := record.part.(
            revision := revision, payload := Some(record.part.payload.value.(revision := revision))));
          drainRequested := true;
        }
      }
      views := views[a.keyId := record];
    }

    method ApplyPreferencesResult(a: Attempt, res: SaveResult)
      modifies this`preferences, this`drainRequested
      ensures preferences == AnswerPreferences(old(preferences), a, res)
      ensures drainRequested == (old(drainRequested)
        || (a.preferences.Some? && old(preferences).keyId == Some(a.keyId)
            && Rebases(old(preferences).part, a.preferences.value, res.preferencesSaved, res.preferencesRevision)))
    {
      if a.preferences.None? { return; }
      var sent := a.preferences.value;
      var stillCurrent := preferences.keyId == Some(a.keyId) && StillCurrent(preferences.part, sent);
      if res.preferencesSaved && res.preferencesRevision >= sent.payload.revision {
        if stillCurrent {
          preferences := preferences.(keyId := None, part := preferences.part.(
            payload := None, revision := res.preferencesRevision, ackRevision := res.preferencesRevision,
            ackFingerprint := sent.fingerprint));
        }
      } else if stillCurrent && res.preferencesRevision >= sent.payload.revision {
        var revision := res.preferencesRevision + 1;
        preferences := preferences.(part := preferences.part.(
          revision := revision, payload := Some(preferences.part.payload.value.(revision := revision))));
        drainRequested := true;
      }
    }

    // ---- The drain loop, suspended at each save ----------------------------

    method RunCycle(rest: seq<KeyId>)
      modifies this
      ensures Abs() == AutosaveModel.RunCycle(old(Abs()), rest)
    {
      var i := 0;
      while i < |rest|
        invariant i <= |rest|
        invariant AutosaveModel.RunCycle(Abs(), rest[i..]) == AutosaveModel.RunCycle(old(Abs()), rest)
      {
        var attempt := CreateAttempt(rest[i]);
        if attempt.Some? {
          drain := Awaiting(attempt.value, rest[i + 1..]);
          assert rest[i..][1..] == rest[i + 1..];
          return;
        }
        assert rest[i..][1..] == rest[i + 1..];
        RemoveFromQueueIfClean(rest[i]);
        i := i + 1;
      }
      drain := Settling;
    }

    method BeginCycle(src: Source)
      modifies this
      ensures Abs() == AutosaveModel.BeginCycle(old(Abs()), src)
    {
      drainRequested := false;
      var _ := CaptureActive(src);
      RunCycle(queue);
    }

    method PrepareFlush(timer: bool, src: Source)
      modifies this
      ensures Abs() == AutosaveModel.PrepareFlush(old(Abs()), timer, src)
    {
      hide AutosaveModel.CaptureActive, AutosaveModel.Enqueue;
      var active := CaptureActive(src);
      if !timer && active.Some? {
        var k := active.value.1;
        EnsureView(k);
        var record := views[k];
        views := views[k := record.(forceKlineFlush := true, forceGeneration := record.forceGeneration + 1)];
        Enqueue(k);
      }
    }

    method Flush(timer: bool, src: Source, drainSource: Source)
      requires Valid()
      modifies this
      ensures Valid()
      ensures Abs() == AutosaveModel.Flush(old(Abs()), timer, src, drainSource)
    {
      hide AutosaveProofs.Inv, AutosaveProofs.Moves, AutosaveProofs.Kept, AutosaveModel.PrepareFlush,
        AutosaveModel.BeginCycle;
      AutosaveProofs.StepInv(Abs(), Flushed(timer, src, drainSource));
      PrepareFlush(timer, src);
      drainRequested := true;
      if drain.Idle? {
        BeginCycle(drainSource);
      }
    }

    method AnswerSave(result: Option<SaveResult>, nextSource: Source)
      requires Valid()
      modifies this
      ensures Valid()
      ensures Abs() == Step(old(Abs()), Answered(result, nextSource))
    {
      hide AutosaveProofs.Inv, AutosaveProofs.Moves, AutosaveProofs.Kept;
      AutosaveProofs.StepInv(Abs(), Answered(result, nextSource));
      if !drain.Awaiting? { return; }
      var rest := drain.rest;
      if result.Some? {
        ApplyResult(drain.attempt, result.value);
      }
      RunCycle(rest);
      if drain.Settling? && drainRequested {
        BeginCycle(nextSource);
      }
    }

    /**
     The whole drain when nothing else happens meanwhile. It ends after at most two passes,
     and what stays queued is exactly what, before it, an edit not captured had overtaken.
     */
    method DrainQuietly(store: AutosaveDrain.Store, src: Source)
      returns (store': AutosaveDrain.Store, passes: nat)
      requires AutosaveProofs.StillInv(Abs()) && AutosaveDrain.Stable(src)
      modifies this
      ensures 1 <= passes <= 2
      ensures AutosaveProofs.StillInv(Abs()) && AutosaveDrain.Drained(Abs())
      ensures AutosaveDrain.System(Abs(), store')
        == AutosaveDrain.WholeDrain(AutosaveDrain.System(old(Abs()), store), src)
      ensures forall k :: k in queue <==> AutosaveDrain.LeftBehind(old(Abs()), src, k)
    {
      ghost var first := AutosaveDrain.Cycle(AutosaveDrain.System(Abs(), store), src);
      store' := DrainPass(store, src);
      AutosaveDrain.FirstCycle(AutosaveDrain.System(old(Abs()), store), src);
      passes := 1;
      while drainRequested
        invariant 1 <= passes <= 2 && AutosaveProofs.StillInv(Abs())
        invariant passes == 1 ==> AutosaveDrain.System(Abs(), store') == first
        invariant passes == 2 ==> AutosaveDrain.System(Abs(), store') == AutosaveDrain.Cycle(first, src)
        invariant passes == 2 ==> AutosaveDrain.Drained(Abs()) && first.state.drainRequested
        decreases 2 - passes
      {
        AutosaveDrain.SecondCycle(first, src);
        store' := DrainPass(store', src);
        passes := passes + 1;
      }
      forall k
        ensures k in queue <==> AutosaveDrain.LeftBehind(old(Abs()), src, k)
      {
        AutosaveDrain.DrainLeavesIff(AutosaveDrain.System(old(Abs()), store), src, k);
      }
    }

    method DrainPass(store: AutosaveDrain.Store, src: Source) returns (store': AutosaveDrain.Store)
      modifies this
      ensures AutosaveDrain.System(Abs(), store') == AutosaveDrain.Cycle(AutosaveDrain.System(old(Abs()), store), src)
    {
      drainRequested := false;
      var _ := CaptureActive(src);
      var cycle := queue;
      store' := store;
      ghost var start := AutosaveDrain.System(Abs(), store);
      var i := 0;
      while i < |cycle|
        invariant i <= |cycle|
        invariant AutosaveDrain.Pass(AutosaveDrain.System(Abs(), store'), cycle[i..]) == AutosaveDrain.Pass(start, cycle)
      {
        var attempt := CreateAttempt(cycle[i]);
        assert cycle[i..][1..] == cycle[i + 1..];
        if attempt.None? {
          RemoveFromQueueIfClean(cycle[i]);
        } else {
          var res := AutosaveDrain.SaveAnswer(store', attempt.value);
          store' := AutosaveDrain.SaveStore(store', attempt.value);
          ApplyResult(attempt.value, res);
        }
        i := i + 1;
      }
    }
  }
}
