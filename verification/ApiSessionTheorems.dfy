/** What the session protocol promises over every interleaving of installs, clears and answers. */
module ApiSessionTheorems {
  import opened Common
  import opened ApiSessionModel

  /** An installed session mirrors the remembered one and names the material requests are signed with. */
  ghost predicate Mirrors(s: State) {
    s.installed.Some? ==>
      var i := s.installed.value;
      && s.remembered == Some(Remembered(i.fingerprint, i.context.token, i.rearmPending))
      && s.material.Some?
      && i.fingerprint == Fingerprint(i.context.session.account, s.material.value)
  }

  ghost predicate Drawn(i: Installed, nextUuid: nat) {
    i.owner < nextUuid && i.context.token < nextUuid
  }

  ghost predicate AllDrawn(s: State) {
    && (s.installed.Some? ==> Drawn(s.installed.value, s.nextUuid))
    && (s.remembered.Some? ==> s.remembered.value.token < s.nextUuid)
    && (forall id :: id in s.requests && s.requests[id].session.Some? ==>
          Drawn(s.requests[id].session.value, s.nextUuid))
  }

  /** A request that still owns the session was signed, if at all, with that session's material. */
  ghost predicate SignedByOwner(s: State) {
    forall id :: id in s.requests && OwnedBy(s.installed, s.requests[id].session)
                 && s.requests[id].signedWith.Some? ==>
      s.requests[id].signedWith == s.material
  }

  ghost predicate Inv(s: State) {
    Mirrors(s) && AllDrawn(s) && SignedByOwner(s)
  }

  lemma StepInv(s: State, e: Event)
    requires Inv(s)
    ensures Inv(Step(s, e)) && Step(s, e).nextUuid >= s.nextUuid
  {
    hide Judge;
  }

  lemma {:induction false} RunInv(s: State, events: seq<Event>)
    requires Inv(s)
    ensures Inv(Run(s, events))
    decreases |events|
  {
    if events != [] {
      StepInv(s, events[0]);
      RunInv(Step(s, events[0]), events[1..]);
    }
  }

  lemma {:induction false} RunAppend(s: State, before: seq<Event>, after: seq<Event>)
    ensures Run(s, before + after) == Run(Run(s, before), after)
    decreases |before|
  {
    if before == [] {
      assert before + after == after;
    } else {
      assert (before + after)[1..] == before[1..] + after;
      RunAppend(Step(s, before[0]), before[1..], after);
    }
  }

  /** In every reachable state an installed session mirrors the remembered one, token and rearm flag included. */
  lemma InstalledMirrorsRemembered(events: seq<Event>)
    ensures Mirrors(Run(INITIAL, events))
  {
    RunInv(INITIAL, events);
  }

  /** An answer that no longer owns the session retires its request and changes nothing else. */
  lemma UnownedAnswerChangesNothing(s: State, e: Event)
    requires e.Answer? && Answerable(s, e.id) && !OwnedAnswer(s, e)
    ensures Step(s, e) == s.(requests := s.requests - {e.id})
  {
    hide Judge;
  }

  /** An owned answer was signed with the credential of the session it is taken to speak for. */
  lemma OwnedAnswersWereSignedForTheSession(events: seq<Event>, e: Event)
    requires OwnedAnswer(Run(INITIAL, events), e)
    ensures var s := Run(INITIAL, events);
      var i := s.installed.value;
      Some(i.fingerprint.material) == s.requests[e.id].signedWith == s.material
      && i.fingerprint.account == i.context.session.account
  {
    RunInv(INITIAL, events);
  }

  /**
   Which answers matter: an expiry code in a readable body counts under every status but 403, and
   only a success status with no failure code authenticates. A bare 401 does neither.
   */
  lemma WhichAnswersMatter(reply: Reply, createsOrder: bool)
    ensures Expires(Judge(reply, createsOrder)) <==>
      && reply.status != 403
      && reply.body.Json?
      && reply.body.payload.code in {Some(26200003), Some(20011005)}
    ensures Authenticates(Judge(reply, createsOrder)) <==>
      var payload := if reply.body.Json? then reply.body.payload else EMPTY_OBJECT;
      && SuccessStatus(reply.status)
      && !reply.body.Malformed?
      && Classify(reply.status, payload.code) == Other
      && (if createsOrder then payload.order.Refused? || (payload.order.Placed? && payload.success)
          else payload.success)
  {
  }

  // ---- Ownership ------------------------------------------------------------

  /** The event replaces or removes the installed session, or rotates its token. */
  predicate EndsOwnership(s: State, e: Event) {
    || e.Install? || e.SetCredential? || e.Clear?
    || (OwnedSuccess(s, e) && s.installed.value.rearmPending)
  }

  lemma StepOwnership(s: State, e: Event, r: Installed)
    requires Inv(s) && Drawn(r, s.nextUuid)
    ensures OwnedBy(Step(s, e).installed, Some(r)) <==> OwnedBy(s.installed, Some(r)) && !EndsOwnership(s, e)
  {
    hide Judge;
  }

  predicate QuietRun(s: State, events: seq<Event>)
    decreases |events|
  {
    events == [] || (!EndsOwnership(s, events[0]) && QuietRun(Step(s, events[0]), events[1..]))
  }

  lemma {:induction false} RunOwnership(s: State, events: seq<Event>, r: Installed)
    requires Inv(s) && Drawn(r, s.nextUuid)
    ensures OwnedBy(Run(s, events).installed, Some(r)) <==> OwnedBy(s.installed, Some(r)) && QuietRun(s, events)
    decreases |events|
  {
    if events != [] {
      hide Owns;
      StepInv(s, events[0]);
      StepOwnership(s, events[0], r);
      RunOwnership(Step(s, events[0]), events[1..], r);
    }
  }

  /**
   A request owns the session exactly as long as nothing replaces, removes or rotates it:
   reinstalling the same account, credential and epoch still ends ownership.
   */
  lemma OwnershipLastsUntilTheSessionChanges(before: seq<Event>, id: nat, createsOrder: bool, after: seq<Event>)
    requires id !in Run(INITIAL, before).requests && Run(INITIAL, before).installed.Some?
    ensures var s := Run(INITIAL, before);
      var t := Step(s, Send(id, createsOrder));
      && t.requests[id].session == s.installed
      && (OwnedBy(Run(t, after).installed, t.requests[id].session) <==> QuietRun(t, after))
  {
    var s := Run(INITIAL, before);
    var t := Step(s, Send(id, createsOrder));
    RunInv(INITIAL, before);
    StepInv(s, Send(id, createsOrder));
    RunOwnership(t, after, s.installed.value);
  }

  /** Ownership once lost never returns. */
  lemma LostOwnershipIsForever(before: seq<Event>, id: nat, after: seq<Event>)
    requires id in Run(INITIAL, before).requests
    requires Run(INITIAL, before).requests[id].session.Some?
    requires !OwnedBy(Run(INITIAL, before).installed, Run(INITIAL, before).requests[id].session)
    ensures !OwnedBy(Run(INITIAL, before + after).installed, Run(INITIAL, before).requests[id].session)
  {
    var s := Run(INITIAL, before);
    RunInv(INITIAL, before);
    RunAppend(INITIAL, before, after);
    RunOwnership(s, after, s.requests[id].session.value);
  }

  // ---- Tokens -----------------------------------------------------------------

  /** The event gives the remembered session with fingerprint f a new token after an expiry. */
  predicate Rotates(s: State, e: Event, f: Fingerprint) {
    OwnedSuccess(s, e) || InstallsOther(e, f)
  }

  predicate Rotated(s: State, events: seq<Event>, f: Fingerprint)
    decreases |events|
  {
    events != [] && (Rotates(s, events[0], f) || Rotated(Step(s, events[0]), events[1..], f))
  }

  lemma RotatedSomewhere(s: State, events: seq<Event>, f: Fingerprint)
    ensures Rotated(s, events, f) <==>
      exists i :: 0 <= i < |events| && Rotates(Run(s, events[..i]), events[i], f)
    decreases |events|
  {
    if events != [] {
      assert events[..0] == [];
      var t := Step(s, events[0]);
      RotatedSomewhere(t, events[1..], f);
      forall i | 0 <= i < |events[1..]|
        ensures Run(t, events[1..][..i]) == Run(s, events[..i + 1])
      {
        assert events[..i + 1][1..] == events[1..][..i];
      }
      if Rotates(s, events[0], f) {
        assert Rotates(Run(s, events[..0]), events[0], f);
      } else if Rotated(t, events[1..], f) {
        var i :| 0 <= i < |events[1..]| && Rotates(Run(t, events[1..][..i]), events[1..][i], f);
        assert Rotates(Run(s, events[..i + 1]), events[i + 1], f);
      }
      if i :| 0 <= i < |events| && Rotates(Run(s, events[..i]), events[i], f) {
        if i > 0 { assert Rotates(Run(t, events[1..][..i - 1]), events[1..][i - 1], f); }
      }
    }
  }

  /** Tokens only ever move to fresher ones. */
  lemma StepTokens(s: State, e: Event)
    requires Inv(s) && s.remembered.Some?
    ensures var t := Step(s, e);
      t.remembered.Some? && t.remembered.value.token >= s.remembered.value.token
  {
    hide Judge;
  }

  /** An expiry stays pending under its token until the first rotation, which replaces the token. */
  lemma StepPending(s: State, e: Event)
    requires Inv(s) && s.remembered.Some? && s.remembered.value.rearmPending
    ensures var t := Step(s, e);
      if Rotates(s, e, s.remembered.value.fingerprint)
      then t.remembered.Some? && t.remembered.value.token > s.remembered.value.token
      else t.remembered == s.remembered
  {
    hide Judge;
  }

  lemma {:induction false} RunTokens(s: State, events: seq<Event>)
    requires Inv(s) && s.remembered.Some?
    ensures var t := Run(s, events);
      t.remembered.Some? && t.remembered.value.token >= s.remembered.value.token
    decreases |events|
  {
    if events != [] {
      StepInv(s, events[0]);
      StepTokens(s, events[0]);
      RunTokens(Step(s, events[0]), events[1..]);
    }
  }

  lemma {:induction false} RunPending(s: State, events: seq<Event>)
    requires Inv(s) && s.remembered.Some? && s.remembered.value.rearmPending
    ensures var t := Run(s, events);
      if Rotated(s, events, s.remembered.value.fingerprint)
      then t.remembered.Some? && t.remembered.value.token > s.remembered.value.token
      else t.remembered == s.remembered
    decreases |events|
  {
    if events != [] {
      hide Rotates, Inv;
      StepInv(s, events[0]);
      StepPending(s, events[0]);
      if Rotates(s, events[0], s.remembered.value.fingerprint) {
        RunTokens(Step(s, events[0]), events[1..]);
      } else {
        RunPending(Step(s, events[0]), events[1..]);
      }
    }
  }

  /**
   Two announced expiries carry the same token exactly when, between them, no owned success came
   in and no other account or credential was installed. Clears, reconnects under the same
   credential, other expiries and answers nobody owns make no difference.
   */
  lemma ExpiriesShareATokenIff(before: seq<Event>, e: Event, between: seq<Event>, e': Event)
    requires AcceptedExpiry(Run(INITIAL, before), e)
    requires AcceptedExpiry(Run(Step(Run(INITIAL, before), e), between), e')
    ensures var s := Run(INITIAL, before);
      var t := Step(s, e);
      var u := Run(t, between);
      s.installed.value.context.token == u.installed.value.context.token
      <==> forall i :: 0 <= i < |between| ==>
             !OwnedSuccess(Run(t, between[..i]), between[i])
             && !InstallsOther(between[i], s.installed.value.fingerprint)
  {
    var s := Run(INITIAL, before);
    var t := Step(s, e);
    var u := Run(t, between);
    var f := s.installed.value.fingerprint;
    RunInv(INITIAL, before);
    StepInv(s, e);
    ExpiryIsRemembered(s, e);
    RunInv(t, between);
    RunPending(t, between);
    RotatedSomewhere(t, between, f);
    if forall i :: 0 <= i < |between| ==>
         !OwnedSuccess(Run(t, between[..i]), between[i]) && !InstallsOther(between[i], f) {
      forall i | 0 <= i < |between|
        ensures !Rotates(Run(t, between[..i]), between[i], f)
      {
      }
    }
  }

  lemma ExpiryIsRemembered(s: State, e: Event)
    requires Inv(s) && AcceptedExpiry(s, e)
    ensures var i := s.installed.value;
      Step(s, e).remembered == Some(Remembered(i.fingerprint, i.context.token, true))
  {
    hide Judge;
  }

  /** An expiry under this token has been announced. */
  ghost predicate Announced(s: State, events: seq<Event>, token: nat) {
    exists i :: 0 <= i < |events| && AcceptedExpiry(Run(s, events[..i]), events[i])
                && Run(s, events[..i]).installed.value.context.token == token
  }

  lemma AnnouncedLater(events: seq<Event>, e: Event, token: nat)
    requires Announced(INITIAL, events, token)
    ensures Announced(INITIAL, events + [e], token)
  {
    var i :| 0 <= i < |events| && AcceptedExpiry(Run(INITIAL, events[..i]), events[i])
             && Run(INITIAL, events[..i]).installed.value.context.token == token;
    assert (events + [e])[..i] == events[..i] && (events + [e])[i] == events[i];
  }

  lemma StepRearm(s: State, e: Event)
    requires Inv(s)
    requires Step(s, e).remembered.Some? && Step(s, e).remembered.value.rearmPending
    ensures Step(s, e).remembered == s.remembered
      || (AcceptedExpiry(s, e) && Step(s, e).remembered.value.token == s.installed.value.context.token)
  {
    hide Judge;
  }

  lemma {:induction false} RearmWasAnnounced(events: seq<Event>)
    requires var r := Run(INITIAL, events).remembered; r.Some? && r.value.rearmPending
    ensures Announced(INITIAL, events, Run(INITIAL, events).remembered.value.token)
    decreases |events|
  {
    if events != [] {
      var before, e := events[..|events| - 1], events[|events| - 1];
      assert events == before + [e];
      RunAppend(INITIAL, before, [e]);
      var s := Run(INITIAL, before);
      assert Run(s, [e]) == Step(s, e);
      RunInv(INITIAL, before);
      StepRearm(s, e);
      if Step(s, e).remembered == s.remembered {
        RearmWasAnnounced(before);
        AnnouncedLater(before, e, s.remembered.value.token);
      } else {
        assert events[..|before|] == before;
      }
    }
  }

  /** A success replaces the token only if an expiry was announced under it: once per announcement. */
  lemma RotationFollowsAnAnnouncement(events: seq<Event>, e: Event)
    requires var s := Run(INITIAL, events);
      OwnedSuccess(s, e) && Step(s, e).installed != s.installed
    ensures Announced(INITIAL, events, Run(INITIAL, events).installed.value.context.token)
  {
    hide Judge;
    RunInv(INITIAL, events);
    RearmWasAnnounced(events);
  }
}
