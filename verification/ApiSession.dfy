/** The API client: its session fields, and the methods that overwrite them under the install lock. */
module ApiSession {
  import opened Common
  import opened ApiSessionModel
  import ApiSessionTheorems

  class ApiClient {
    var material: Option<Material>
    var sessionContext: Option<Installed>
    var rememberedSession: Option<Remembered>
    var nextUuid: nat
    var requests: map<nat, Request>

    ghost function Abs(): (s: State)
      reads this
    {
      State(material, sessionContext, rememberedSession, nextUuid, requests)
    }

    /** The installed session mirrors the remembered one, and everything drawn is in the past. */
    ghost predicate Valid()
      reads this
    {
      ApiSessionTheorems.Inv(Abs())
    }

    constructor ()
      ensures Valid()
      ensures Abs() == INITIAL
    {
      material, sessionContext, rememberedSession, nextUuid, requests := None, None, None, 0, map[];
    }

    method NewUuid() returns (uuid: nat)
      modifies this`nextUuid
      ensures uuid == old(nextUuid) && nextUuid == old(nextUuid) + 1
    {
      uuid := nextUuid;
      nextUuid := nextUuid + 1;
    }

    method SetCredential(credential: Credential)
      requires Valid()
      modifies this
      ensures Valid()
      ensures Abs() == Step(old(Abs()), Event.SetCredential(credential))
    {
      hide ApiSessionTheorems.Inv;
      ApiSessionTheorems.StepInv(Abs(), Event.SetCredential(credential));
      if !credential.valid {
        material, sessionContext := None, None;
        return;
      }
      material := Some(credential.material);
      sessionContext := None;
    }

    method SetCredentialForSession(credential: Credential, session: Session)
      requires Valid()
      modifies this
      ensures Valid()
      ensures Abs() == Step(old(Abs()), Install(credential, session))
    {
      hide ApiSessionTheorems.Inv;
      ApiSessionTheorems.StepInv(Abs(), Install(credential, session));
      if !credential.valid {
        material, sessionContext := None, None;
        return;
      }
      var fingerprint := Fingerprint(session.account, credential.material);
      var remembered := rememberedSession;
      if remembered.Some? && remembered.value.fingerprint != fingerprint {
        remembered := None;
      }
      var token := 0;
      if remembered.Some? {
        token := remembered.value.token;
      } else {
        token := NewUuid();
      }
      var rearm := remembered.Some? && remembered.value.rearmPending;
      material := Some(credential.material);
      var owner := NewUuid();
      sessionContext := Some(Installed(Context(session, token), fingerprint, owner, rearm));
      rememberedSession := Some(Remembered(fingerprint, token, rearm));
    }

    method ClearCredential()
      requires Valid()
      modifies this
      ensures Valid()
      ensures Abs() == Step(old(Abs()), Clear)
    {
      hide ApiSessionTheorems.Inv;
      ApiSessionTheorems.StepInv(Abs(), Clear);
      material := None;
      sessionContext := None;
    }

    // ---- Private requests -----------------------------------------------------

    method SessionForRequest(id: nat, createsOrder: bool)
      requires Valid()
      requires id !in requests
      modifies this`requests
      ensures Valid()
      ensures Abs() == Step(old(Abs()), Send(id, createsOrder))
    {
      hide ApiSessionTheorems.Inv;
      ApiSessionTheorems.StepInv(Abs(), Send(id, createsOrder));
      requests := requests[id := Request(sessionContext, None, createsOrder)];
    }

    /** Fails, and gives the request up, when there is no signer. */
    method SignHeaders(id: nat) returns (signed: bool)
      requires Valid()
      requires id in requests && requests[id].signedWith.None?
      modifies this`requests
      ensures Valid()
      ensures signed == old(material).Some?
      ensures Abs() == Step(old(Abs()), Sign(id))
    {
      hide ApiSessionTheorems.Inv;
      ApiSessionTheorems.StepInv(Abs(), Sign(id));
      signed := material.Some?;
      requests := if signed then requests[id := requests[id].(signedWith := material)] else requests - {id};
    }

    method MarkCurrentSessionExpired(request: Installed) returns (context: Option<Context>)
      modifies this`sessionContext, this`rememberedSession
      ensures Abs() == MarkExpired(old(Abs()), request)
      ensures context == if OwnedBy(old(sessionContext), Some(request)) then Some(request.context) else None
    {
      if sessionContext.None? || !Owns(sessionContext.value, request) { return None; }
      var current := sessionContext.value;
      sessionContext := Some(current.(rearmPending := true));
      rememberedSession := Some(Remembered(request.fingerprint, current.context.token, true));
      return Some(current.context);
    }

    method ConfirmAuthenticatedPrivateResponse(request: Installed)
      modifies this`sessionContext, this`rememberedSession, this`nextUuid
      ensures Abs() == Confirm(old(Abs()), request)
    {
      if sessionContext.None? || !Owns(sessionContext.value, request) || !sessionContext.value.rearmPending {
        return;
      }
      var current := sessionContext.value;
      var token := NewUuid();
      sessionContext := Some(current.(context := current.context.(token := token), rearmPending := false));
      rememberedSession := Some(Remembered(current.fingerprint, token, false));
    }

    /**
     The verdict of an answer, and the context under which an expiry is announced to the observer.
     A request captured with no session, such as a public one, changes nothing.
     */
    method ParseResponse(reply: Reply, createsOrder: bool, request: Option<Installed>)
      returns (verdict: Verdict, announced: Option<Context>)
      modifies this`sessionContext, this`rememberedSession, this`nextUuid
      ensures verdict == Judge(reply, createsOrder)
      ensures Abs() == Settle(old(Abs()), request, verdict)
      ensures announced ==
        if Expires(verdict) && OwnedBy(old(sessionContext), request) then Some(request.value.context) else None
    {
      announced := None;
      var bare := Classify(reply.status, None);
      if reply.body.Malformed? || (reply.body.Empty? && !SuccessStatus(reply.status)) {
        verdict := if bare != Other then AuthFailure(bare) else Connection;
        return;
      }
      var payload := if reply.body.Empty? then EMPTY_OBJECT else reply.body.payload;
      var kind := Classify(reply.status, payload.code);
      if kind == SessionExpired && request.Some? {
        announced := MarkCurrentSessionExpired(request.value);
      }
      if kind != Other { return AuthFailure(kind), announced; }
      if !SuccessStatus(reply.status) { return Connection, announced; }
      if createsOrder {
        match payload.order {
          case Refused =>
            if request.Some? { ConfirmAuthenticatedPrivateResponse(request.value); }
            return OrderRejected, announced;
          case Placed =>
          case Ambiguous => return OrderAmbiguous, announced;
        }
      }
      if !payload.success { return ApiError, announced; }
      if request.Some? { ConfirmAuthenticatedPrivateResponse(request.value); }
      return Accepted, announced;
    }

    /** An answer to an outstanding private request. */
    method AnswerRequest(id: nat, reply: Reply) returns (verdict: Verdict, announced: Option<Context>)
      requires Valid()
      requires id in requests && requests[id].signedWith.Some?
      modifies this
      ensures Valid()
      ensures Abs() == Step(old(Abs()), Answer(id, reply))
      ensures verdict == VerdictOf(old(Abs()), Answer(id, reply))
      ensures announced.Some? <==> AcceptedExpiry(old(Abs()), Answer(id, reply))
    {
      hide ApiSessionTheorems.Inv;
      ApiSessionTheorems.StepInv(Abs(), Answer(id, reply));
      hide Judge;
      var q := requests[id];
      requests := requests - {id};
      verdict, announced := ParseResponse(reply, q.createsOrder, q.session);
    }
  }
}
