/**
 The API client's session: the installed session that owns answers, the session remembered
 across disconnects, and the token under which a session expiry is announced.

 Credential digests are injective, so a fingerprint is the pair it digests. UUIDs are fresh,
 so they are drawn from a counter. Each critical section of the install lock is one step;
 sending a request is two, because the signer is read outside the lock.
 */
module ApiSessionModel {
  import opened Common

  type Account(==, !new)
  type Material(==, !new)   // normalised key, secret and base URL

  datatype Credential = Credential(valid: bool, material: Material)
  datatype Session = Session(account: Account, epoch: nat)
  datatype Context = Context(session: Session, token: nat)
  datatype Fingerprint = Fingerprint(account: Account, material: Material)
  datatype Installed = Installed(context: Context, fingerprint: Fingerprint, owner: nat, rearmPending: bool)
  datatype Remembered = Remembered(fingerprint: Fingerprint, token: nat, rearmPending: bool)

  /** A private request: the session it was captured under, and the material it was signed with. */
  datatype Request = Request(session: Option<Installed>, signedWith: Option<Material>, createsOrder: bool)

  datatype State = State(
    material: Option<Material>,
    installed: Option<Installed>,
    remembered: Option<Remembered>,
    nextUuid: nat,
    requests: map<nat, Request>)

  const INITIAL := State(None, None, None, 0, map[])

  predicate Owns(current: Installed, request: Installed) {
    && current.owner == request.owner
    && current.fingerprint == request.fingerprint
    && current.context == request.context
  }

  predicate OwnedBy(installed: Option<Installed>, request: Option<Installed>) {
    installed.Some? && request.Some? && Owns(installed.value, request.value)
  }

  // ---- Answers ------------------------------------------------------------

  datatype FailureKind = SessionExpired | Timestamp | Signature | AccessDenied | RateLimited | Other
  datatype OrderOutcome = Placed | Refused | Ambiguous
  datatype Payload = Payload(code: Option<int>, order: OrderOutcome, success: bool)
  datatype Body = Empty | Malformed | Json(payload: Payload)
  datatype Reply = Reply(status: nat, body: Body)

  /** What `{}` reads as: no code, an unclear order outcome, no field that denies success. */
  const EMPTY_OBJECT := Payload(None, Ambiguous, true)

  datatype Verdict =
    | Accepted
    | AuthFailure(kind: FailureKind)
    | Connection
    | OrderRejected
    | OrderAmbiguous
    | ApiError

  function Classify(status: nat, code: Option<int>): FailureKind {
    if status == 403 then RateLimited
    else if code.None? then Other
    else match code.value
      case 26200003 => SessionExpired
      case 20011005 => SessionExpired
      case 26200002 => Timestamp
      case 26200004 => Signature
      case 26200005 => AccessDenied
      case 26200008 => AccessDenied
      case 26200010 => AccessDenied
      case 26200006 => RateLimited
      case 26200018 => RateLimited
      case _ => Other
  }

  predicate SuccessStatus(status: nat) {
    200 <= status < 300
  }

  function Judge(reply: Reply, createsOrder: bool): Verdict {
    var bare := Classify(reply.status, None);
    if reply.body.Empty? && !SuccessStatus(reply.status) then
      (if bare != Other then AuthFailure(bare) else Connection)
    else if reply.body.Malformed? then
      (if bare != Other then AuthFailure(bare) else Connection)
    else
      var payload := if reply.body.Empty? then EMPTY_OBJECT else reply.body.payload;
      var kind := Classify(reply.status, payload.code);
      if kind != Other then AuthFailure(kind)
      else if !SuccessStatus(reply.status) then Connection
      else if createsOrder && payload.order.Refused? then OrderRejected
      else if createsOrder && payload.order.Ambiguous? then OrderAmbiguous
      else if !payload.success then ApiError
      else Accepted
  }

  /** The answer proves that the backend authenticated the request. */
  predicate Authenticates(v: Verdict) {
    v.Accepted? || v.OrderRejected?
  }

  predicate Expires(v: Verdict) {
    v == AuthFailure(SessionExpired)
  }

  // ---- Steps ----------------------------------------------------------------

  datatype Event =
    | Install(credential: Credential, session: Session)
    | SetCredential(credential: Credential)
    | Clear
    | Send(id: nat, createsOrder: bool)
    | Sign(id: nat)
    | Answer(id: nat, reply: Reply)

  function Disconnect(s: State): State {
    s.(material := None, installed := None)
  }

  function InstallSession(s: State, credential: Credential, session: Session): State {
    if !credential.valid then Disconnect(s)
    else
      var fingerprint := Fingerprint(session.account, credential.material);
      var kept := s.remembered.Some? && s.remembered.value.fingerprint == fingerprint;
      var token := if kept then s.remembered.value.token else s.nextUuid;
      var owner := if kept then s.nextUuid else s.nextUuid + 1;
      var rearm := kept && s.remembered.value.rearmPending;
      s.(material := Some(credential.material),
         installed := Some(Installed(Context(session, token), fingerprint, owner, rearm)),
         remembered := Some(Remembered(fingerprint, token, rearm)),
         nextUuid := owner + 1)
  }

  function MarkExpired(s: State, request: Installed): State {
    if !OwnedBy(s.installed, Some(request)) then s
    else
      s.(installed := Some(s.installed.value.(rearmPending := true)),
         remembered := Some(Remembered(request.fingerprint, s.installed.value.context.token, true)))
  }

  function Confirm(s: State, request: Installed): State {
    if !OwnedBy(s.installed, Some(request)) || !s.installed.value.rearmPending then s
    else
      var current := s.installed.value;
      s.(installed := Some(current.(context := current.context.(token := s.nextUuid), rearmPending := false)),
         remembered := Some(Remembered(current.fingerprint, s.nextUuid, false)),
         nextUuid := s.nextUuid + 1)
  }

  /** The effect of an answer on the session it was captured under. */
  function Settle(s: State, request: Option<Installed>, v: Verdict): State {
    if request.None? then s
    else if Expires(v) then MarkExpired(s, request.value)
    else if Authenticates(v) then Confirm(s, request.value)
    else s
  }

  predicate Answerable(s: State, id: nat) {
    id in s.requests && s.requests[id].signedWith.Some?
  }

  function Step(s: State, e: Event): State {
    match e
    case Install(credential, session) => InstallSession(s, credential, session)
    case SetCredential(credential) =>
      if credential.valid then s.(material := Some(credential.material), installed := None) else Disconnect(s)
    case Clear => Disconnect(s)
    case Send(id, createsOrder) =>
      if id in s.requests then s else s.(requests := s.requests[id := Request(s.installed, None, createsOrder)])
    case Sign(id) =>
      if id !in s.requests || s.requests[id].signedWith.Some? then s
      else if s.material.None? then s.(requests := s.requests - {id})
      else s.(requests := s.requests[id := s.requests[id].(signedWith := s.material)])
    case Answer(id, reply) =>
      if !Answerable(s, id) then s
      else
        var q := s.requests[id];
        Settle(s.(requests := s.requests - {id}), q.session, Judge(reply, q.createsOrder))
  }

  function Run(s: State, events: seq<Event>): State
    decreases |events|
  {
    if events == [] then s else Run(Step(s, events[0]), events[1..])
  }

  /** The verdict an answer event delivers to its request. */
  function VerdictOf(s: State, e: Event): Verdict
    requires e.Answer? && e.id in s.requests
  {
    Judge(e.reply, s.requests[e.id].createsOrder)
  }

  /** The answer belongs to the session now installed. */
  predicate OwnedAnswer(s: State, e: Event) {
    e.Answer? && Answerable(s, e.id) && OwnedBy(s.installed, s.requests[e.id].session)
  }

  /** An expiry that is announced, under the installed session's token. */
  predicate AcceptedExpiry(s: State, e: Event) {
    OwnedAnswer(s, e) && Expires(VerdictOf(s, e))
  }

  predicate OwnedSuccess(s: State, e: Event) {
    OwnedAnswer(s, e) && Authenticates(VerdictOf(s, e))
  }

  /** The event installs a session under some other account or credential. */
  predicate InstallsOther(e: Event, f: Fingerprint) {
    e.Install? && e.credential.valid && Fingerprint(e.session.account, e.credential.material) != f
  }
}
