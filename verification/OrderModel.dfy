/**
 The order store's submissions: intents whose outcome is not yet known, journal reads, receipts
 and acknowledgements, across reconnects and account switches.

 Each await is a cut. An action between two awaits is an operation in flight, tagged with the
 context (account, session epoch, generation) it was begun under.
 */
module OrderModel {
  import opened Common

  type Account(==, !new)
  type Link(==, !new)

  datatype Scope = Scope(account: Account, epoch: nat)
  datatype Environment = Environment(scope: Scope, connected: bool, switching: bool)
  datatype Entry = Entry(link: Link, reduceOnly: bool)
  datatype Context = Context(scope: Scope, generation: nat)

  datatype Operation =
    | Listing(context: Context)
    | PlaceWaiting(context: Context, intent: Entry, refresh: Option<nat>)
    | PlaceSent(context: Context, link: Link)
    | PlaceAcking(context: Context, link: Link)
    | PlaceSettling(context: Context, refresh: Option<nat>)
    | Querying(context: Context, link: Link)
    | QueryAcking(context: Context, link: Link)

  datatype State = State(
    env: Environment,
    generation: nat,
    pending: seq<Entry>,
    loading: bool,
    loaded: bool,
    failed: bool,
    placing: bool,
    querying: Option<Link>,
    refresh: Option<nat>,
    operations: map<nat, Operation>,
    nextOperation: nat)

  function Initial(env: Environment): State {
    State(env, 1, [], false, false, false, false, None, None, map[], 0)
  }

  datatype PlaceAnswer = Receipt | BadReceipt | CertainRejection | Blocked | Unknown
  datatype QueryAnswer = NotFound | Found | BadFound | Rejected | AckPending | QueryFailed

  datatype Event =
    | Environs(env: Environment)
    | ClearOrders
    | Refresh
    | ListAnswered(id: nat, entries: Option<seq<Entry>>)
    | BeginPlace(intent: Entry, allowed: bool)
    | ResumePlace(id: nat, permitted: bool)
    | PlaceAnswered(id: nat, placed: PlaceAnswer)
    | AckAnswered(id: nat, ok: bool)
    | SettlePlace(id: nat)
    | BeginQuery(link: Link)
    | QueryAnswered(id: nat, answer: QueryAnswer)

  // ---- The pending list ---------------------------------------------------

  /** What the list says of a link: the reduce-only flag of its first entry. */
  function Flag(list: seq<Entry>, link: Link): Option<bool> {
    if list == [] then None
    else if list[0].link == link then Some(list[0].reduceOnly)
    else Flag(list[1..], link)
  }

  function SetEntry(list: seq<Entry>, e: Entry): seq<Entry> {
    if list == [] then [e]
    else if list[0].link == e.link then [e] + list[1..]
    else [list[0]] + SetEntry(list[1..], e)
  }

  function SetAll(list: seq<Entry>, entries: seq<Entry>): seq<Entry>
    decreases |entries|
  {
    if entries == [] then list else SetAll(SetEntry(list, entries[0]), entries[1..])
  }

  /** The journal's entries override the local ones; none is dropped. */
  function Merge(pending: seq<Entry>, entries: seq<Entry>): seq<Entry> {
    SetAll(SetAll([], pending), entries)
  }

  function Without(list: seq<Entry>, link: Link): seq<Entry> {
    if list == [] then []
    else if list[0].link == link then Without(list[1..], link)
    else [list[0]] + Without(list[1..], link)
  }

  predicate Blocks(pending: seq<Entry>, reduceOnly: bool) {
    pending != [] && (!reduceOnly || exists i :: 0 <= i < |pending| && pending[i].reduceOnly)
  }

  // ---- Ownership ------------------------------------------------------------

  predicate CanRead(env: Environment) {
    env.connected && !env.switching
  }

  function ContextOf(s: State): Context {
    Context(s.env.scope, s.generation)
  }

  predicate Owned(s: State, c: Context) {
    c == ContextOf(s) && CanRead(s.env)
  }

  // ---- Steps ------------------------------------------------------------------

  function Reset(s: State, clearPending: bool): State {
    s.(generation := s.generation + 1, refresh := None, pending := if clearPending then [] else s.pending,
       loading := false, loaded := false, failed := false, querying := None, placing := false)
  }

  function ChangeEnvironment(s: State, env: Environment): State {
    if env == s.env then s else Reset(s.(env := env), env.scope != s.env.scope)
  }

  /** A refresh may join the one in flight, or have nothing to do. */
  function BeginRefresh(s: State): State {
    if !CanRead(s.env) || s.querying.Some? || s.refresh.Some? then s
    else
      s.(loading := true, failed := false, refresh := Some(s.nextOperation),
         operations := s.operations[s.nextOperation := Listing(ContextOf(s))],
         nextOperation := s.nextOperation + 1)
  }

  /** The flight an awaited refresh waits for, read off the state after `BeginRefresh`. */
  function Flight(s: State): Option<nat> {
    if !CanRead(s.env) || s.querying.Some? then None else s.refresh
  }

  function AnswerList(s: State, id: nat, entries: Option<seq<Entry>>): State {
    if id !in s.operations || !s.operations[id].Listing? then s
    else
      var t := s.(operations := s.operations - {id},
                  refresh := if s.refresh == Some(id) then None else s.refresh);
      if !Owned(s, s.operations[id].context) then t
      else if entries.None? then t.(failed := true, loading := false)
      else t.(pending := Merge(s.pending, entries.value), loaded := true, loading := false)
  }

  function StartPlace(s: State, intent: Entry, allowed: bool): State {
    if !allowed || s.placing || s.querying.Some? then s
    else
      var c := ContextOf(s);
      var t := s.(placing := true);
      var wait := !s.loaded || s.loading;
      var u := if wait then BeginRefresh(t) else t;
      u.(operations := u.operations[u.nextOperation := PlaceWaiting(c, intent, if wait then Flight(u) else None)],
         nextOperation := u.nextOperation + 1)
  }

  predicate Arrived(s: State, flight: Option<nat>) {
    flight.None? || flight.value !in s.operations
  }

  function FinishPlace(s: State, id: nat, c: Context): State {
    s.(placing := s.placing && !Owned(s, c), operations := s.operations - {id})
  }

  predicate Submits(s: State, c: Context, intent: Entry, permitted: bool) {
    permitted && Owned(s, c) && s.loaded && !s.failed && !Blocks(s.pending, intent.reduceOnly)
  }

  function Resume(s: State, id: nat, permitted: bool): State {
    if id !in s.operations || !s.operations[id].PlaceWaiting? || !Arrived(s, s.operations[id].refresh) then s
    else
      var op := s.operations[id];
      if Submits(s, op.context, op.intent, permitted)
      then s.(pending := s.pending + [op.intent],
              operations := s.operations[id := PlaceSent(op.context, op.intent.link)])
      else FinishPlace(s, id, op.context)
  }

  /** The outcome stays unknown: re-read the journal before the order form is released. */
  function Unsettled(s: State, id: nat, c: Context): State {
    var t := BeginRefresh(s);
    t.(operations := t.operations[id := PlaceSettling(c, Flight(t))])
  }

  function AnswerPlace(s: State, id: nat, answer: PlaceAnswer): State {
    if id !in s.operations || !s.operations[id].PlaceSent? then s
    else
      var op := s.operations[id];
      if !Owned(s, op.context) then FinishPlace(s, id, op.context)
      else match answer
        case Receipt => s.(operations := s.operations[id := PlaceAcking(op.context, op.link)])
        case CertainRejection => FinishPlace(s.(pending := Without(s.pending, op.link)), id, op.context)
        case Blocked => Unsettled(s.(pending := Without(s.pending, op.link)), id, op.context)
        case _ => Unsettled(s, id, op.context)
  }

  function FinishQuery(s: State, id: nat, c: Context): State {
    s.(querying := if Owned(s, c) then None else s.querying, operations := s.operations - {id})
  }

  function AnswerAck(s: State, id: nat, ok: bool): State {
    if id !in s.operations then s
    else match s.operations[id]
      case PlaceAcking(c, link) =>
        if !Owned(s, c) then FinishPlace(s, id, c)
        else if ok then FinishPlace(s.(pending := Without(s.pending, link)), id, c)
        else Unsettled(s, id, c)
      case QueryAcking(c, link) =>
        if Owned(s, c) && ok then FinishQuery(s.(pending := Without(s.pending, link)), id, c)
        else FinishQuery(s, id, c)
      case _ => s
  }

  function Settle(s: State, id: nat): State {
    if id !in s.operations || !s.operations[id].PlaceSettling? || !Arrived(s, s.operations[id].refresh) then s
    else FinishPlace(s, id, s.operations[id].context)
  }

  function StartQuery(s: State, link: Link): State {
    if !CanRead(s.env) || s.loading || s.placing || s.querying.Some? || Flag(s.pending, link).None? then s
    else
      s.(querying := Some(link), failed := false,
         operations := s.operations[s.nextOperation := Querying(ContextOf(s), link)],
         nextOperation := s.nextOperation + 1)
  }

  function AnswerQuery(s: State, id: nat, answer: QueryAnswer): State {
    if id !in s.operations || !s.operations[id].Querying? then s
    else
      var op := s.operations[id];
      if !Owned(s, op.context) then FinishQuery(s, id, op.context)
      else match answer
        case NotFound => FinishQuery(s, id, op.context)
        case AckPending => FinishQuery(s, id, op.context)
        case Found => s.(operations := s.operations[id := QueryAcking(op.context, op.link)])
        case Rejected => FinishQuery(s.(pending := Without(s.pending, op.link)), id, op.context)
        case _ => FinishQuery(s.(failed := true), id, op.context)
  }

  function Step(s: State, e: Event): State {
    match e
    case Environs(env) => ChangeEnvironment(s, env)
    case ClearOrders => BeginRefresh(Reset(s, true))
    case Refresh => BeginRefresh(s)
    case ListAnswered(id, entries) => AnswerList(s, id, entries)
    case BeginPlace(intent, allowed) => StartPlace(s, intent, allowed)
    case ResumePlace(id, permitted) => Resume(s, id, permitted)
    case PlaceAnswered(id, placed) => AnswerPlace(s, id, placed)
    case AckAnswered(id, ok) => AnswerAck(s, id, ok)
    case SettlePlace(id) => Settle(s, id)
    case BeginQuery(link) => StartQuery(s, link)
    case QueryAnswered(id, answer) => AnswerQuery(s, id, answer)
  }

  function Run(s: State, events: seq<Event>): State
    decreases |events|
  {
    if events == [] then s else Run(Step(s, events[0]), events[1..])
  }

  // ---- What happened to the intents themselves -----------------------------------

  datatype Intent = Intent(scope: Scope, reduceOnly: bool)

  /** The intent the step sends to the backend, if any. */
  function Issued(s: State, e: Event): Option<Entry> {
    if e.ResumePlace? && e.id in s.operations && s.operations[e.id].PlaceWaiting?
       && Arrived(s, s.operations[e.id].refresh)
       && Submits(s, s.operations[e.id].context, s.operations[e.id].intent, e.permitted)
    then Some(s.operations[e.id].intent) else None
  }

  /** The link whose outcome the step settles: acknowledged, certainly rejected or refused as blocked. */
  function Resolved(s: State, e: Event): Option<Link> {
    match e
    case PlaceAnswered(id, placed) =>
      if id in s.operations && s.operations[id].PlaceSent? && (placed.CertainRejection? || placed.Blocked?)
      then Some(s.operations[id].link) else None
    case AckAnswered(id, ok) =>
      if ok && id in s.operations && (s.operations[id].PlaceAcking? || s.operations[id].QueryAcking?)
      then Some(s.operations[id].link) else None
    case QueryAnswered(id, answer) =>
      if id in s.operations && s.operations[id].Querying? && answer.Rejected?
      then Some(s.operations[id].link) else None
    case _ => None
  }

  type Intents = map<Link, Intent>

  function Track(s: State, open: Intents, e: Event): Intents {
    var issued := Issued(s, e);
    var resolved := Resolved(s, e);
    if issued.Some? then open[issued.value.link := Intent(s.env.scope, issued.value.reduceOnly)]
    else if resolved.Some? then open - {resolved.value}
    else open
  }

  /** The intents sent during a run, from every account and epoch, whose outcome nobody knows yet. */
  function Unresolved(s: State, open: Intents, events: seq<Event>): Intents
    decreases |events|
  {
    if events == [] then open else Unresolved(Step(s, events[0]), Track(s, open, events[0]), events[1..])
  }

  /** The step forgets the pending list: the account or epoch changes, or the orders are cleared. */
  predicate Forgets(s: State, e: Event) {
    e.ClearOrders? || (e.Environs? && e.env.scope != s.env.scope)
  }
}
