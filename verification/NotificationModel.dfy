/**
 The notification list: first pages, further pages and summaries read for an account and filter,
 racing with confirmed mutations, change events, context switches and stops.

 A record remembers the account and filter of the request whose answer brought it.
 */
module NotificationModel {
  import opened Common

  type Account(==, !new)
  type Id(==, !new)
  type Body(==, !new)
  type Cursor(==, !new)
  type Revision(==, !new)

  datatype Filter = All | Unread | Other(name: nat)
  datatype Record = Record(id: Id, body: Body, account: Option<Account>, filter: Filter)

  /** What a request captures, and what the store must still show for its answer to count. */
  datatype Context = Context(lifecycle: nat, generation: nat, account: Option<Account>, filter: Filter)

  datatype Kind = First | More(cursor: Cursor) | Summary
  datatype Read = Read(kind: Kind, ticket: nat, epoch: nat, context: Context, revision: Option<Revision>)

  datatype Change = MarkRead(id: Id) | Remove(id: Id) | MarkAllRead | ClearAccount
  datatype Mutation = Mutation(change: Change, context: Context, revision: Option<Revision>, settling: bool)

  datatype Listing = Listing(items: seq<Record>, cursor: Option<Cursor>, needsRetry: bool)
  datatype Tickets = Tickets(page: nat, more: nat, summary: nat, epoch: nat, pageGeneration: Option<nat>)
  datatype Flags = Flags(accountReady: bool, pageInitialized: bool, initialLoading: bool, loadingMore: bool)
  datatype Refresh = Refresh(scheduled: bool, generation: nat, lifecycle: nat)
  datatype Owners = Owners(marks: map<Id, nat>, removes: map<Id, nat>, markAll: Option<nat>, clear: Option<nat>)

  datatype State = State(
    active: bool,
    context: Context,
    list: Listing,
    revision: Option<Revision>,
    tickets: Tickets,
    flags: Flags,
    activePage: Option<Read>,
    refresh: Refresh,
    owners: Owners,
    inFlight: map<nat, Read>,
    mutations: map<nat, Mutation>,
    nextRead: nat,
    sequence: nat)

  const EMPTY_LIST := Listing([], None, false)
  const NO_OWNERS := Owners(map[], map[], None, None)

  const INITIAL := State(
    false, Context(0, 0, None, All), EMPTY_LIST, None, Tickets(0, 0, 0, 0, None), Flags(false, false, false, false),
    None, Refresh(false, 0, 0), NO_OWNERS, map[], map[], 0, 0)

  datatype PageAnswer = PageAnswer(items: seq<Record>, cursor: Option<Cursor>, revision: Revision)

  datatype Event =
    | Start
    | Stop
    | SetAccount(account: Option<Account>)
    | SetFilter(filter: Filter)
    | Open(retry: bool)
    | Reload
    | LoadMore
    | RefreshSummary
    | FireRefresh
    | Changed(listener: nat, revision: Revision, previous: Option<Revision>, reset: bool, relevant: bool)
    | PageAnswered(id: nat, answer: Option<PageAnswer>)
    | SummaryAnswered(id: nat, summary: Option<Revision>)
    | Mutate(change: Change)
    | MutationAnswered(owner: nat, outcome: Option<(Revision, Option<Record>)>)
    | SweepSettled(owner: nat)

  // ---- Ownership ------------------------------------------------------------

  predicate Owns(s: State, c: Context) {
    s.active && s.context == c
  }

  predicate OwnsPage(s: State, r: Read) {
    r.ticket == s.tickets.page && r.epoch == s.tickets.epoch && Owns(s, r.context)
  }

  predicate OwnsMore(s: State, r: Read) {
    r.ticket == s.tickets.more && r.epoch == s.tickets.epoch && Owns(s, r.context)
  }

  predicate OwnsSummary(s: State, r: Read) {
    r.ticket == s.tickets.summary && r.epoch == s.tickets.epoch && Owns(s, r.context)
    && s.tickets.pageGeneration != Some(r.context.generation)
  }

  function Adopt(current: Option<Revision>, captured: Option<Revision>, next: Revision): Option<Revision> {
    if current == captured || current == Some(next) then Some(next) else current
  }

  // ---- Reads ------------------------------------------------------------------

  function Send(s: State, kind: Kind, ticket: nat): State {
    s.(inFlight := s.inFlight[s.nextRead := Read(kind, ticket, s.tickets.epoch, s.context, s.revision)],
       nextRead := s.nextRead + 1)
  }

  function QueryFirstPage(s: State): State {
    var ticket := s.tickets.page + 1;
    var t := Send(s.(tickets := s.tickets.(page := ticket), flags := s.flags.(initialLoading := true)), First, ticket);
    t.(activePage := Some(t.inFlight[s.nextRead]))
  }

  function QuerySummary(s: State): State {
    var ticket := s.tickets.summary + 1;
    Send(s.(tickets := s.tickets.(summary := ticket)), Summary, ticket)
  }

  function InvalidateLoadMore(s: State): State {
    s.(tickets := s.tickets.(more := s.tickets.more + 1), flags := s.flags.(loadingMore := false))
  }

  function QueryMore(s: State): State {
    if s.list.cursor.None? || s.flags.loadingMore then s
    else
      var ticket := s.tickets.more + 1;
      Send(s.(tickets := s.tickets.(more := ticket), flags := s.flags.(loadingMore := true)),
           More(s.list.cursor.value), ticket)
  }

  function Unknown(shown: seq<Record>, page: seq<Record>): seq<Record> {
    if page == [] then []
    else
      var rest := Unknown(shown, page[1..]);
      if exists i :: 0 <= i < |shown| && shown[i].id == page[0].id then rest else [page[0]] + rest
  }

  function AdoptPage(s: State, r: Read, a: PageAnswer): State {
    s.(list := Listing(a.items, a.cursor, false),
       revision := Adopt(s.revision, r.revision, a.revision),
       tickets := s.tickets.(pageGeneration := Some(r.context.generation)))
  }

  function AppendPage(s: State, r: Read, a: PageAnswer): State {
    s.(list := s.list.(items := s.list.items + Unknown(s.list.items, a.items), cursor := a.cursor),
       revision := Adopt(s.revision, r.revision, a.revision))
  }

  function AnswerFirst(s: State, r: Read, answer: Option<PageAnswer>): State {
    var t :=
      if !OwnsPage(s, r) then s
      else if answer.Some? then AdoptPage(s, r, answer.value)
      else s.(list := s.list.(needsRetry := true));
    t.(flags := t.flags.(initialLoading := t.flags.initialLoading && !OwnsPage(s, r)),
       activePage := if s.activePage.Some? && s.activePage.value.ticket == r.ticket then None else s.activePage)
  }

  function AnswerMore(s: State, r: Read, answer: Option<PageAnswer>): State {
    var t := if OwnsMore(s, r) && answer.Some? then AppendPage(s, r, answer.value) else s;
    var settled := r.ticket == s.tickets.more && r.epoch == s.tickets.epoch;
    t.(flags := t.flags.(loadingMore := t.flags.loadingMore && !settled))
  }

  function AnswerPage(s: State, id: nat, answer: Option<PageAnswer>): State {
    if id !in s.inFlight then s
    else
      var r := s.inFlight[id];
      var t := s.(inFlight := s.inFlight - {id});
      match r.kind
      case First => AnswerFirst(t, r, answer)
      case More(_) => AnswerMore(t, r, answer)
      case Summary => s
  }

  function AnswerSummary(s: State, id: nat, answer: Option<Revision>): State {
    if id !in s.inFlight || !s.inFlight[id].kind.Summary? then s
    else
      var r := s.inFlight[id];
      var t := s.(inFlight := s.inFlight - {id});
      if OwnsSummary(s, r) && answer.Some? then t.(revision := Adopt(s.revision, r.revision, answer.value)) else t
  }

  // ---- Context ------------------------------------------------------------------

  function NextGeneration(s: State): State {
    var t := InvalidateLoadMore(s);
    t.(context := s.context.(generation := s.context.generation + 1), owners := NO_OWNERS)
  }

  function StopStore(s: State): State {
    if !s.active then s
    else
      State(false, Context(s.context.lifecycle + 1, s.context.generation + 1, None, All), EMPTY_LIST, None,
            Tickets(s.tickets.page + 1, s.tickets.more + 1, s.tickets.summary + 1, s.tickets.epoch + 1, None),
            Flags(false, false, false, false), None, s.refresh.(scheduled := false), NO_OWNERS,
            s.inFlight, s.mutations, s.nextRead, s.sequence)
  }

  function ChangeAccount(s: State, account: Option<Account>): State {
    var t := s.(flags := s.flags.(accountReady := true));
    if s.context.account == account then t
    else
      var u := NextGeneration(t.(context := s.context.(account := account), list := EMPTY_LIST));
      var v := QuerySummary(u);
      if s.flags.pageInitialized then QueryFirstPage(v) else v
  }

  function ChangeFilter(s: State, filter: Filter): State {
    if s.context.filter == filter then s
    else
      var t := NextGeneration(s.(context := s.context.(filter := filter), list := EMPTY_LIST));
      if s.flags.pageInitialized then QueryFirstPage(t) else t
  }

  function ReloadPage(s: State): State {
    QueryFirstPage(InvalidateLoadMore(s.(flags := s.flags.(pageInitialized := true))))
  }

  function Schedule(s: State): State {
    s.(refresh := Refresh(true, s.context.generation, s.context.lifecycle))
  }

  function Fire(s: State): State {
    var t := s.(refresh := s.refresh.(scheduled := false));
    if !s.active || s.context.lifecycle != s.refresh.lifecycle || s.context.generation != s.refresh.generation then t
    else if s.flags.pageInitialized then QueryFirstPage(t)
    else QuerySummary(t)
  }

  function HandleChange(s: State, e: Event): State
    requires e.Changed?
  {
    if !s.active || s.context.lifecycle != e.listener || s.revision == Some(e.revision) then s
    else
      var continuous := !e.reset && e.previous == s.revision;
      var t := s.(revision := Some(e.revision));
      if continuous && !e.relevant then t
      else Schedule(NextGeneration(if continuous then t else t.(list := EMPTY_LIST)))
  }

  // ---- Mutations -------------------------------------------------------------------

  predicate Pending(o: Owners, c: Change) {
    match c
    case MarkRead(id) => id in o.marks
    case Remove(id) => id in o.removes
    case MarkAllRead => o.markAll.Some?
    case ClearAccount => o.clear.Some?
  }

  function Claim(o: Owners, c: Change, owner: nat): Owners {
    match c
    case MarkRead(id) => o.(marks := o.marks[id := owner])
    case Remove(id) => o.(removes := o.removes[id := owner])
    case MarkAllRead => o.(markAll := Some(owner))
    case ClearAccount => o.(clear := Some(owner))
  }

  function Release(o: Owners, c: Change, owner: nat): Owners {
    match c
    case MarkRead(id) => if id in o.marks && o.marks[id] == owner then o.(marks := o.marks - {id}) else o
    case Remove(id) => if id in o.removes && o.removes[id] == owner then o.(removes := o.removes - {id}) else o
    case MarkAllRead => if o.markAll == Some(owner) then o.(markAll := None) else o
    case ClearAccount => if o.clear == Some(owner) then o.(clear := None) else o
  }

  function BeginMutation(s: State, c: Change): State {
    if Pending(s.owners, c) || (c.ClearAccount? && s.context.account.None?) then s
    else
      var owner := s.sequence + 1;
      s.(sequence := owner, owners := Claim(s.owners, c, owner),
         mutations := s.mutations[owner := Mutation(c, s.context, s.revision, false)])
  }

  function Without(items: seq<Record>, id: Id): seq<Record> {
    if items == [] then []
    else if items[0].id == id then Without(items[1..], id)
    else [items[0]] + Without(items[1..], id)
  }

  function Substitute(items: seq<Record>, id: Id, record: Record): seq<Record> {
    seq(|items|, i requires 0 <= i < |items| => if items[i].id == id then record else items[i])
  }

  /** A confirmed mutation revokes every read in flight. */
  function InvalidateReads(s: State): State {
    s.(tickets := Tickets(s.tickets.page + 1, s.tickets.more + 1, s.tickets.summary + 1, s.tickets.epoch + 1,
                          s.tickets.pageGeneration),
       activePage := None,
       flags := s.flags.(initialLoading := false, loadingMore := false))
  }

  predicate CancelsFirstPage(s: State) {
    s.activePage.Some? && OwnsPage(s, s.activePage.value)
  }

  function AfterEdit(s: State, items: seq<Record>): State {
    var t := InvalidateReads(s.(list := s.list.(items := items)));
    if CancelsFirstPage(s) || s.list.needsRetry then Schedule(t) else t
  }

  /** A confirmed change to the whole list is followed by a fresh read. */
  function AfterSweep(s: State, clear: bool): State {
    var t := InvalidateLoadMore(InvalidateReads(s));
    var u := if clear then t.(list := EMPTY_LIST.(needsRetry := s.list.needsRetry)) else t;
    if s.flags.pageInitialized then QueryFirstPage(u) else QuerySummary(u)
  }

  function Confirm(s: State, m: Mutation, revision: Revision, record: Option<Record>): State {
    var t := s.(revision := Adopt(s.revision, m.revision, revision));
    match m.change
    case Remove(id) => AfterEdit(t, Without(s.list.items, id))
    case MarkRead(id) =>
      if m.context.filter.Unread? then AfterEdit(t, Without(s.list.items, id))
      else if record.Some? then AfterEdit(t, Substitute(s.list.items, id, record.value))
      else s
    case MarkAllRead => AfterSweep(t, false)
    case ClearAccount => AfterSweep(t, true)
  }

  predicate IsSweep(c: Change) {
    c.MarkAllRead? || c.ClearAccount?
  }

  function Retire(s: State, owner: nat, c: Change): State {
    s.(mutations := s.mutations - {owner}, owners := Release(s.owners, c, owner))
  }

  /** A confirmed sweep stays pending until the read it begins has settled. */
  function AnswerMutation(s: State, owner: nat, outcome: Option<(Revision, Option<Record>)>): State {
    if owner !in s.mutations || s.mutations[owner].settling then s
    else
      var m := s.mutations[owner];
      if !Owns(s, m.context) || outcome.None? then Retire(s, owner, m.change)
      else if IsSweep(m.change) then
        Confirm(s.(mutations := s.mutations[owner := m.(settling := true)]), m, outcome.value.0, None)
      else Confirm(Retire(s, owner, m.change), m, outcome.value.0, outcome.value.1)
  }

  function SettleSweep(s: State, owner: nat): State {
    if owner in s.mutations && s.mutations[owner].settling then Retire(s, owner, s.mutations[owner].change) else s
  }

  // ---- Runs ------------------------------------------------------------------------------

  function Step(s: State, e: Event): State {
    match e
    case Start => if s.active then s else s.(active := true, context := s.context.(lifecycle := s.context.lifecycle + 1))
    case Stop => StopStore(s)
    case SetAccount(account) => ChangeAccount(s, account)
    case SetFilter(filter) => ChangeFilter(s, filter)
    case Open(retry) => if s.flags.pageInitialized && !retry then s else ReloadPage(s)
    case Reload => ReloadPage(s)
    case LoadMore => QueryMore(s)
    case RefreshSummary => QuerySummary(s)
    case FireRefresh => Fire(s)
    case Changed(_, _, _, _, _) => HandleChange(s, e)
    case PageAnswered(id, answer) => AnswerPage(s, id, answer)
    case SummaryAnswered(id, summary) => AnswerSummary(s, id, summary)
    case Mutate(change) => BeginMutation(s, change)
    case MutationAnswered(owner, outcome) => AnswerMutation(s, owner, outcome)
    case SweepSettled(owner) => SettleSweep(s, owner)
  }

  function Run(s: State, events: seq<Event>): State
    decreases |events|
  {
    if events == [] then s else Run(Step(s, events[0]), events[1..])
  }
}
