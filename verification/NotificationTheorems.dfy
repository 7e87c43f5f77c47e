/** What the notification list shows, over every run: where its records come from and what stays gone. */
module NotificationTheorems {
  import opened Common
  import opened NotificationModel

  // ---- How one step changes the list ------------------------------------------

  datatype Effect =
    | Keep
    | Empty
    | Replace(page: seq<Record>)
    | Extend(page: seq<Record>)
    | Drop(id: Id)
    | Put(id: Id, record: Record)

  function Apply(f: Effect, items: seq<Record>): seq<Record> {
    match f
    case Keep => items
    case Empty => []
    case Replace(page) => page
    case Extend(page) => items + Unknown(items, page)
    case Drop(id) => Without(items, id)
    case Put(id, record) => Substitute(items, id, record)
  }

  predicate Confirms(s: State, e: Event) {
    && e.MutationAnswered?
    && e.owner in s.mutations && !s.mutations[e.owner].settling
    && Owns(s, s.mutations[e.owner].context)
    && e.outcome.Some?
    && (s.mutations[e.owner].change.MarkRead? && !s.mutations[e.owner].context.filter.Unread? ==>
          e.outcome.value.1.Some?)
  }

  function ConfirmEffect(m: Mutation, record: Option<Record>): Effect {
    match m.change
    case Remove(id) => Drop(id)
    case MarkRead(id) =>
      if m.context.filter.Unread? then Drop(id) else if record.Some? then Put(id, record.value) else Keep
    case MarkAllRead => Keep
    case ClearAccount => Empty
  }

  predicate Discontinuous(s: State, e: Event) {
    e.Changed? && s.active && s.context.lifecycle == e.listener && s.revision != Some(e.revision)
    && (e.reset || e.previous != s.revision)
  }

  predicate AdoptsFirst(s: State, e: Event) {
    e.PageAnswered? && e.id in s.inFlight && s.inFlight[e.id].kind.First? && OwnsPage(s, s.inFlight[e.id])
    && e.answer.Some?
  }

  predicate AdoptsMore(s: State, e: Event) {
    e.PageAnswered? && e.id in s.inFlight && s.inFlight[e.id].kind.More? && OwnsMore(s, s.inFlight[e.id])
    && e.answer.Some?
  }

  function EffectOf(s: State, e: Event): Effect {
    if Confirms(s, e) then ConfirmEffect(s.mutations[e.owner], e.outcome.value.1)
    else if AdoptsFirst(s, e) then Replace(e.answer.value.items)
    else if AdoptsMore(s, e) then Extend(e.answer.value.items)
    else if (e.Stop? && s.active) || (e.SetAccount? && e.account != s.context.account)
            || (e.SetFilter? && e.filter != s.context.filter) || Discontinuous(s, e) then Empty
    else Keep
  }

  /** The list changes as its effect says, and changing account or filter empties it. */
  ghost predicate Effective(s: State, e: Event) {
    var t := Step(s, e);
    && t.list.items == Apply(EffectOf(s, e), s.list.items)
    && ((t.context.account != s.context.account || t.context.filter != s.context.filter) ==> t.list.items == [])
  }

  lemma SwitchEffect(s: State, e: Event)
    requires e.SetAccount? || e.SetFilter? || e.Stop?
    ensures Effective(s, e)
  {
    hide Confirms, AdoptsFirst, AdoptsMore, Discontinuous;
    NothingAnswered(s, e);
  }

  lemma NothingAnswered(s: State, e: Event)
    requires !e.PageAnswered? && !e.MutationAnswered?
    ensures !Confirms(s, e) && !AdoptsFirst(s, e) && !AdoptsMore(s, e)
    ensures !e.Changed? ==> !Discontinuous(s, e)
  {
  }

  lemma QuietEffect(s: State, e: Event)
    requires e.Start? || e.Open? || e.Reload? || e.LoadMore? || e.RefreshSummary? || e.FireRefresh?
    ensures Effective(s, e)
  {
    hide Confirms, AdoptsFirst, AdoptsMore, Discontinuous;
    NothingAnswered(s, e);
  }

  lemma ChangeEffect(s: State, e: Event)
    requires e.Changed? || e.SummaryAnswered? || e.Mutate? || e.SweepSettled?
    ensures Effective(s, e)
  {
    hide Release, Claim, Pending;
  }

  lemma PageEffect(s: State, e: Event)
    requires e.PageAnswered?
    ensures Effective(s, e)
  {
    hide Unknown, Without, Substitute;
  }

  lemma MutationEffect(s: State, e: Event)
    requires e.MutationAnswered?
    ensures Effective(s, e)
  {
    hide Unknown, Without, Substitute, Release;
  }

  lemma StepEffect(s: State, e: Event)
    ensures Effective(s, e)
  {
    hide Effective;
    if e.PageAnswered? {
      PageEffect(s, e);
    } else if e.MutationAnswered? {
      MutationEffect(s, e);
    } else if e.SetAccount? || e.SetFilter? || e.Stop? {
      SwitchEffect(s, e);
    } else if e.Changed? || e.SummaryAnswered? || e.Mutate? || e.SweepSettled? {
      ChangeEffect(s, e);
    } else {
      QuietEffect(s, e);
    }
  }

  // ---- Where records come from --------------------------------------------------

  /** Every record was brought by a request for this account and filter. */
  ghost predicate From(items: seq<Record>, account: Option<Account>, filter: Filter) {
    forall i :: 0 <= i < |items| ==> items[i].account == account && items[i].filter == filter
  }

  ghost predicate DistinctIds(items: seq<Record>) {
    forall i, j :: 0 <= i < j < |items| ==> items[i].id != items[j].id
  }

  /** Answers speak for the request they answer, and no page lists an id twice. */
  ghost predicate Honest(s: State, e: Event) {
    match e
    case PageAnswered(id, answer) =>
      id in s.inFlight && answer.Some? ==>
        var c := s.inFlight[id].context;
        From(answer.value.items, c.account, c.filter) && DistinctIds(answer.value.items)
    case MutationAnswered(owner, outcome) =>
      owner in s.mutations && outcome.Some? && outcome.value.1.Some? && s.mutations[owner].change.MarkRead? ==>
        var m, record := s.mutations[owner], outcome.value.1.value;
        record.id == m.change.id && record.account == m.context.account && record.filter == m.context.filter
    case _ => true
  }

  ghost predicate HonestRun(s: State, events: seq<Event>)
    decreases |events|
  {
    events == [] || (Honest(s, events[0]) && HonestRun(Step(s, events[0]), events[1..]))
  }

  ghost predicate HonestEffect(f: Effect, account: Option<Account>, filter: Filter) {
    match f
    case Replace(page) => From(page, account, filter) && DistinctIds(page)
    case Extend(page) => From(page, account, filter) && DistinctIds(page)
    case Put(id, record) => record.id == id && record.account == account && record.filter == filter
    case _ => true
  }

  lemma EffectIsHonest(s: State, e: Event)
    requires Honest(s, e)
    ensures HonestEffect(EffectOf(s, e), s.context.account, s.context.filter)
  {
    hide From, DistinctIds;
  }

  lemma {:induction false} UnknownOfPage(shown: seq<Record>, page: seq<Record>)
    ensures forall i :: 0 <= i < |Unknown(shown, page)| ==>
      && Unknown(shown, page)[i] in page
      && forall j :: 0 <= j < |shown| ==> shown[j].id != Unknown(shown, page)[i].id
    ensures DistinctIds(page) ==> DistinctIds(Unknown(shown, page))
  {
    if page != [] {
      UnknownOfPage(shown, page[1..]);
      var rest := Unknown(shown, page[1..]);
      if DistinctIds(page) {
        forall i | 0 <= i < |rest|
          ensures rest[i].id != page[0].id
        {
          var k :| 0 <= k < |page[1..]| && page[1..][k] == rest[i];
          assert page[k + 1] == rest[i];
        }
        forall i, j | 0 <= i < j < |page[1..]|
          ensures page[1..][i].id != page[1..][j].id
        {
          assert page[1..][i] == page[i + 1] && page[1..][j] == page[j + 1];
        }
        assert DistinctIds(page[1..]);
      }
    }
  }

  lemma {:induction false} WithoutKeeps(items: seq<Record>, id: Id)
    ensures forall i :: 0 <= i < |Without(items, id)| ==> Without(items, id)[i] in items && Without(items, id)[i].id != id
    ensures DistinctIds(items) ==> DistinctIds(Without(items, id))
  {
    if items != [] {
      WithoutKeeps(items[1..], id);
      var rest := Without(items[1..], id);
      if DistinctIds(items) {
        forall i | 0 <= i < |rest|
          ensures rest[i].id != items[0].id
        {
          var k :| 0 <= k < |items[1..]| && items[1..][k] == rest[i];
          assert items[k + 1] == rest[i];
        }
        forall i, j | 0 <= i < j < |items[1..]|
          ensures items[1..][i].id != items[1..][j].id
        {
          assert items[1..][i] == items[i + 1] && items[1..][j] == items[j + 1];
        }
        assert DistinctIds(items[1..]);
      }
    }
  }

  lemma FromMembers(items: seq<Record>, part: seq<Record>, account: Option<Account>, filter: Filter)
    requires From(items, account, filter)
    requires forall i :: 0 <= i < |part| ==> part[i] in items
    ensures From(part, account, filter)
  {
    forall i | 0 <= i < |part|
      ensures part[i].account == account && part[i].filter == filter
    {
      var k :| 0 <= k < |items| && items[k] == part[i];
    }
  }

  lemma ApplyHonest(f: Effect, items: seq<Record>, account: Option<Account>, filter: Filter)
    requires From(items, account, filter) && DistinctIds(items) && HonestEffect(f, account, filter)
    ensures From(Apply(f, items), account, filter) && DistinctIds(Apply(f, items))
  {
    match f
    case Drop(id) =>
      WithoutKeeps(items, id);
      FromMembers(items, Without(items, id), account, filter);
    case Extend(page) =>
      UnknownOfPage(items, page);
      FromMembers(page, Unknown(items, page), account, filter);
    case _ =>
  }

  ghost predicate Belongs(s: State) {
    From(s.list.items, s.context.account, s.context.filter) && DistinctIds(s.list.items)
  }

  lemma StepBelongs(s: State, e: Event)
    requires Belongs(s) && Honest(s, e)
    ensures Belongs(Step(s, e))
  {
    StepEffect(s, e);
    EffectIsHonest(s, e);
    ApplyHonest(EffectOf(s, e), s.list.items, s.context.account, s.context.filter);
    hide Step, EffectOf, Apply, HonestEffect;
  }

  /** The shown records come only from requests under the account and filter now selected, each id once. */
  lemma {:induction false} ShownRecordsBelong(s: State, events: seq<Event>)
    requires Belongs(s) && HonestRun(s, events)
    ensures Belongs(Run(s, events))
    decreases |events|
  {
    if events != [] {
      hide Belongs, Step, Honest;
      StepBelongs(s, events[0]);
      ShownRecordsBelong(Step(s, events[0]), events[1..]);
    }
  }

  lemma ShownRecordsBelongFromStart(events: seq<Event>)
    requires HonestRun(INITIAL, events)
    ensures var s := Run(INITIAL, events);
      && (forall i :: 0 <= i < |s.list.items| ==>
            s.list.items[i].account == s.context.account && s.list.items[i].filter == s.context.filter)
      && (forall i, j :: 0 <= i < j < |s.list.items| ==> s.list.items[i].id != s.list.items[j].id)
  {
    ShownRecordsBelong(INITIAL, events);
  }

  // ---- Reads sent before a confirmed mutation ----------------------------------------

  function TicketOf(t: Tickets, k: Kind): nat {
    match k
    case First => t.page
    case More(_) => t.more
    case Summary => t.summary
  }

  /** Every read in flight was sent in the past. */
  ghost predicate Past(s: State) {
    forall id :: id in s.inFlight ==>
      var r := s.inFlight[id];
      && id < s.nextRead && r.epoch <= s.tickets.epoch
      && r.context.generation <= s.context.generation && r.context.lifecycle <= s.context.lifecycle
      && r.ticket <= TicketOf(s.tickets, r.kind)
  }

  /** Tickets, epochs, generations and lifecycles never fall. */
  ghost predicate Later(s: State, t: State) {
    && s.tickets.epoch <= t.tickets.epoch && s.tickets.page <= t.tickets.page
    && s.tickets.more <= t.tickets.more && s.tickets.summary <= t.tickets.summary
    && s.context.generation <= t.context.generation && s.context.lifecycle <= t.context.lifecycle
    && s.nextRead <= t.nextRead
  }

  /** Reads are sent under new numbers and tickets and never altered. */
  ghost predicate Advances(s: State, t: State) {
    && Later(s, t)
    && (forall id :: id in t.inFlight ==>
          || (id in s.inFlight && t.inFlight[id] == s.inFlight[id])
          || (s.nextRead <= id < t.nextRead && t.inFlight[id].ticket > TicketOf(s.tickets, t.inFlight[id].kind)))
    && (Past(s) ==> Past(t))
  }

  lemma Transitive(s: State, t: State, u: State)
    requires Advances(s, t) && Advances(t, u)
    ensures Advances(s, u)
  {
    hide Past;
  }

  /** Nothing is sent. */
  lemma Quiet(s: State, t: State)
    requires Later(s, t)
    requires forall id :: id in t.inFlight ==> id in s.inFlight && t.inFlight[id] == s.inFlight[id]
    ensures Advances(s, t)
  {
    if Past(s) {
      forall id | id in t.inFlight
        ensures id < t.nextRead && t.inFlight[id].ticket <= TicketOf(t.tickets, t.inFlight[id].kind)
      {
        assert id < s.nextRead;
      }
    }
  }

  lemma SendAdvances(s: State, t: State, kind: Kind)
    requires Later(s, t) && t.inFlight == s.inFlight && t.nextRead == s.nextRead
    requires TicketOf(t.tickets, kind) > TicketOf(s.tickets, kind)
    ensures Advances(s, Send(t, kind, TicketOf(t.tickets, kind)))
  {
  }

  lemma FirstPageAdvances(s: State)
    ensures Advances(s, QueryFirstPage(s))
  {
    hide Advances;
    var t := s.(tickets := s.tickets.(page := s.tickets.page + 1), flags := s.flags.(initialLoading := true));
    SendAdvances(s, t, First);
    var u := Send(t, First, t.tickets.page);
    Quiet(u, QueryFirstPage(s));
    Transitive(s, u, QueryFirstPage(s));
  }

  lemma SummaryAdvances(s: State)
    ensures Advances(s, QuerySummary(s))
  {
    hide Advances;
    SendAdvances(s, s.(tickets := s.tickets.(summary := s.tickets.summary + 1)), Summary);
  }

  lemma MoreAdvances(s: State)
    ensures Advances(s, QueryMore(s))
  {
    hide Advances;
    Quiet(s, s);
    if s.list.cursor.Some? && !s.flags.loadingMore {
      var t := s.(tickets := s.tickets.(more := s.tickets.more + 1), flags := s.flags.(loadingMore := true));
      SendAdvances(s, t, More(s.list.cursor.value));
    }
  }

  lemma ReadAgainAdvances(s: State, t: State, page: bool)
    requires Advances(s, t)
    ensures Advances(s, if page then QueryFirstPage(t) else QuerySummary(t))
  {
    hide Advances;
    FirstPageAdvances(t);
    SummaryAdvances(t);
    Transitive(s, t, if page then QueryFirstPage(t) else QuerySummary(t));
  }

  lemma SwitchAdvances(s: State, e: Event)
    requires e.SetAccount? || e.SetFilter?
    ensures Advances(s, Step(s, e))
  {
    hide Advances, QueryFirstPage, QuerySummary;
    if e.SetAccount? {
      var t := s.(flags := s.flags.(accountReady := true));
      Quiet(s, t);
      if s.context.account != e.account {
        var u := NextGeneration(t.(context := s.context.(account := e.account), list := EMPTY_LIST));
        Quiet(s, u);
        ReadAgainAdvances(s, u, false);
        ReadAgainAdvances(s, QuerySummary(u), true);
      }
    } else {
      Quiet(s, s);
      if s.context.filter != e.filter {
        var u := NextGeneration(s.(context := s.context.(filter := e.filter), list := EMPTY_LIST));
        Quiet(s, u);
        ReadAgainAdvances(s, u, true);
      }
    }
  }

  lemma ReloadAdvances(s: State)
    ensures Advances(s, ReloadPage(s))
  {
    hide Advances, QueryFirstPage;
    var t := InvalidateLoadMore(s.(flags := s.flags.(pageInitialized := true)));
    Quiet(s, t);
    ReadAgainAdvances(s, t, true);
  }

  lemma FireAdvances(s: State)
    ensures Advances(s, Fire(s))
  {
    hide Advances, QueryFirstPage, QuerySummary;
    var t := s.(refresh := s.refresh.(scheduled := false));
    Quiet(s, t);
    ReadAgainAdvances(s, t, s.flags.pageInitialized);
  }

  lemma SweepAdvances(s: State, t: State, clear: bool)
    requires Advances(s, t)
    ensures Advances(s, AfterSweep(t, clear))
  {
    hide Advances, QueryFirstPage, QuerySummary;
    var u := InvalidateLoadMore(InvalidateReads(t));
    var v := if clear then u.(list := EMPTY_LIST.(needsRetry := t.list.needsRetry)) else u;
    Quiet(t, v);
    Transitive(s, t, v);
    ReadAgainAdvances(s, v, t.flags.pageInitialized);
  }

  lemma EditAdvances(s: State, t: State, items: seq<Record>)
    requires Advances(s, t)
    ensures Advances(s, AfterEdit(t, items))
  {
    hide Advances;
    Quiet(t, AfterEdit(t, items));
    Transitive(s, t, AfterEdit(t, items));
  }

  lemma ConfirmAdvances(s: State, t: State, m: Mutation, revision: Revision, record: Option<Record>)
    requires Advances(s, t)
    ensures Advances(s, Confirm(t, m, revision, record))
  {
    hide Advances, AfterEdit, AfterSweep, Without, Substitute;
    var u := t.(revision := Adopt(t.revision, m.revision, revision));
    Quiet(t, u);
    Transitive(s, t, u);
    match m.change
    case Remove(id) => EditAdvances(s, u, Without(t.list.items, id));
    case MarkRead(id) =>
      EditAdvances(s, u, Without(t.list.items, id));
      if record.Some? { EditAdvances(s, u, Substitute(t.list.items, id, record.value)); }
    case MarkAllRead => SweepAdvances(s, u, false);
    case ClearAccount => SweepAdvances(s, u, true);
  }

  lemma MutationAdvances(s: State, owner: nat, outcome: Option<(Revision, Option<Record>)>)
    ensures Advances(s, AnswerMutation(s, owner, outcome))
  {
    hide Advances, Confirm, Release;
    Quiet(s, s);
    if owner in s.mutations && !s.mutations[owner].settling {
      var m := s.mutations[owner];
      var t := Retire(s, owner, m.change);
      var u := s.(mutations := s.mutations[owner := m.(settling := true)]);
      Quiet(s, t);
      Quiet(s, u);
      if outcome.Some? {
        ConfirmAdvances(s, t, m, outcome.value.0, outcome.value.1);
        ConfirmAdvances(s, u, m, outcome.value.0, None);
      }
    }
  }

  lemma PageAdvances(s: State, e: Event)
    requires e.PageAnswered? || e.SummaryAnswered?
    ensures Advances(s, Step(s, e))
  {
    hide Advances, Unknown;
    Quiet(s, Step(s, e));
  }

  lemma OtherAdvances(s: State, e: Event)
    requires e.Start? || e.Stop? || e.Changed? || e.Mutate? || e.SweepSettled?
    ensures Advances(s, Step(s, e))
  {
    hide Advances, Claim, Release, Pending;
    Quiet(s, Step(s, e));
  }

  lemma StepAdvances(s: State, e: Event)
    ensures Advances(s, Step(s, e))
  {
    hide Advances;
    match e
    case SetAccount(_) => SwitchAdvances(s, e);
    case SetFilter(_) => SwitchAdvances(s, e);
    case Open(_) =>
      Quiet(s, s);
      ReloadAdvances(s);
    case Reload => ReloadAdvances(s);
    case LoadMore => MoreAdvances(s);
    case RefreshSummary => SummaryAdvances(s);
    case FireRefresh => FireAdvances(s);
    case PageAnswered(_, _) => PageAdvances(s, e);
    case SummaryAnswered(_, _) => PageAdvances(s, e);
    case MutationAnswered(owner, outcome) => MutationAdvances(s, owner, outcome);
    case _ => OtherAdvances(s, e);
  }

  /** All reads numbered below `bound` belong to an earlier authority epoch. */
  ghost predicate Revoked(s: State, bound: nat) {
    bound <= s.nextRead && forall id :: id in s.inFlight && id < bound ==> s.inFlight[id].epoch < s.tickets.epoch
  }

  lemma StepRevoked(s: State, e: Event, bound: nat)
    requires Revoked(s, bound)
    ensures Revoked(Step(s, e), bound)
  {
    StepAdvances(s, e);
    hide Step;
  }

  /** The answer to a revoked read changes neither the list, the revision, the context nor the authority. */
  lemma RevokedAnswerChangesNothing(s: State, e: Event, bound: nat)
    requires Revoked(s, bound) && (e.PageAnswered? || e.SummaryAnswered?) && e.id < bound
    ensures var t := Step(s, e);
      && t.list == s.list && t.revision == s.revision && t.context == s.context && t.active == s.active
      && t.tickets == s.tickets && t.owners == s.owners && t.mutations == s.mutations && t.flags == s.flags
  {
    hide Unknown;
  }

  lemma {:induction false} RunRevoked(s: State, events: seq<Event>, bound: nat)
    requires Revoked(s, bound)
    ensures Revoked(Run(s, events), bound)
    decreases |events|
  {
    if events != [] {
      StepRevoked(s, events[0], bound);
      RunRevoked(Step(s, events[0]), events[1..], bound);
    }
  }

  lemma {:induction false} RunPast(s: State, events: seq<Event>)
    requires Past(s)
    ensures Past(Run(s, events))
    decreases |events|
  {
    if events != [] {
      StepAdvances(s, events[0]);
      RunPast(Step(s, events[0]), events[1..]);
    }
  }

  lemma ConfirmedMutationRevokes(s: State, e: Event)
    requires Past(s) && Confirms(s, e)
    ensures Revoked(Step(s, e), s.nextRead)
  {
    hide Step;
    StepAdvances(s, e);
    ConfirmRaisesEpoch(s, e);
  }

  /**
   Once a mutation is confirmed, no read sent before it can ever change what is shown, however
   late its answer comes.
   */
  lemma MutationOutlivesEarlierReads(before: seq<Event>, e: Event, after: seq<Event>, late: Event)
    requires Confirms(Run(INITIAL, before), e)
    requires (late.PageAnswered? || late.SummaryAnswered?) && late.id < Run(INITIAL, before).nextRead
    ensures var s := Run(Step(Run(INITIAL, before), e), after);
      var t := Step(s, late);
      t.list == s.list && t.revision == s.revision && t.context == s.context && t.tickets == s.tickets
  {
    var s := Run(INITIAL, before);
    RunPast(INITIAL, before);
    ConfirmedMutationRevokes(s, e);
    RunRevoked(Step(s, e), after, s.nextRead);
    RevokedAnswerChangesNothing(Run(Step(s, e), after), late, s.nextRead);
  }

  // ---- Contexts ------------------------------------------------------------------------------

  /** Within a lifecycle and generation nothing that an answer is checked against changes. */
  ghost predicate SameUnlessLater(s: State, t: State) {
    && s.context.generation <= t.context.generation && s.context.lifecycle <= t.context.lifecycle
    && (s.context.generation == t.context.generation && s.context.lifecycle == t.context.lifecycle ==>
          t.context == s.context && t.active == s.active)
  }

  lemma StepContext(s: State, e: Event)
    ensures SameUnlessLater(s, Step(s, e))
  {
    if e.MutationAnswered? {
      MutationContext(s, e.owner, e.outcome);
    } else {
      hide Unknown, Release, Claim, Pending;
    }
  }

  lemma MutationContext(s: State, owner: nat, outcome: Option<(Revision, Option<Record>)>)
    ensures AnswerMutation(s, owner, outcome).context == s.context && AnswerMutation(s, owner, outcome).active == s.active
  {
    hide Without, Substitute, Release;
  }

  lemma {:induction false} RunContext(s: State, events: seq<Event>)
    ensures SameUnlessLater(s, Run(s, events))
    decreases |events|
  {
    if events != [] {
      StepContext(s, events[0]);
      RunContext(Step(s, events[0]), events[1..]);
      hide Step;
    }
  }

  /** A context captured at any moment, once it no longer owns the store, never owns it again. */
  lemma LostContextIsForever(s: State, between: seq<Event>, after: seq<Event>)
    requires !Owns(Run(s, between), s.context)
    ensures !Owns(Run(Run(s, between), after), s.context)
  {
    RunContext(s, between);
    RunContext(Run(s, between), after);
    hide Run;
  }

  // ---- Removal ------------------------------------------------------------------------------

  ghost predicate Lacks(items: seq<Record>, id: Id) {
    forall i :: 0 <= i < |items| ==> items[i].id != id
  }

  /** Reads sent since the removal no longer list the record. */
  ghost predicate Forgets(e: Event, bound: nat, id: Id) {
    e.PageAnswered? && e.id >= bound && e.answer.Some? ==> Lacks(e.answer.value.items, id)
  }

  lemma ApplyLacks(f: Effect, items: seq<Record>, id: Id)
    requires Lacks(items, id)
    requires f.Replace? || f.Extend? ==> Lacks(f.page, id)
    requires f.Put? ==> f.record.id == f.id
    ensures Lacks(Apply(f, items), id)
  {
    match f
    case Drop(gone) =>
      WithoutKeeps(items, gone);
      MembersLack(items, Without(items, gone), id);
    case Extend(page) =>
      UnknownOfPage(items, page);
      MembersLack(page, Unknown(items, page), id);
    case _ =>
  }

  lemma MembersLack(items: seq<Record>, part: seq<Record>, id: Id)
    requires Lacks(items, id) && forall i :: 0 <= i < |part| ==> part[i] in items
    ensures Lacks(part, id)
  {
    forall i | 0 <= i < |part|
      ensures part[i].id != id
    {
      var k :| 0 <= k < |items| && items[k] == part[i];
    }
  }

  lemma StepLacks(s: State, e: Event, bound: nat, id: Id)
    requires Revoked(s, bound) && Lacks(s.list.items, id) && Forgets(e, bound, id) && Honest(s, e)
    ensures Lacks(Step(s, e).list.items, id)
  {
    StepEffect(s, e);
    EffectIsHonest(s, e);
    EffectOfRead(s, e, bound);
    hide Step, EffectOf, Lacks, From, DistinctIds, Apply;
    ApplyLacks(EffectOf(s, e), s.list.items, id);
  }

  lemma EffectOfRead(s: State, e: Event, bound: nat)
    requires Revoked(s, bound)
    ensures var f := EffectOf(s, e);
      f.Replace? || f.Extend? ==> e.PageAnswered? && e.id >= bound && e.answer.Some? && f.page == e.answer.value.items
  {
  }

  ghost predicate ForgetsAll(events: seq<Event>, bound: nat, id: Id) {
    forall i :: 0 <= i < |events| ==> Forgets(events[i], bound, id)
  }

  lemma {:induction false} RunLacks(s: State, events: seq<Event>, bound: nat, id: Id)
    requires Revoked(s, bound) && Lacks(s.list.items, id) && ForgetsAll(events, bound, id) && HonestRun(s, events)
    ensures Lacks(Run(s, events).list.items, id)
    decreases |events|
  {
    if events != [] {
      assert Forgets(events[0], bound, id);
      assert ForgetsAll(events[1..], bound, id);
      StepLacks(s, events[0], bound, id);
      StepRevoked(s, events[0], bound);
      RunLacks(Step(s, events[0]), events[1..], bound, id);
    }
  }

  /** The confirmed answer takes this record off the list: it was removed, or read under the unread filter. */
  predicate TakesOff(s: State, e: Event, id: Id) {
    Confirms(s, e) && ConfirmEffect(s.mutations[e.owner], e.outcome.value.1) == Drop(id)
  }

  /** Once a record is taken off, answers to earlier requests never bring it back. */
  lemma TakenOffStaysOff(before: seq<Event>, e: Event, after: seq<Event>, id: Id)
    requires TakesOff(Run(INITIAL, before), e, id)
    requires HonestRun(Step(Run(INITIAL, before), e), after)
    requires ForgetsAll(after, Run(INITIAL, before).nextRead, id)
    ensures Lacks(Run(Step(Run(INITIAL, before), e), after).list.items, id)
  {
    var s := Run(INITIAL, before);
    RunPast(INITIAL, before);
    ConfirmedMutationRevokes(s, e);
    StepEffect(s, e);
    WithoutKeeps(s.list.items, id);
    assert Lacks(Step(s, e).list.items, id);
    RunLacks(Step(s, e), after, s.nextRead, id);
  }

  // ---- Paging ---------------------------------------------------------------------------------

  /** The cursor left by the last first page adopted, or the one there was. */
  function LastCursor(s: State, cursor: Option<Cursor>, events: seq<Event>): Option<Cursor>
    decreases |events|
  {
    if events == [] then cursor
    else
      LastCursor(Step(s, events[0]), if AdoptsFirst(s, events[0]) then events[0].answer.value.cursor else cursor,
                 events[1..])
  }

  /** The further page is in flight, and any other one in flight has an older ticket. */
  ghost predicate Alone(s: State, id: nat, r: Read) {
    && id in s.inFlight && s.inFlight[id] == r && r.kind.More?
    && forall j :: j in s.inFlight && s.inFlight[j].kind.More? && j != id ==> s.inFlight[j].ticket < r.ticket
  }

  /** A read that owns the list next owns it now, and what happens to the cursor meanwhile. */
  lemma StepCursor(s: State, e: Event, id: nat, r: Read)
    requires Past(s) && Alone(s, id, r) && OwnsMore(Step(s, e), r) && id in Step(s, e).inFlight
    ensures OwnsMore(s, r)
    ensures Step(s, e).list.cursor == if AdoptsFirst(s, e) then e.answer.value.cursor else s.list.cursor
  {
    StepAdvances(s, e);
    if e.SetAccount? || e.SetFilter? || e.Stop? {
      SwitchCursor(s, e, r);
    } else if e.PageAnswered? {
      PageCursor(s, e, id, r);
    } else if e.MutationAnswered? {
      ConfirmCursor(s, e, r);
    } else {
      OtherCursor(s, e, r);
    }
  }

  lemma SwitchCursor(s: State, e: Event, r: Read)
    requires e.SetAccount? || e.SetFilter? || e.Stop?
    requires OwnsMore(Step(s, e), r) && r.ticket <= s.tickets.more
    ensures OwnsMore(s, r) && Step(s, e).list.cursor == s.list.cursor
  {
  }

  lemma PageCursor(s: State, e: Event, id: nat, r: Read)
    requires e.PageAnswered? && Alone(s, id, r) && OwnsMore(Step(s, e), r) && id in Step(s, e).inFlight
    ensures OwnsMore(s, r)
    ensures Step(s, e).list.cursor == if AdoptsFirst(s, e) then e.answer.value.cursor else s.list.cursor
  {
    hide Unknown;
  }

  lemma ConfirmCursor(s: State, e: Event, r: Read)
    requires e.MutationAnswered? && OwnsMore(Step(s, e), r) && r.epoch <= s.tickets.epoch
    ensures OwnsMore(s, r) && Step(s, e).list.cursor == s.list.cursor
  {
    hide Release, Without, Substitute;
    if Confirms(s, e) {
      ConfirmRaisesEpoch(s, e);
      assert false;
    }
  }

  lemma ConfirmRaisesEpoch(s: State, e: Event)
    requires Confirms(s, e)
    ensures Step(s, e).tickets.epoch == s.tickets.epoch + 1
  {
    hide Release, Without, Substitute;
  }

  lemma OtherCursor(s: State, e: Event, r: Read)
    requires !e.SetAccount? && !e.SetFilter? && !e.Stop? && !e.PageAnswered? && !e.MutationAnswered?
    requires OwnsMore(Step(s, e), r) && r.ticket <= s.tickets.more && r.context.lifecycle <= s.context.lifecycle
    ensures OwnsMore(s, r) && Step(s, e).list.cursor == s.list.cursor
  {
    hide Release, Claim, Pending;
  }

  lemma StepAlone(s: State, e: Event, id: nat, r: Read)
    requires Past(s) && Alone(s, id, r) && r.ticket == s.tickets.more
    requires id in Step(s, e).inFlight && Step(s, e).tickets.more == r.ticket
    ensures Alone(Step(s, e), id, r)
  {
    StepAdvances(s, e);
    StepPast(s, e);
    var t := Step(s, e);
    hide Step;
    assert t.inFlight[id] == r;
    forall j | j in t.inFlight && t.inFlight[j].kind.More? && j != id
      ensures t.inFlight[j].ticket < r.ticket
    {
      assert t.inFlight[j].ticket <= t.tickets.more;
    }
  }

  lemma StepPast(s: State, e: Event)
    requires Past(s)
    ensures Past(Step(s, e))
  {
    StepAdvances(s, e);
  }

  lemma {:induction false} RunLater(s: State, events: seq<Event>)
    ensures Later(s, Run(s, events))
    ensures forall id :: id in Run(s, events).inFlight && id < s.nextRead ==> id in s.inFlight
    decreases |events|
  {
    if events != [] {
      StepAdvances(s, events[0]);
      RunLater(Step(s, events[0]), events[1..]);
      hide Step;
    }
  }

  lemma {:induction false} RunCursor(s: State, events: seq<Event>, id: nat, r: Read)
    requires Past(s) && Alone(s, id, r) && r.ticket == s.tickets.more
    requires OwnsMore(Run(s, events), r) && id in Run(s, events).inFlight
    ensures Run(s, events).list.cursor == LastCursor(s, s.list.cursor, events)
    decreases |events|
  {
    if events != [] {
      var t := Step(s, events[0]);
      StepAdvances(s, events[0]);
      RunLater(t, events[1..]);
      hide Step, Alone;
      StepAlone(s, events[0], id, r);
      StepPast(s, events[0]);
      RunCursor(t, events[1..], id, r);
      RunOwnsMore(t, events[1..], id, r);
      StepCursor(s, events[0], id, r);
    }
  }

  lemma {:induction false} RunOwnsMore(s: State, events: seq<Event>, id: nat, r: Read)
    requires Past(s) && Alone(s, id, r) && r.ticket == s.tickets.more
    requires OwnsMore(Run(s, events), r) && id in Run(s, events).inFlight
    ensures OwnsMore(s, r)
    decreases |events|
  {
    if events != [] {
      var t := Step(s, events[0]);
      StepAdvances(s, events[0]);
      RunLater(t, events[1..]);
      hide Step, Alone;
      StepAlone(s, events[0], id, r);
      StepPast(s, events[0]);
      RunOwnsMore(t, events[1..], id, r);
      StepCursor(s, events[0], id, r);
    }
  }

  /** Event i adopts a first page, and nothing after it does. */
  ghost predicate LastFirst(s: State, events: seq<Event>, i: nat)
    requires i < |events|
  {
    && AdoptsFirst(Run(s, events[..i]), events[i])
    && forall j :: i < j < |events| ==> !AdoptsFirst(Run(s, events[..j]), events[j])
  }

  lemma RunTail(s: State, events: seq<Event>, i: nat)
    requires i < |events|
    ensures Run(s, events[..i + 1]) == Run(Step(s, events[0]), events[1..][..i])
  {
    assert events[..i + 1][1..] == events[1..][..i];
  }

  lemma LastFirstTail(s: State, events: seq<Event>)
    requires events != []
    ensures forall i: nat :: i < |events[1..]| ==>
      (LastFirst(s, events, i + 1) <==> LastFirst(Step(s, events[0]), events[1..], i))
    ensures LastFirst(s, events, 0) <==>
      && AdoptsFirst(s, events[0])
      && forall j: nat :: j < |events[1..]| ==> !AdoptsFirst(Run(Step(s, events[0]), events[1..][..j]), events[1..][j])
  {
    var t, rest := Step(s, events[0]), events[1..];
    assert events[..0] == [];
    forall i: nat | i < |rest|
      ensures Run(s, events[..i + 1]) == Run(t, rest[..i]) && events[i + 1] == rest[i]
    {
      RunTail(s, events, i);
    }
    hide Run, Step, AdoptsFirst;
    forall i: nat | i < |rest|
      ensures LastFirst(s, events, i + 1) <==> LastFirst(t, rest, i)
    {
      if LastFirst(s, events, i + 1) {
        forall j | i < j < |rest|
          ensures !AdoptsFirst(Run(t, rest[..j]), rest[j])
        {
          assert !AdoptsFirst(Run(s, events[..j + 1]), events[j + 1]);
        }
      }
      if LastFirst(t, rest, i) {
        forall j | i + 1 < j < |events|
          ensures !AdoptsFirst(Run(s, events[..j]), events[j])
        {
          assert Run(s, events[..(j - 1) + 1]) == Run(t, rest[..j - 1]);
        }
      }
    }
    if LastFirst(s, events, 0) {
      forall j: nat | j < |rest|
        ensures !AdoptsFirst(Run(t, rest[..j]), rest[j])
      {
        assert !AdoptsFirst(Run(s, events[..j + 1]), events[j + 1]);
      }
    }
    if AdoptsFirst(s, events[0]) && forall j: nat :: j < |rest| ==> !AdoptsFirst(Run(t, rest[..j]), rest[j]) {
      assert Run(s, events[..0]) == s;
      forall j | 0 < j < |events|
        ensures !AdoptsFirst(Run(s, events[..j]), events[j])
      {
        assert Run(s, events[..(j - 1) + 1]) == Run(t, rest[..j - 1]);
      }
    }
  }

  /** If any first page is adopted, one is adopted last. */
  lemma {:induction false} SomeLastFirst(s: State, events: seq<Event>, i: nat)
    requires i < |events| && AdoptsFirst(Run(s, events[..i]), events[i])
    ensures exists k: nat :: k < |events| && LastFirst(s, events, k)
    decreases |events| - i
  {
    if j: nat :| i < j < |events| && AdoptsFirst(Run(s, events[..j]), events[j]) {
      SomeLastFirst(s, events, j);
    } else {
      assert LastFirst(s, events, i);
    }
  }

  /** The last cursor is that of the first page adopted last, and the old one if none was adopted. */
  lemma {:induction false} LastCursorIs(s: State, cursor: Option<Cursor>, events: seq<Event>)
    ensures forall i: nat :: i < |events| && LastFirst(s, events, i) ==>
      events[i].answer.Some? && LastCursor(s, cursor, events) == events[i].answer.value.cursor
    ensures (forall i: nat :: i < |events| ==> !LastFirst(s, events, i)) ==> LastCursor(s, cursor, events) == cursor
    decreases |events|
  {
    if events != [] {
      var t, rest := Step(s, events[0]), events[1..];
      var next := if AdoptsFirst(s, events[0]) then events[0].answer.value.cursor else cursor;
      LastCursorIs(t, next, rest);
      LastFirstTail(s, events);
      assert LastCursor(s, cursor, events) == LastCursor(t, next, rest);
      hide Run, Step, LastFirst, LastCursor;
      forall i: nat | i < |events| && LastFirst(s, events, i)
        ensures events[i].answer.Some? && LastCursor(s, cursor, events) == events[i].answer.value.cursor
      {
        if i > 0 {
          assert LastFirst(s, events, (i - 1) + 1);
        } else {
          NoLastFirst(t, rest);
        }
      }
      if forall i: nat :: i < |events| ==> !LastFirst(s, events, i) {
        assert forall i: nat :: i < |rest| ==> !LastFirst(t, rest, i) by {
          forall i: nat | i < |rest|
            ensures !LastFirst(t, rest, i)
          {
            assert !LastFirst(s, events, i + 1);
          }
        }
        NoneAdopted(t, rest);
        assert !LastFirst(s, events, 0);
      }
    }
  }

  lemma NoLastFirst(s: State, events: seq<Event>)
    requires forall j: nat :: j < |events| ==> !AdoptsFirst(Run(s, events[..j]), events[j])
    ensures forall i: nat :: i < |events| ==> !LastFirst(s, events, i)
  {
  }

  lemma NoneAdopted(s: State, events: seq<Event>)
    requires forall i: nat :: i < |events| ==> !LastFirst(s, events, i)
    ensures forall j: nat :: j < |events| ==> !AdoptsFirst(Run(s, events[..j]), events[j])
  {
    hide LastFirst;
    forall j: nat | j < |events| && AdoptsFirst(Run(s, events[..j]), events[j])
      ensures false
    {
      SomeLastFirst(s, events, j);
    }
  }

  /**
   While a further page may still be appended, the list's cursor is the one the page was requested
   with exactly if the last first page adopted since, if there was one, left that cursor.
   */
  lemma AppendedPageContinuesIff(before: seq<Event>, after: seq<Event>)
    requires var s := Run(INITIAL, before);
      s.list.cursor.Some? && !s.flags.loadingMore
    requires var s := Run(INITIAL, before);
      var u := Run(Step(s, LoadMore), after);
      s.nextRead in u.inFlight && OwnsMore(u, Step(s, LoadMore).inFlight[s.nextRead])
    ensures var s := Run(INITIAL, before);
      var t := Step(s, LoadMore);
      && t.inFlight[s.nextRead].kind == More(s.list.cursor.value)
      && (Run(t, after).list.cursor == s.list.cursor <==>
            forall i: nat :: i < |after| && LastFirst(t, after, i) ==> after[i].answer.value.cursor == s.list.cursor)
  {
    var s := Run(INITIAL, before);
    var t := Step(s, LoadMore);
    RunPast(INITIAL, before);
    StepPast(s, LoadMore);
    RunCursor(t, after, s.nextRead, t.inFlight[s.nextRead]);
    LastCursorIs(t, s.list.cursor, after);
    hide Run, LastFirst, LastCursor;
  }

  /** A reload answered after a further page was requested puts that page behind another list. */
  lemma LateReloadBreaksPaging(s: State, first: PageAnswer, more: PageAnswer)
    requires s.active && s.list.cursor.Some?
    ensures var t := Step(Step(s, Reload), LoadMore);
      var u := Step(t, PageAnswered(s.nextRead, Some(first)));
      && s.nextRead in t.inFlight && s.nextRead + 1 in u.inFlight
      && t.inFlight[s.nextRead].context == u.inFlight[s.nextRead + 1].context == s.context
      && u.inFlight[s.nextRead + 1].kind == More(s.list.cursor.value)
      && u.list.cursor == first.cursor
      && AdoptsMore(u, PageAnswered(s.nextRead + 1, Some(more)))
      && Step(u, PageAnswered(s.nextRead + 1, Some(more))).list.items
         == first.items + Unknown(first.items, more.items)
  {
    hide Unknown;
    var t := Step(Step(s, Reload), LoadMore);
    assert OwnsPage(t, t.inFlight[s.nextRead]) && OwnsMore(t, t.inFlight[s.nextRead + 1]);
    var u := Step(t, PageAnswered(s.nextRead, Some(first)));
    assert OwnsMore(u, u.inFlight[s.nextRead + 1]);
  }

  /** Opened, answered, reloaded, scrolled: the reload is answered before the further page. */
  function LateReload(shown: PageAnswer, first: PageAnswer, more: PageAnswer): seq<Event> {
    [Start, Open(false), PageAnswered(0, Some(shown)), Reload, LoadMore,
     PageAnswered(1, Some(first)), PageAnswered(2, Some(more))]
  }

  lemma OpenedAndShown(shown: PageAnswer)
    ensures var s := Step(Step(INITIAL, Start), Open(false));
      && 0 in s.inFlight && s.inFlight[0].context == s.context
      && var t := Step(s, PageAnswered(0, Some(shown)));
         t.active && t.list.cursor == shown.cursor && t.nextRead == 1 && t.context == s.context
         && t.context.account == None && t.context.filter == All
  {
  }

  /** Honest pages for the account and filter of a store just opened. */
  ghost predicate HonestPage(a: PageAnswer) {
    From(a.items, None, All) && DistinctIds(a.items)
  }

  /**
   A run with honest answers in which a page requested behind one cursor is appended to a list
   that ends at another.
   */
  lemma LateReloadRun(shown: PageAnswer, first: PageAnswer, more: PageAnswer)
    requires HonestPage(shown) && HonestPage(first) && HonestPage(more)
    requires shown.cursor.Some? && first.cursor != shown.cursor
    ensures var events := LateReload(shown, first, more);
      var u := Run(INITIAL, events[..6]);
      && HonestRun(INITIAL, events)
      && AdoptsMore(u, events[6])
      && u.inFlight[2].kind == More(shown.cursor.value)
      && u.list.cursor != shown.cursor
      && Run(INITIAL, events).list.items == first.items + Unknown(first.items, more.items)
  {
    var events := LateReload(shown, first, more);
    var s1 := Step(INITIAL, events[0]);
    var s2 := Step(s1, events[1]);
    var s3 := Step(s2, events[2]);
    var s4 := Step(s3, events[3]);
    var s5 := Step(s4, events[4]);
    var s6 := Step(s5, events[5]);
    var s7 := Step(s6, events[6]);
    OpenedAndShown(shown);
    LateReloadBreaksPaging(s3, first, more);
    assert Honest(s2, events[2]) && Honest(s5, events[5]) && Honest(s6, events[6]);
    hide Step, Honest, AdoptsMore, Unknown, HonestPage;
    SevenSteps(INITIAL, events, s1, s2, s3, s4, s5, s6, s7);
  }

  lemma SevenSteps(s: State, e: seq<Event>, s1: State, s2: State, s3: State, s4: State, s5: State, s6: State, s7: State)
    requires |e| == 7
    requires s1 == Step(s, e[0]) && s2 == Step(s1, e[1]) && s3 == Step(s2, e[2]) && s4 == Step(s3, e[3])
    requires s5 == Step(s4, e[4]) && s6 == Step(s5, e[5]) && s7 == Step(s6, e[6])
    ensures Run(s, e[..6]) == s6 && Run(s, e) == s7
    ensures HonestRun(s, e) <==>
      && Honest(s, e[0]) && Honest(s1, e[1]) && Honest(s2, e[2]) && Honest(s3, e[3])
      && Honest(s4, e[4]) && Honest(s5, e[5]) && Honest(s6, e[6])
  {
    hide Step, Honest;
    assert e[1..][1..] == e[2..] && e[2..][1..] == e[3..] && e[3..][1..] == e[4..];
    assert e[4..][1..] == e[5..] && e[5..][1..] == e[6..] && e[6..][1..] == [];
    assert Run(s6, e[6..]) == s7 && Run(s5, e[5..]) == s7 && Run(s4, e[4..]) == s7;
    assert Run(s3, e[3..]) == s7 && Run(s2, e[2..]) == s7 && Run(s1, e[1..]) == s7;
    assert HonestRun(s6, e[6..]) <==> Honest(s6, e[6]);
    assert HonestRun(s5, e[5..]) <==> Honest(s5, e[5]) && HonestRun(s6, e[6..]);
    assert HonestRun(s4, e[4..]) <==> Honest(s4, e[4]) && HonestRun(s5, e[5..]);
    assert HonestRun(s3, e[3..]) <==> Honest(s3, e[3]) && HonestRun(s4, e[4..]);
    assert HonestRun(s2, e[2..]) <==> Honest(s2, e[2]) && HonestRun(s3, e[3..]);
    assert HonestRun(s1, e[1..]) <==> Honest(s1, e[1]) && HonestRun(s2, e[2..]);
    RunPrefix(s, e, s1, s2, s3, s4, s5, s6);
  }

  lemma RunPrefix(s: State, e: seq<Event>, s1: State, s2: State, s3: State, s4: State, s5: State, s6: State)
    requires |e| == 7
    requires s1 == Step(s, e[0]) && s2 == Step(s1, e[1]) && s3 == Step(s2, e[2]) && s4 == Step(s3, e[3])
    requires s5 == Step(s4, e[4]) && s6 == Step(s5, e[5])
    ensures Run(s, e[..6]) == s6
  {
    hide Step;
    var f := e[..6];
    assert f[1..][1..] == f[2..] && f[2..][1..] == f[3..] && f[3..][1..] == f[4..];
    assert f[4..][1..] == f[5..] && f[5..][1..] == [];
    assert Run(s5, f[5..]) == s6 && Run(s4, f[4..]) == s6 && Run(s3, f[3..]) == s6;
    assert Run(s2, f[2..]) == s6 && Run(s1, f[1..]) == s6;
  }
}
