/** The busy flags of the order store are exact: none sticks and none is dropped early. */
module OrderFlags {
  import opened Common
  import opened OrderModel

  datatype Kind = Lists | Places | Queries

  function KindOf(op: Operation): Kind {
    if op.Listing? then Lists else if op.Querying? || op.QueryAcking? then Queries else Places
  }

  /** The operations of a kind begun in this generation and still in flight. */
  function Live(ops: map<nat, Operation>, generation: nat, kind: Kind): set<nat> {
    set id | id in ops && ops[id].context.generation == generation && KindOf(ops[id]) == kind
  }

  lemma LiveSet(ops: map<nat, Operation>, g: nat, kind: Kind, id: nat, op: Operation)
    ensures Live(ops[id := op], g, kind) ==
      Live(ops, g, kind) - {id} + (if op.context.generation == g && KindOf(op) == kind then {id} else {})
  {
  }

  lemma LiveGone(ops: map<nat, Operation>, g: nat, kind: Kind, id: nat)
    ensures Live(ops - {id}, g, kind) == Live(ops, g, kind) - {id}
  {
  }

  // ---- The invariant, flag by flag ------------------------------------------

  /** Operations know their past: they were begun in this scope if in this generation. */
  ghost predicate Contexts(ops: map<nat, Operation>, generation: nat, scope: Scope, next: nat) {
    forall id :: id in ops ==>
      && id < next
      && ops[id].context.generation <= generation
      && (ops[id].context.generation == generation ==> ops[id].context.scope == scope)
  }

  ghost predicate ListFlag(lists: set<nat>, refresh: Option<nat>, loading: bool, readable: bool) {
    && lists == (if refresh.Some? then {refresh.value} else {})
    && (loading <==> refresh.Some?)
    && (refresh.Some? ==> readable)
  }

  ghost predicate PlaceFlag(places: set<nat>, placing: bool, readable: bool) {
    && (forall a, b :: a in places && b in places ==> a == b)
    && (places != {} ==> placing)
    && (readable && placing ==> places != {})
  }

  ghost predicate QueryFlag(queries: set<nat>, ops: map<nat, Operation>, querying: Option<Link>, readable: bool) {
    && (forall a, b :: a in queries && b in queries ==> a == b)
    && (querying.Some? <==> queries != {})
    && (querying.Some? ==> readable)
    && (forall a :: a in queries ==>
          a in ops && KindOf(ops[a]) == Queries && querying == Some(ops[a].link))
  }

  ghost predicate Exact(s: State) {
    && Contexts(s.operations, s.generation, s.env.scope, s.nextOperation)
    && ListFlag(Live(s.operations, s.generation, Lists), s.refresh, s.loading, CanRead(s.env))
    && PlaceFlag(Live(s.operations, s.generation, Places), s.placing, CanRead(s.env))
    && QueryFlag(Live(s.operations, s.generation, Queries), s.operations, s.querying, CanRead(s.env))
    && !(s.placing && s.querying.Some?)
  }

  lemma LiveOwned(s: State, id: nat)
    requires Exact(s) && id in s.operations
    ensures Owned(s, s.operations[id].context) <==>
      s.operations[id].context.generation == s.generation && CanRead(s.env)
  {
  }

  // ---- Steps ------------------------------------------------------------------

  lemma ResetExact(s: State, env: Environment, clear: bool)
    requires Exact(s)
    ensures Exact(Reset(s.(env := env), clear))
  {
    var t := Reset(s.(env := env), clear);
    forall k: Kind
      ensures Live(t.operations, t.generation, k) == {}
    {
    }
  }

  lemma RefreshExact(s: State)
    requires Exact(s)
    ensures Exact(BeginRefresh(s))
  {
    var id, op := s.nextOperation, Listing(ContextOf(s));
    LiveSet(s.operations, s.generation, Lists, id, op);
    LiveSet(s.operations, s.generation, Places, id, op);
    LiveSet(s.operations, s.generation, Queries, id, op);
  }

  /** The flags say nothing of what the list holds. */
  lemma ExactIgnores(s: State, pending: seq<Entry>, loaded: bool, failed: bool)
    requires Exact(s)
    ensures Exact(s.(pending := pending, loaded := loaded, failed := failed))
  {
    hide Live, ListFlag, PlaceFlag, QueryFlag, Contexts;
  }

  lemma ListRetired(s: State, id: nat)
    requires Exact(s) && id in s.operations && s.operations[id].Listing?
    ensures Exact(s.(operations := s.operations - {id},
                     refresh := if s.refresh == Some(id) then None else s.refresh,
                     loading := s.loading && !Owned(s, s.operations[id].context)))
  {
    LiveOwned(s, id);
    Gone(s, id);
    assert s.operations[id].context.generation == s.generation <==> s.refresh == Some(id);
    hide Live;
  }

  lemma ListExact(s: State, id: nat, entries: Option<seq<Entry>>)
    requires Exact(s)
    ensures Exact(AnswerList(s, id, entries))
  {
    hide Merge, Exact, Owned;
    if id in s.operations && s.operations[id].Listing? {
      ListRetired(s, id);
      var t := AnswerList(s, id, entries);
      ExactIgnores(s.(operations := s.operations - {id},
                      refresh := if s.refresh == Some(id) then None else s.refresh,
                      loading := s.loading && !Owned(s, s.operations[id].context)),
                   t.pending, t.loaded, t.failed);
    }
  }

  /** Retiring an operation takes it from the set of its kind. */
  lemma Gone(s: State, id: nat)
    requires Contexts(s.operations, s.generation, s.env.scope, s.nextOperation) && id in s.operations
    ensures var k := KindOf(s.operations[id]);
      forall k' ::
        Live(s.operations - {id}, s.generation, k') ==
        Live(s.operations, s.generation, k') - (if k' == k then {id} else {})
    ensures id in Live(s.operations, s.generation, KindOf(s.operations[id])) <==>
      s.operations[id].context.generation == s.generation
    ensures Contexts(s.operations - {id}, s.generation, s.env.scope, s.nextOperation)
  {
    forall k'
      ensures Live(s.operations - {id}, s.generation, k') ==
        Live(s.operations, s.generation, k') - (if k' == KindOf(s.operations[id]) then {id} else {})
    {
      LiveGone(s.operations, s.generation, k', id);
    }
  }

  lemma StartPlaceExact(s: State, intent: Entry, allowed: bool)
    requires Exact(s)
    ensures Exact(StartPlace(s, intent, allowed))
  {
    if allowed && !s.placing && s.querying.None? {
      var wait := !s.loaded || s.loading;
      var t := if wait then BeginRefresh(s) else s;
      RefreshExact(s);
      RefreshKeeps(s);
      hide Exact, Live;
      NewPlaceExact(t, PlaceWaiting(ContextOf(s), intent, if wait then Flight(t) else None));
    }
  }

  lemma RefreshKeeps(s: State)
    ensures var t := BeginRefresh(s);
      t.env == s.env && t.generation == s.generation && t.placing == s.placing && t.querying == s.querying
    ensures BeginRefresh(s.(placing := true)) == BeginRefresh(s).(placing := true)
  {
  }

  lemma NewPlaceExact(s: State, op: Operation)
    requires Exact(s) && !s.placing && s.querying.None?
    requires KindOf(op) == Places && op.context == ContextOf(s)
    ensures Exact(s.(placing := true, operations := s.operations[s.nextOperation := op],
                     nextOperation := s.nextOperation + 1))
  {
    LiveSet(s.operations, s.generation, Lists, s.nextOperation, op);
    LiveSet(s.operations, s.generation, Places, s.nextOperation, op);
    LiveSet(s.operations, s.generation, Queries, s.nextOperation, op);
  }

  /** An operation that moves on to its next await keeps its context and kind. */
  lemma MoveExact(s: State, id: nat, op: Operation, pending: seq<Entry>)
    requires Exact(s) && id in s.operations
    requires op.context == s.operations[id].context && KindOf(op) == KindOf(s.operations[id])
    requires KindOf(op) == Queries ==> op.link == s.operations[id].link
    ensures Exact(s.(pending := pending, operations := s.operations[id := op]))
  {
    LiveSet(s.operations, s.generation, Lists, id, op);
    LiveSet(s.operations, s.generation, Places, id, op);
    LiveSet(s.operations, s.generation, Queries, id, op);
    assert Live(s.operations[id := op], s.generation, Lists) == Live(s.operations, s.generation, Lists);
    assert Live(s.operations[id := op], s.generation, Places) == Live(s.operations, s.generation, Places);
    assert Live(s.operations[id := op], s.generation, Queries) == Live(s.operations, s.generation, Queries);
  }

  lemma FinishPlaceExact(s: State, id: nat, pending: seq<Entry>)
    requires Exact(s) && id in s.operations && KindOf(s.operations[id]) == Places
    ensures Exact(FinishPlace(s.(pending := pending), id, s.operations[id].context))
  {
    LiveOwned(s, id);
    Gone(s, id);
  }

  lemma FinishQueryExact(s: State, id: nat, pending: seq<Entry>, failed: bool)
    requires Exact(s) && id in s.operations && KindOf(s.operations[id]) == Queries
    ensures Exact(FinishQuery(s.(pending := pending, failed := failed), id, s.operations[id].context))
  {
    LiveOwned(s, id);
    Gone(s, id);
  }

  lemma UnsettledExact(s: State, id: nat, pending: seq<Entry>)
    requires Exact(s) && id in s.operations && KindOf(s.operations[id]) == Places
    ensures Exact(Unsettled(s.(pending := pending), id, s.operations[id].context))
  {
    var s' := s.(pending := pending);
    RefreshExact(s');
    var t := BeginRefresh(s');
    assert t.operations[id] == s.operations[id];
    MoveExact(t, id, PlaceSettling(s.operations[id].context, Flight(t)), t.pending);
  }

  lemma StartQueryExact(s: State, link: Link)
    requires Exact(s)
    ensures Exact(StartQuery(s, link))
  {
    hide Flag;
    var id, op := s.nextOperation, Querying(ContextOf(s), link);
    LiveSet(s.operations, s.generation, Lists, id, op);
    LiveSet(s.operations, s.generation, Places, id, op);
    LiveSet(s.operations, s.generation, Queries, id, op);
  }

  lemma AnswerPlaceExact(s: State, id: nat, answer: PlaceAnswer)
    requires Exact(s)
    ensures Exact(AnswerPlace(s, id, answer))
  {
    if id in s.operations && s.operations[id].PlaceSent? {
      hide Exact, FinishPlace, Unsettled, Without, Owned;
      var op := s.operations[id];
      assert s.(pending := s.pending) == s;
      if !Owned(s, op.context) {
        FinishPlaceExact(s, id, s.pending);
      } else {
        match answer
        case Receipt => MoveExact(s, id, PlaceAcking(op.context, op.link), s.pending);
        case CertainRejection => FinishPlaceExact(s, id, Without(s.pending, op.link));
        case Blocked => UnsettledExact(s, id, Without(s.pending, op.link));
        case _ => UnsettledExact(s, id, s.pending);
      }
    }
  }

  lemma AnswerAckExact(s: State, id: nat, ok: bool)
    requires Exact(s)
    ensures Exact(AnswerAck(s, id, ok))
  {
    if id in s.operations && (s.operations[id].PlaceAcking? || s.operations[id].QueryAcking?) {
      hide Exact, FinishPlace, FinishQuery, Unsettled, Without, Owned;
      var op := s.operations[id];
      assert s.(pending := s.pending) == s && s.(failed := s.failed) == s;
      if op.QueryAcking? {
        FinishQueryExact(s, id, s.pending, s.failed);
        FinishQueryExact(s, id, Without(s.pending, op.link), s.failed);
      } else if !Owned(s, op.context) {
        FinishPlaceExact(s, id, s.pending);
      } else if ok {
        FinishPlaceExact(s, id, Without(s.pending, op.link));
      } else {
        UnsettledExact(s, id, s.pending);
      }
    }
  }

  lemma AnswerQueryExact(s: State, id: nat, answer: QueryAnswer)
    requires Exact(s)
    ensures Exact(AnswerQuery(s, id, answer))
  {
    if id in s.operations && s.operations[id].Querying? {
      hide Exact, FinishQuery, Without, Owned;
      var op := s.operations[id];
      assert s.(pending := s.pending) == s && s.(failed := s.failed) == s;
      if !Owned(s, op.context) {
        FinishQueryExact(s, id, s.pending, s.failed);
      } else {
        match answer
        case NotFound => FinishQueryExact(s, id, s.pending, s.failed);
        case AckPending => FinishQueryExact(s, id, s.pending, s.failed);
        case Found => MoveExact(s, id, QueryAcking(op.context, op.link), s.pending);
        case Rejected => FinishQueryExact(s, id, Without(s.pending, op.link), s.failed);
        case _ => FinishQueryExact(s, id, s.pending, true);
      }
    }
  }

  lemma ResumeExact(s: State, id: nat, permitted: bool)
    requires Exact(s)
    ensures Exact(Resume(s, id, permitted))
  {
    if id in s.operations && s.operations[id].PlaceWaiting? {
      hide Exact, FinishPlace, Submits;
      var op := s.operations[id];
      assert s.(pending := s.pending) == s;
      FinishPlaceExact(s, id, s.pending);
      MoveExact(s, id, PlaceSent(op.context, op.intent.link), s.pending + [op.intent]);
    }
  }

  lemma StepExact(s: State, e: Event)
    requires Exact(s)
    ensures Exact(Step(s, e))
  {
    hide Exact, AnswerList, StartPlace, Resume, AnswerPlace, AnswerAck, StartQuery, AnswerQuery, BeginRefresh,
      Reset, FinishPlace;
    match e
    case Environs(env) => ResetExact(s, env, env.scope != s.env.scope);
    case ClearOrders =>
      ResetExact(s, s.env, true);
      assert s.(env := s.env) == s;
      RefreshExact(Reset(s, true));
    case Refresh => RefreshExact(s);
    case ListAnswered(id, entries) => ListExact(s, id, entries);
    case BeginPlace(intent, allowed) => StartPlaceExact(s, intent, allowed);
    case ResumePlace(id, permitted) => ResumeExact(s, id, permitted);
    case PlaceAnswered(id, placed) => AnswerPlaceExact(s, id, placed);
    case AckAnswered(id, ok) => AnswerAckExact(s, id, ok);
    case SettlePlace(id) =>
      if id in s.operations && s.operations[id].PlaceSettling? {
        FinishPlaceExact(s, id, s.pending);
        assert s.(pending := s.pending) == s;
      }
    case BeginQuery(link) => StartQueryExact(s, link);
    case QueryAnswered(id, answer) => AnswerQueryExact(s, id, answer);
  }

  lemma {:induction false} RunExact(s: State, events: seq<Event>)
    requires Exact(s)
    ensures Exact(Run(s, events))
    decreases |events|
  {
    if events != [] {
      StepExact(s, events[0]);
      RunExact(Step(s, events[0]), events[1..]);
    }
  }

  /**
   While the account can be read, the form is busy placing exactly while one placement of this
   generation is in flight, likewise for a query (of the very link shown) and for a journal read;
   placing and querying exclude each other.
   */
  lemma BusyFlagsAreExact(env: Environment, events: seq<Event>)
    ensures var s := Run(Initial(env), events);
      CanRead(s.env) ==>
        && (s.placing <==> |Live(s.operations, s.generation, Places)| == 1)
        && (s.querying.Some? <==> |Live(s.operations, s.generation, Queries)| == 1)
        && (forall id :: id in Live(s.operations, s.generation, Queries) ==>
              (s.operations[id].Querying? || s.operations[id].QueryAcking?)
              && s.querying == Some(s.operations[id].link))
        && (s.loading <==> |Live(s.operations, s.generation, Lists)| == 1)
        && !(s.placing && s.querying.Some?)
  {
    var s := Run(Initial(env), events);
    RunExact(Initial(env), events);
    Singleton(Live(s.operations, s.generation, Places));
    Singleton(Live(s.operations, s.generation, Queries));
  }

  lemma Singleton(ids: set<nat>)
    requires forall a, b :: a in ids && b in ids ==> a == b
    ensures |ids| == 1 <==> ids != {}
  {
    if id :| id in ids {
      assert ids == {id};
    }
  }

  /** An answer to an operation of an earlier generation only retires it. */
  lemma StaleAnswersChangeNothing(env: Environment, events: seq<Event>, e: Event)
    requires e.ListAnswered? || e.ResumePlace? || e.PlaceAnswered? || e.AckAnswered? || e.SettlePlace? || e.QueryAnswered?
    requires var s := Run(Initial(env), events);
      e.id in s.operations && s.operations[e.id].context.generation != s.generation
    ensures var s := Run(Initial(env), events);
      Step(s, e) == s || Step(s, e) == s.(operations := s.operations - {e.id})
  {
    var s := Run(Initial(env), events);
    RunExact(Initial(env), events);
    hide Merge, Without, Unsettled;
    assert s.refresh.Some? ==> s.refresh.value in Live(s.operations, s.generation, Lists);
  }
}
