/** The order store: its refs, and the actions that update them between awaits. */
module Orders {
  import opened Common
  import opened OrderModel
  import OrderFlags

  class OrderStore {
    var env: Environment
    var submissionSession: nat
    var pendingSubmissions: seq<Entry>
    var pendingLoading: bool
    var pendingLoaded: bool
    var pendingError: bool
    var placing: bool
    var queryingOrderLinkId: Option<Link>
    var pendingRefresh: Option<nat>
    var operations: map<nat, Operation>
    var nextOperation: nat

    ghost function Abs(): (s: State)
      reads this
    {
      State(env, submissionSession, pendingSubmissions, pendingLoading, pendingLoaded, pendingError, placing,
            queryingOrderLinkId, pendingRefresh, operations, nextOperation)
    }

    /** Every busy flag tells exactly whether an operation of this generation is in flight. */
    ghost predicate Valid()
      reads this
    {
      OrderFlags.Exact(Abs())
    }

    constructor (env: Environment)
      ensures Valid()
      ensures Abs() == Initial(env)
    {
      this.env := env;
      submissionSession, pendingSubmissions := 1, [];
      pendingLoading, pendingLoaded, pendingError, placing := false, false, false, false;
      queryingOrderLinkId, pendingRefresh, operations, nextOperation := None, None, map[], 0;
    }

    function OwnsSubmission(c: Context): (owned: bool)
      reads this
      ensures owned == Owned(Abs(), c)
    {
      c.scope.account == env.scope.account && c.scope.epoch == env.scope.epoch
      && c.generation == submissionSession && env.connected && !env.switching
    }

    method SubmissionBlocked(reduceOnly: bool) returns (blocked: bool)
      ensures blocked <==> placing || queryingOrderLinkId.Some? || pendingLoading || !pendingLoaded || pendingError
                           || Blocks(pendingSubmissions, reduceOnly)
    {
      blocked := placing || queryingOrderLinkId.Some? || pendingLoading || !pendingLoaded || pendingError;
      if !blocked && pendingSubmissions != [] {
        blocked := !reduceOnly;
        if !blocked {
          blocked := AnyReduceOnly();
        }
      }
    }

    method AnyReduceOnly() returns (any: bool)
      ensures any <==> exists i :: 0 <= i < |pendingSubmissions| && pendingSubmissions[i].reduceOnly
    {
      for i := 0 to |pendingSubmissions|
        invariant forall j :: 0 <= j < i ==> !pendingSubmissions[j].reduceOnly
      {
        if pendingSubmissions[i].reduceOnly { return true; }
      }
      return false;
    }

    // ---- Journal reads ------------------------------------------------------

    method RefreshPendingSubmissions() returns (flight: Option<nat>)
      modifies this`pendingLoading, this`pendingError, this`pendingRefresh, this`operations, this`nextOperation
      ensures Abs() == BeginRefresh(old(Abs()))
      ensures flight == Flight(Abs())
      ensures old(Valid()) ==> Valid()
    {
      hide OrderFlags.Exact;
      if Valid() { OrderFlags.StepExact(Abs(), Event.Refresh); }
      if !env.connected || env.switching || queryingOrderLinkId.Some? { return None; }
      if pendingRefresh.Some? { return pendingRefresh; }
      pendingLoading := true;
      pendingError := false;
      operations := operations[nextOperation := Listing(Context(env.scope, submissionSession))];
      pendingRefresh := Some(nextOperation);
      nextOperation := nextOperation + 1;
      return pendingRefresh;
    }

    /** The keyed map the journal's entries are written into, as a list in insertion order. */
    method MergeEntries(entries: seq<Entry>) returns (merged: seq<Entry>)
      ensures merged == Merge(pendingSubmissions, entries)
    {
      merged := [];
      for i := 0 to |pendingSubmissions|
        invariant SetAll(merged, pendingSubmissions[i..]) == SetAll([], pendingSubmissions)
      {
        assert pendingSubmissions[i..][1..] == pendingSubmissions[i + 1..];
        merged := SetEntry(merged, pendingSubmissions[i]);
      }
      assert pendingSubmissions[|pendingSubmissions|..] == [];
      for i := 0 to |entries|
        invariant SetAll(merged, entries[i..]) == Merge(pendingSubmissions, entries)
      {
        assert entries[i..][1..] == entries[i + 1..];
        merged := SetEntry(merged, entries[i]);
      }
    }

    method AnswerListing(id: nat, entries: Option<seq<Entry>>)
      requires Valid()
      requires id in operations && operations[id].Listing?
      modifies this
      ensures Valid()
      ensures Abs() == AnswerList(old(Abs()), id, entries)
    {
      hide OrderFlags.Exact;
      OrderFlags.StepExact(Abs(), ListAnswered(id, entries));
      hide Merge;
      if OwnsSubmission(operations[id].context) {
        if entries.Some? {
          pendingSubmissions := MergeEntries(entries.value);
          pendingLoaded := true;
        } else {
          pendingError := true;
        }
        pendingLoading := false;
      }
      operations := operations - {id};
      if pendingRefresh == Some(id) { pendingRefresh := None; }
    }

    method ResetSubmissionState(clearPending: bool)
      modifies this
      ensures Abs() == Reset(old(Abs()), clearPending)
    {
      submissionSession := submissionSession + 1;
      pendingRefresh := None;
      if clearPending { pendingSubmissions := []; }
      pendingLoading, pendingLoaded, pendingError := false, false, false;
      queryingOrderLinkId := None;
      placing := false;
    }

    method WatchEnvironment(next: Environment)
      requires Valid()
      modifies this
      ensures Valid()
      ensures Abs() == ChangeEnvironment(old(Abs()), next)
    {
      hide OrderFlags.Exact;
      OrderFlags.StepExact(Abs(), Environs(next));
      if next == env { return; }
      var previous := env;
      env := next;
      ResetSubmissionState(next.scope.account != previous.scope.account || next.scope.epoch != previous.scope.epoch);
    }

    method ClearOrders()
      requires Valid()
      modifies this
      ensures Valid()
      ensures Abs() == Step(old(Abs()), Event.ClearOrders)
    {
      hide OrderFlags.Exact;
      OrderFlags.StepExact(Abs(), Event.ClearOrders);
      ResetSubmissionState(true);
      var _ := RefreshPendingSubmissions();
    }

    // ---- Placing ------------------------------------------------------------

    method PlaceOrder(intent: Entry, allowed: bool)
      requires Valid()
      modifies this
      ensures Valid()
      ensures Abs() == StartPlace(old(Abs()), intent, allowed)
    {
      hide OrderFlags.Exact;
      OrderFlags.StepExact(Abs(), BeginPlace(intent, allowed));
      if !allowed || placing || queryingOrderLinkId.Some? { return; }
      var context := Context(env.scope, submissionSession);
      placing := true;
      var flight := None;
      if !pendingLoaded || pendingLoading { flight := RefreshPendingSubmissions(); }
      operations := operations[nextOperation := PlaceWaiting(context, intent, flight)];
      nextOperation := nextOperation + 1;
    }

    /** What the placement's outer `finally` block does. */
    method ReleasePlacing(id: nat, context: Context)
      modifies this`placing, this`operations
      ensures Abs() == FinishPlace(old(Abs()), id, context)
    {
      if OwnsSubmission(context) { placing := false; }
      operations := operations - {id};
    }

    method ResumePlaceOrder(id: nat, permitted: bool) returns (sent: bool)
      requires Valid()
      requires id in operations && operations[id].PlaceWaiting?
      requires operations[id].refresh.Some? ==> operations[id].refresh.value !in operations
      modifies this
      ensures Valid()
      ensures Abs() == Resume(old(Abs()), id, permitted)
      ensures sent == Issued(old(Abs()), ResumePlace(id, permitted)).Some?
    {
      hide OrderFlags.Exact;
      OrderFlags.StepExact(Abs(), ResumePlace(id, permitted));
      var context, intent := operations[id].context, operations[id].intent;
      var blocked := pendingSubmissions != [] && !intent.reduceOnly;
      if pendingSubmissions != [] && intent.reduceOnly { blocked := AnyReduceOnly(); }
      if !permitted || !OwnsSubmission(context) || !pendingLoaded || pendingError || blocked {
        ReleasePlacing(id, context);
        return false;
      }
      pendingSubmissions := pendingSubmissions + [intent];
      operations := operations[id := PlaceSent(context, intent.link)];
      return true;
    }

    method DropPending(link: Link)
      modifies this`pendingSubmissions
      ensures pendingSubmissions == Without(old(pendingSubmissions), link)
    {
      var kept := [];
      for i := 0 to |pendingSubmissions|
        invariant kept + Without(pendingSubmissions[i..], link) == Without(pendingSubmissions, link)
        invariant pendingSubmissions == old(pendingSubmissions)
      {
        assert pendingSubmissions[i..][1..] == pendingSubmissions[i + 1..];
        if pendingSubmissions[i].link != link { kept := kept + [pendingSubmissions[i]]; }
      }
      pendingSubmissions := kept;
    }

    method LeaveUnsettled(id: nat, context: Context)
      modifies this
      ensures Abs() == Unsettled(old(Abs()), id, context)
    {
      var flight := RefreshPendingSubmissions();
      operations := operations[id := PlaceSettling(context, flight)];
    }

    method AnswerPlaceOrder(id: nat, answer: PlaceAnswer)
      requires Valid()
      requires id in operations && operations[id].PlaceSent?
      modifies this
      ensures Valid()
      ensures Abs() == AnswerPlace(old(Abs()), id, answer)
    {
      hide OrderFlags.Exact;
      OrderFlags.StepExact(Abs(), PlaceAnswered(id, answer));
      hide Without, Unsettled, FinishPlace;
      var context, link := operations[id].context, operations[id].link;
      if !OwnsSubmission(context) {
        ReleasePlacing(id, context);
        return;
      }
      if answer.Receipt? {
        operations := operations[id := PlaceAcking(context, link)];
        return;
      }
      if answer.CertainRejection? || answer.Blocked? { DropPending(link); }
      if answer.CertainRejection? {
        ReleasePlacing(id, context);
      } else {
        LeaveUnsettled(id, context);
      }
    }

    method AnswerAcknowledgement(id: nat, ok: bool)
      requires Valid()
      requires id in operations && (operations[id].PlaceAcking? || operations[id].QueryAcking?)
      modifies this
      ensures Valid()
      ensures Abs() == AnswerAck(old(Abs()), id, ok)
    {
      hide OrderFlags.Exact;
      OrderFlags.StepExact(Abs(), AckAnswered(id, ok));
      hide Without, Unsettled, FinishPlace, FinishQuery;
      var op := operations[id];
      var owned := OwnsSubmission(op.context);
      if owned && ok { DropPending(op.link); }
      if op.QueryAcking? {
        ReleaseQuerying(id, op.context);
      } else if owned && !ok {
        LeaveUnsettled(id, op.context);
      } else {
        ReleasePlacing(id, op.context);
      }
    }

    method SettlePlaceOrder(id: nat)
      requires Valid()
      requires id in operations && operations[id].PlaceSettling?
      requires operations[id].refresh.Some? ==> operations[id].refresh.value !in operations
      modifies this
      ensures Valid()
      ensures Abs() == Settle(old(Abs()), id)
    {
      hide OrderFlags.Exact;
      OrderFlags.StepExact(Abs(), SettlePlace(id));
      ReleasePlacing(id, operations[id].context);
    }

    // ---- Reconciling ----------------------------------------------------------

    method ReconcileSubmission(link: Link)
      requires Valid()
      modifies this
      ensures Valid()
      ensures Abs() == StartQuery(old(Abs()), link)
    {
      hide OrderFlags.Exact;
      OrderFlags.StepExact(Abs(), BeginQuery(link));
      if !env.connected || env.switching || pendingLoading || placing || queryingOrderLinkId.Some?
         || Flag(pendingSubmissions, link).None? { return; }
      queryingOrderLinkId := Some(link);
      pendingError := false;
      operations := operations[nextOperation := Querying(Context(env.scope, submissionSession), link)];
      nextOperation := nextOperation + 1;
    }

    method ReleaseQuerying(id: nat, context: Context)
      modifies this`queryingOrderLinkId, this`operations
      ensures Abs() == FinishQuery(old(Abs()), id, context)
    {
      if OwnsSubmission(context) { queryingOrderLinkId := None; }
      operations := operations - {id};
    }

    method AnswerReconciliation(id: nat, answer: QueryAnswer)
      requires Valid()
      requires id in operations && operations[id].Querying?
      modifies this
      ensures Valid()
      ensures Abs() == AnswerQuery(old(Abs()), id, answer)
    {
      hide OrderFlags.Exact;
      OrderFlags.StepExact(Abs(), QueryAnswered(id, answer));
      hide Without, FinishQuery;
      var context, link := operations[id].context, operations[id].link;
      if OwnsSubmission(context) {
        match answer {
          case Found =>
            operations := operations[id := QueryAcking(context, link)];
            return;
          case Rejected => DropPending(link);
          case BadFound => pendingError := true;
          case QueryFailed => pendingError := true;
          case NotFound =>
          case AckPending =>
        }
      }
      ReleaseQuerying(id, context);
    }
  }
}
