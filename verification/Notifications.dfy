/** The notification store: its refs and request counters, and the actions that update them. */
module Notifications {
  import opened Common
  import opened NotificationModel
  import NotificationTheorems

  class NotificationStore {
    var active: bool
    var context: Context
    var list: Listing
    var observedRevision: Option<Revision>
    var tickets: Tickets
    var flags: Flags
    var activePageRequest: Option<Read>
    var eventRefresh: Refresh
    var owners: Owners
    var inFlight: map<nat, Read>
    var mutations: map<nat, Mutation>
    var nextRead: nat
    var mutationOwnerSequence: nat

    ghost function Abs(): (s: State)
      reads this
    {
      State(active, context, list, observedRevision, tickets, flags, activePageRequest, eventRefresh, owners,
            inFlight, mutations, nextRead, mutationOwnerSequence)
    }

    /** Every read in flight was sent in the past: under tickets, epochs and generations since passed or still held. */
    ghost predicate Valid()
      reads this
    {
      NotificationTheorems.Past(Abs())
    }

    constructor ()
      ensures Valid()
      ensures Abs() == INITIAL
    {
      active, context, list, observedRevision := false, Context(0, 0, None, All), EMPTY_LIST, None;
      tickets, flags := Tickets(0, 0, 0, 0, None), Flags(false, false, false, false);
      activePageRequest, eventRefresh, owners := None, Refresh(false, 0, 0), NO_OWNERS;
      inFlight, mutations, nextRead, mutationOwnerSequence := map[], map[], 0, 0;
    }

    function OwnsContext(c: Context): (owned: bool)
      reads this
      ensures owned == Owns(Abs(), c)
    {
      active && context == c
    }

    // ---- Reads ----------------------------------------------------------------

    method QueryFirstPage() returns (id: nat)
      modifies this`tickets, this`flags, this`inFlight, this`nextRead, this`activePageRequest
      ensures Abs() == NotificationModel.QueryFirstPage(old(Abs()))
      ensures id == old(nextRead)
    {
      tickets := tickets.(page := tickets.page + 1);
      var request := Read(First, tickets.page, tickets.epoch, context, observedRevision);
      activePageRequest := Some(request);
      flags := flags.(initialLoading := true);
      id := nextRead;
      inFlight := inFlight[id := request];
      nextRead := nextRead + 1;
    }

    method RefreshSummary() returns (id: nat)
      modifies this`tickets, this`inFlight, this`nextRead
      ensures Abs() == QuerySummary(old(Abs()))
      ensures id == old(nextRead)
      ensures old(Valid()) ==> Valid()
    {
      hide NotificationTheorems.Past;
      if Valid() { NotificationTheorems.StepPast(Abs(), Event.RefreshSummary); }
      tickets := tickets.(summary := tickets.summary + 1);
      id := nextRead;
      inFlight := inFlight[id := Read(Summary, tickets.summary, tickets.epoch, context, observedRevision)];
      nextRead := nextRead + 1;
    }

    method LoadMore()
      requires Valid()
      modifies this`tickets, this`flags, this`inFlight, this`nextRead
      ensures Valid()
      ensures Abs() == QueryMore(old(Abs()))
    {
      hide NotificationTheorems.Past;
      NotificationTheorems.StepPast(Abs(), Event.LoadMore);
      if list.cursor.None? || flags.loadingMore { return; }
      tickets := tickets.(more := tickets.more + 1);
      flags := flags.(loadingMore := true);
      inFlight := inFlight[nextRead :=
        Read(More(list.cursor.value), tickets.more, tickets.epoch, context, observedRevision)];
      nextRead := nextRead + 1;
    }

    method InvalidateLoadMore()
      modifies this`tickets, this`flags
      ensures Abs() == NotificationModel.InvalidateLoadMore(old(Abs()))
    {
      tickets := tickets.(more := tickets.more + 1);
      flags := flags.(loadingMore := false);
    }

    method AdoptRevision(captured: Option<Revision>, revision: Revision)
      modifies this`observedRevision
      ensures observedRevision == Adopt(old(observedRevision), captured, revision)
    {
      if observedRevision == captured || observedRevision == Some(revision) { observedRevision := Some(revision); }
    }

    method AnswerFirstPage(id: nat, answer: Option<PageAnswer>)
      requires Valid()
      requires id in inFlight && inFlight[id].kind.First?
      modifies this`inFlight, this`tickets, this`list, this`observedRevision, this`flags, this`activePageRequest
      ensures Valid()
      ensures Abs() == AnswerPage(old(Abs()), id, answer)
    {
      hide NotificationTheorems.Past;
      NotificationTheorems.StepPast(Abs(), PageAnswered(id, answer));
      var r := inFlight[id];
      inFlight := inFlight - {id};
      if r.ticket == tickets.page && r.epoch == tickets.epoch && OwnsContext(r.context) {
        if answer.Some? {
          tickets := tickets.(pageGeneration := Some(r.context.generation));
          list := Listing(answer.value.items, answer.value.cursor, false);
          AdoptRevision(r.revision, answer.value.revision);
        } else {
          list := list.(needsRetry := true);
        }
        flags := flags.(initialLoading := false);
      }
      if activePageRequest.Some? && activePageRequest.value.ticket == r.ticket { activePageRequest := None; }
    }

    /** The records of the page whose ids are not on the list yet. */
    method FilterKnown(page: seq<Record>) returns (unknown: seq<Record>)
      ensures unknown == Unknown(list.items, page)
    {
      unknown := [];
      var i := |page|;
      while i > 0
        invariant 0 <= i <= |page|
        invariant unknown == Unknown(list.items, page[i..])
      {
        i := i - 1;
        assert page[i..][1..] == page[i + 1..];
        var known := IsShown(page[i].id);
        if !known { unknown := [page[i]] + unknown; }
      }
    }

    method IsShown(id: Id) returns (shown: bool)
      ensures shown <==> exists i :: 0 <= i < |list.items| && list.items[i].id == id
    {
      for i := 0 to |list.items|
        invariant forall j :: 0 <= j < i ==> list.items[j].id != id
      {
        if list.items[i].id == id { return true; }
      }
      return false;
    }

    method AnswerFurtherPage(id: nat, answer: Option<PageAnswer>)
      requires Valid()
      requires id in inFlight && inFlight[id].kind.More?
      modifies this
      ensures Valid()
      ensures Abs() == AnswerPage(old(Abs()), id, answer)
    {
      hide NotificationTheorems.Past;
      NotificationTheorems.StepPast(Abs(), PageAnswered(id, answer));
      hide Unknown;
      var r := inFlight[id];
      inFlight := inFlight - {id};
      if r.ticket != tickets.more || r.epoch != tickets.epoch { return; }
      if OwnsContext(r.context) && answer.Some? {
        var page := FilterKnown(answer.value.items);
        list := list.(items := list.items + page, cursor := answer.value.cursor);
        AdoptRevision(r.revision, answer.value.revision);
      }
      flags := flags.(loadingMore := false);
    }

    method AnswerSummary(id: nat, answer: Option<Revision>)
      requires Valid()
      requires id in inFlight && inFlight[id].kind.Summary?
      modifies this`inFlight, this`observedRevision
      ensures Valid()
      ensures Abs() == NotificationModel.AnswerSummary(old(Abs()), id, answer)
    {
      hide NotificationTheorems.Past;
      NotificationTheorems.StepPast(Abs(), SummaryAnswered(id, answer));
      var r := inFlight[id];
      inFlight := inFlight - {id};
      if r.ticket != tickets.summary || r.epoch != tickets.epoch || !OwnsContext(r.context)
         || tickets.pageGeneration == Some(r.context.generation) { return; }
      if answer.Some? { AdoptRevision(r.revision, answer.value); }
    }

    // ---- Context ----------------------------------------------------------------

    method Start()
      requires Valid()
      modifies this`active, this`context
      ensures Valid()
      ensures Abs() == Step(old(Abs()), Event.Start)
    {
      hide NotificationTheorems.Past;
      NotificationTheorems.StepPast(Abs(), Event.Start);
      if !active {
        active := true;
        context := context.(lifecycle := context.lifecycle + 1);
      }
    }

    method Stop()
      requires Valid()
      modifies this`active, this`context, this`tickets, this`flags, this`eventRefresh, this`list,
               this`observedRevision, this`activePageRequest, this`owners
      ensures Valid()
      ensures Abs() == StopStore(old(Abs()))
    {
      hide NotificationTheorems.Past;
      NotificationTheorems.StepPast(Abs(), Event.Stop);
      if !active { return; }
      active := false;
      context := Context(context.lifecycle + 1, context.generation + 1, None, All);
      tickets := Tickets(tickets.page + 1, tickets.more + 1, tickets.summary + 1, tickets.epoch + 1, None);
      flags := Flags(false, false, false, false);
      eventRefresh := eventRefresh.(scheduled := false);
      list := EMPTY_LIST;
      observedRevision := None;
      activePageRequest := None;
      owners := NO_OWNERS;
    }

    /** Moves on to the next generation: further pages and mutations in flight lose their place. */
    method BeginGeneration()
      modifies this`context, this`tickets, this`flags, this`owners
      ensures Abs() == NextGeneration(old(Abs()))
    {
      context := context.(generation := context.generation + 1);
      InvalidateLoadMore();
      owners := NO_OWNERS;
    }

    method SetAccount(account: Option<Account>)
      requires Valid()
      modifies this
      ensures Valid()
      ensures Abs() == ChangeAccount(old(Abs()), account)
    {
      hide NotificationTheorems.Past;
      NotificationTheorems.StepPast(Abs(), Event.SetAccount(account));
      hide NextGeneration, QuerySummary, NotificationModel.QueryFirstPage;
      flags := flags.(accountReady := true);
      if context.account == account { return; }
      var hadInitializedPage := flags.pageInitialized;
      context := context.(account := account);
      list := EMPTY_LIST;
      BeginGeneration();
      var _ := RefreshSummary();
      if hadInitializedPage { var _ := QueryFirstPage(); }
    }

    method SetFilter(filter: Filter)
      requires Valid()
      modifies this
      ensures Valid()
      ensures Abs() == ChangeFilter(old(Abs()), filter)
    {
      hide NotificationTheorems.Past;
      NotificationTheorems.StepPast(Abs(), Event.SetFilter(filter));
      hide NotificationModel.QueryFirstPage;
      if context.filter == filter { return; }
      context := context.(filter := filter);
      list := EMPTY_LIST;
      BeginGeneration();
      if flags.pageInitialized { var _ := QueryFirstPage(); }
    }

    method Reload()
      requires Valid()
      modifies this
      ensures Valid()
      ensures Abs() == ReloadPage(old(Abs()))
    {
      hide NotificationTheorems.Past;
      NotificationTheorems.StepPast(Abs(), Event.Reload);
      hide NotificationModel.QueryFirstPage;
      flags := flags.(pageInitialized := true);
      InvalidateLoadMore();
      var _ := QueryFirstPage();
    }

    method ScheduleEventRefresh()
      modifies this`eventRefresh
      ensures Abs() == Schedule(old(Abs()))
    {
      eventRefresh := Refresh(true, context.generation, context.lifecycle);
    }

    method FireEventRefresh()
      requires Valid()
      modifies this
      ensures Valid()
      ensures Abs() == Fire(old(Abs()))
    {
      hide NotificationTheorems.Past;
      NotificationTheorems.StepPast(Abs(), FireRefresh);
      hide NotificationModel.QueryFirstPage, QuerySummary;
      eventRefresh := eventRefresh.(scheduled := false);
      if !active || context.lifecycle != eventRefresh.lifecycle || context.generation != eventRefresh.generation {
        return;
      }
      if flags.pageInitialized {
        var _ := QueryFirstPage();
      } else {
        var _ := RefreshSummary();
      }
    }

    method HandleChangedEvent(e: Event)
      requires Valid()
      requires e.Changed?
      modifies this
      ensures Valid()
      ensures Abs() == HandleChange(old(Abs()), e)
    {
      hide NotificationTheorems.Past;
      NotificationTheorems.StepPast(Abs(), e);
      if !active || context.lifecycle != e.listener || observedRevision == Some(e.revision) { return; }
      var continuous := !e.reset && e.previous == observedRevision;
      observedRevision := Some(e.revision);
      if continuous && !e.relevant { return; }
      if !continuous { list := EMPTY_LIST; }
      BeginGeneration();
      ScheduleEventRefresh();
    }

    // ---- Mutations ------------------------------------------------------------------

    method BeginMutation(c: Change) returns (begun: bool)
      requires Valid()
      modifies this`mutationOwnerSequence, this`owners, this`mutations
      ensures Valid()
      ensures Abs() == NotificationModel.BeginMutation(old(Abs()), c)
      ensures begun <==> !Pending(old(owners), c) && (c.ClearAccount? ==> context.account.Some?)
      ensures begun ==> mutationOwnerSequence in mutations && mutations[mutationOwnerSequence].change == c
    {
      hide NotificationTheorems.Past;
      NotificationTheorems.StepPast(Abs(), Mutate(c));
      if Pending(owners, c) || (c.ClearAccount? && context.account.None?) { return false; }
      mutationOwnerSequence := mutationOwnerSequence + 1;
      owners := Claim(owners, c, mutationOwnerSequence);
      mutations := mutations[mutationOwnerSequence := Mutation(c, context, observedRevision, false)];
      return true;
    }

    method InvalidateReadAuthority() returns (canceledFirstPage: bool)
      modifies this`tickets, this`activePageRequest, this`flags
      ensures Abs() == InvalidateReads(old(Abs()))
      ensures canceledFirstPage == CancelsFirstPage(old(Abs()))
    {
      canceledFirstPage := false;
      if activePageRequest.Some? {
        var r := activePageRequest.value;
        canceledFirstPage := r.ticket == tickets.page && r.epoch == tickets.epoch && OwnsContext(r.context);
      }
      tickets := Tickets(tickets.page + 1, tickets.more + 1, tickets.summary + 1, tickets.epoch + 1,
                         tickets.pageGeneration);
      activePageRequest := None;
      flags := flags.(initialLoading := false, loadingMore := false);
    }

    method RetireMutation(owner: nat, c: Change)
      modifies this`mutations, this`owners
      ensures Abs() == Retire(old(Abs()), owner, c)
    {
      mutations := mutations - {owner};
      owners := Release(owners, c, owner);
    }

    /** A confirmed removal or reading of one record. */
    method ApplyEdit(items: seq<Record>)
      modifies this`list, this`tickets, this`activePageRequest, this`flags, this`eventRefresh
      ensures Abs() == AfterEdit(old(Abs()), items)
    {
      list := list.(items := items);
      var canceledFirstPage := InvalidateReadAuthority();
      if canceledFirstPage || list.needsRetry { ScheduleEventRefresh(); }
    }

    method ConfirmEdit(owner: nat, revision: Revision, record: Option<Record>) returns (confirmed: bool)
      requires Valid()
      requires owner in mutations && !mutations[owner].settling && !IsSweep(mutations[owner].change)
      modifies this
      ensures Valid()
      ensures Abs() == AnswerMutation(old(Abs()), owner, Some((revision, record)))
      ensures confirmed <==>
        NotificationTheorems.Confirms(old(Abs()), MutationAnswered(owner, Some((revision, record))))
    {
      hide NotificationTheorems.Past;
      NotificationTheorems.StepPast(Abs(), MutationAnswered(owner, Some((revision, record))));
      hide AfterEdit, Release, Without, Substitute;
      var m := mutations[owner];
      confirmed := OwnsContext(m.context);
      RetireMutation(owner, m.change);
      if !confirmed { return; }
      confirmed := m.change.Remove? || m.context.filter.Unread? || record.Some?;
      if m.change.Remove? || m.context.filter.Unread? {
        AdoptRevision(m.revision, revision);
        ApplyEdit(Without(list.items, m.change.id));
      } else if record.Some? {
        AdoptRevision(m.revision, revision);
        ApplyEdit(Substitute(list.items, m.change.id, record.value));
      }
    }

    /** What follows a confirmed change to the whole list: every read is revoked and a fresh one begun. */
    method ApplySweep(clear: bool)
      modifies this`list, this`tickets, this`activePageRequest, this`flags, this`inFlight, this`nextRead
      ensures Abs() == AfterSweep(old(Abs()), clear)
    {
      hide NotificationModel.QueryFirstPage, QuerySummary;
      var _ := InvalidateReadAuthority();
      InvalidateLoadMore();
      if clear { list := EMPTY_LIST.(needsRetry := list.needsRetry); }
      if flags.pageInitialized {
        var _ := QueryFirstPage();
      } else {
        var _ := RefreshSummary();
      }
    }

    method ConfirmSweep(owner: nat, revision: Revision) returns (confirmed: bool)
      requires Valid()
      requires owner in mutations && !mutations[owner].settling && IsSweep(mutations[owner].change)
      modifies this
      ensures Valid()
      ensures Abs() == AnswerMutation(old(Abs()), owner, Some((revision, None)))
      ensures confirmed <==>
        NotificationTheorems.Confirms(old(Abs()), MutationAnswered(owner, Some((revision, None))))
    {
      hide NotificationTheorems.Past;
      NotificationTheorems.StepPast(Abs(), MutationAnswered(owner, Some((revision, None))));
      hide Release, AfterSweep, AfterEdit, Without, Substitute, Adopt;
      var m := mutations[owner];
      confirmed := OwnsContext(m.context);
      if !confirmed {
        RetireMutation(owner, m.change);
        return;
      }
      mutations := mutations[owner := m.(settling := true)];
      AdoptRevision(m.revision, revision);
      ApplySweep(m.change.ClearAccount?);
    }

    /** The read begun by a confirmed sweep has settled. */
    method SettleSweep(owner: nat)
      requires Valid()
      requires owner in mutations && mutations[owner].settling
      modifies this`mutations, this`owners
      ensures Valid()
      ensures Abs() == NotificationModel.SettleSweep(old(Abs()), owner)
    {
      hide NotificationTheorems.Past;
      NotificationTheorems.StepPast(Abs(), SweepSettled(owner));
      RetireMutation(owner, mutations[owner].change);
    }

    method FailMutation(owner: nat)
      requires Valid()
      requires owner in mutations && !mutations[owner].settling
      modifies this`mutations, this`owners
      ensures Valid()
      ensures Abs() == AnswerMutation(old(Abs()), owner, None)
    {
      hide NotificationTheorems.Past;
      NotificationTheorems.StepPast(Abs(), MutationAnswered(owner, None));
      RetireMutation(owner, mutations[owner].change);
    }
  }
}
