/** The authority to run plugin commands: when it is lost, and what it takes to have it again. */
module CatalogAuthority {
  import opened Common
  import opened CatalogModel
  import opened CatalogLists

  // ---- Counting mutations ------------------------------------------------

  /** The outstanding imports and removals. */
  function MutationRequests(requests: map<nat, Request>): set<nat> {
    set o | o in requests && IsMutation(requests[o].kind)
  }

  /** Mutations are counted exactly: the outstanding toggles, imports and removals. */
  ghost predicate AuthorityInv(s: State) {
    && s.activeMutations == |s.toggles| + |MutationRequests(s.requests)|
    && (forall o :: o in s.requests ==> o <= s.snapshotSequence && s.requests[o].epoch <= s.commandEpoch)
    && (forall o :: o in s.toggles ==> o <= s.mutationSequence)
  }

  lemma RequestAdded(requests: map<nat, Request>, order: nat, q: Request)
    requires order !in requests
    ensures |MutationRequests(requests[order := q])|
      == |MutationRequests(requests)| + (if IsMutation(q.kind) then 1 else 0)
  {
    var added := if IsMutation(q.kind) then {order} else {};
    assert MutationRequests(requests[order := q]) == MutationRequests(requests) + added;
  }

  lemma RequestGone(requests: map<nat, Request>, order: nat)
    requires order in requests
    ensures |MutationRequests(requests - {order})|
      == |MutationRequests(requests)| - (if IsMutation(requests[order].kind) then 1 else 0)
  {
    assert MutationRequests(requests - {order}) == MutationRequests(requests) - {order};
  }

  lemma ToggleGone(toggles: map<nat, Toggle>, owner: nat)
    requires owner in toggles
    ensures |toggles - {owner}| == |toggles| - 1
  {
    assert (toggles - {owner}).Keys == toggles.Keys - {owner};
    assert |toggles - {owner}| == |(toggles - {owner}).Keys| && |toggles| == |toggles.Keys|;
  }

  lemma BeginAuthority(s: State, kind: Kind)
    requires AuthorityInv(s)
    ensures AuthorityInv(Begin(s, kind)) && Begin(s, kind).commandEpoch >= s.commandEpoch
  {
    hide MutationRequests;
    RequestAdded(s.requests, s.snapshotSequence + 1, Request(kind, s.commandEpoch + 1));
  }

  /** What retiring a request touches of the counts. */
  lemma FinishAuthority(s: State, t: State, order: nat)
    requires AuthorityInv(s) && order in s.requests
    requires t.requests == s.requests && t.toggles == s.toggles && t.activeMutations == s.activeMutations
    requires t.snapshotSequence == s.snapshotSequence && t.mutationSequence == s.mutationSequence
    requires t.commandEpoch >= s.commandEpoch
    ensures AuthorityInv(Finish(t, order, s.requests[order].kind))
  {
    hide MutationRequests;
    RequestGone(s.requests, order);
  }

  lemma AnswerAuthority(s: State, order: nat, n: Snapshot, visible: bool)
    requires AuthorityInv(s)
    ensures var t := AnswerSnapshot(s, order, n, visible); AuthorityInv(t) && t.commandEpoch >= s.commandEpoch
  {
    if order in s.requests {
      hide AuthorityInv, AdoptSnapshot, Adopts, ConfirmsAuthority;
      var q := s.requests[order];
      var t := ConfirmSnapshot(s, n, order, q);
      var u := if q.kind.Reload? then t.(reloadStatus := Ready)
               else if IsMutation(q.kind) && !visible then Invalidate(t) else t;
      FinishAuthority(s, u, order);
    }
  }

  lemma FailAuthority(s: State, order: nat)
    requires AuthorityInv(s)
    ensures AuthorityInv(FailSnapshot(s, order)) && FailSnapshot(s, order).commandEpoch >= s.commandEpoch
  {
    if order in s.requests {
      hide AuthorityInv;
      var q := s.requests[order];
      var superseded := order < s.catalog.latestAdoptedOrder;
      if q.kind.Load? {
        FinishAuthority(s, if superseded then s.(loadStatus := Ready) else
          s.(loadError := true, loadStatus := if s.catalog.hasConfirmed then Ready else Failed), order);
      } else if q.kind.Reload? {
        FinishAuthority(s, s.(reloadStatus := if superseded then Ready else Failed), order);
      } else {
        FinishAuthority(s, Invalidate(s), order);
      }
    }
  }

  lemma EndToggleAuthority(s: State, c: Catalog, owner: nat, confirmed: bool)
    requires AuthorityInv(s) && owner in s.toggles
    ensures var t := EndToggle(s.(catalog := c), owner, confirmed); AuthorityInv(t) && t.commandEpoch >= s.commandEpoch
  {
    hide MutationRequests, ReleaseToggle;
    ToggleGone(s.toggles, owner);
  }

  lemma StepAuthority(s: State, e: Event)
    requires AuthorityInv(s)
    ensures AuthorityInv(Step(s, e)) && Step(s, e).commandEpoch >= s.commandEpoch
  {
    match e
    case BeginSnapshot(kind) => BeginAuthority(s, kind);
    case SnapshotAnswered(order, n, visible) => AnswerAuthority(s, order, n, visible);
    case SnapshotFailed(order) => FailAuthority(s, order);
    case BeginToggle(id) => StartToggleAuthority(s, id);
    case ToggleFailed(owner) =>
      if owner in s.toggles { EndToggleAuthority(s, s.catalog, owner, false); }
    case ToggleAnswered(owner, g, r, item) =>
      if owner in s.toggles {
        hide AuthorityInv, EndToggle, AcceptsToggle;
        EndToggleAuthority(s, s.catalog, owner, false);
        EndToggleAuthority(s, AcceptToggle(s.catalog, s.toggles[owner].id, r, item), owner, true);
      }
  }

  lemma StartToggleAuthority(s: State, id: Id)
    requires AuthorityInv(s)
    ensures AuthorityInv(StartToggle(s, id)) && StartToggle(s, id).commandEpoch >= s.commandEpoch
  {
    hide MutationRequests, CanToggle;
  }

  /** A toggle, import or removal ends, and its outcome is not confirmed. */
  predicate EndsUnconfirmed(s: State, e: Event) {
    match e
    case ToggleFailed(owner) => owner in s.toggles
    case ToggleAnswered(owner, g, r, item) =>
      owner in s.toggles && !AcceptsToggle(s.catalog, owner, s.toggles[owner], g, r, item)
    case SnapshotFailed(order) => order in s.requests && IsMutation(s.requests[order].kind)
    case SnapshotAnswered(order, _, visible) =>
      order in s.requests && IsMutation(s.requests[order].kind) && !visible
    case _ => false
  }

  /** An answer to a request begun after epoch `since` is adopted while no other mutation is outstanding. */
  predicate Reconfirms(s: State, e: Event, since: nat) {
    && e.SnapshotAnswered?
    && e.order in s.requests
    && s.requests[e.order].epoch > since
    && Adopts(s.catalog, e.snapshot, e.order)
    && s.toggles == map[]
    && MutationRequests(s.requests) <= {e.order}
  }

  /** No outstanding request begun by epoch `since` can still confirm: the epoch moved on, or none carries it. */
  ghost predicate Outdated(s: State, since: nat) {
    && s.commandEpoch >= since
    && (s.commandEpoch == since ==> forall o :: o in s.requests ==> s.requests[o].epoch != since)
  }

  /** Without such an answer, authority lost at epoch `since` stays lost. */
  lemma {:induction false} AuthorityStaysLost(s: State, events: seq<Event>, since: nat)
    requires AuthorityInv(s) && !s.authority && Outdated(s, since)
    requires forall i :: 0 <= i < |events| ==> !Reconfirms(Run(s, events[..i]), events[i], since)
    ensures !Run(s, events).authority
    decreases |events|
  {
    if events != [] {
      assert events[..0] == [];
      var t := Step(s, events[0]);
      StepAuthority(s, events[0]);
      StepStaysLost(s, events[0], since);
      forall i | 0 <= i < |events[1..]|
        ensures !Reconfirms(Run(t, events[1..][..i]), events[1..][i], since)
      {
        assert events[..i + 1][1..] == events[1..][..i];
        assert !Reconfirms(Run(s, events[..i + 1]), events[i + 1], since);
      }
      AuthorityStaysLost(t, events[1..], since);
    }
  }

  lemma AnswerStaysLost(s: State, order: nat, n: Snapshot, visible: bool, since: nat)
    requires AuthorityInv(s) && !s.authority && Outdated(s, since) && order in s.requests
    requires !Reconfirms(s, SnapshotAnswered(order, n, visible), since)
    ensures !AnswerSnapshot(s, order, n, visible).authority
  {
    hide Adopts, AdoptSnapshot, MutationRequests;
    var q := s.requests[order];
    if ConfirmsAuthority(s, n, order, q) {
      OnlyMutation(s, order);
    }
  }

  lemma StepStaysLost(s: State, e: Event, since: nat)
    requires AuthorityInv(s) && !s.authority && Outdated(s, since)
    requires !Reconfirms(s, e, since)
    ensures !Step(s, e).authority && Outdated(Step(s, e), since)
  {
    hide Adopts, AdoptSnapshot, ConfirmsAuthority, AuthorityInv, Reconfirms, AcceptsToggle, AcceptToggle,
      ReleaseToggle, CanToggle;
    if e.SnapshotAnswered? && e.order in s.requests {
      AnswerStaysLost(s, e.order, e.snapshot, e.visible, since);
    }
  }

  /** The count tells which mutations are outstanding. */
  lemma OnlyMutation(s: State, order: nat)
    requires AuthorityInv(s) && order in s.requests
    requires s.activeMutations == if IsMutation(s.requests[order].kind) then 1 else 0
    ensures s.toggles == map[] && MutationRequests(s.requests) <= {order}
  {
    RequestGone(s.requests, order);
    assert MutationRequests(s.requests - {order}) == {};
    forall x | x in MutationRequests(s.requests)
      ensures x == order
    {
      assert x != order ==> x in MutationRequests(s.requests - {order});
    }
  }

  lemma {:induction false} AuthorityReached(s: State, events: seq<Event>)
    requires AuthorityInv(s)
    ensures AuthorityInv(Run(s, events))
    decreases |events|
  {
    if events != [] {
      StepAuthority(s, events[0]);
      AuthorityReached(Step(s, events[0]), events[1..]);
    }
  }

  lemma UnconfirmedEndInvalidates(s: State, e: Event)
    requires AuthorityInv(s) && EndsUnconfirmed(s, e)
    ensures !Step(s, e).authority
    ensures forall o :: o in Step(s, e).requests ==> Step(s, e).requests[o].epoch < Step(s, e).commandEpoch
  {
    hide Adopts, AdoptSnapshot, ConfirmsAuthority, AcceptToggle, ReleaseToggle, MutationRequests, CanToggle;
  }

  /**
   After a mutation ends unconfirmed no command runs until a snapshot whose request began after
   that end has been adopted with no other mutation outstanding.
   */
  lemma CommandsNeedFreshConfirmation(before: seq<Event>, e: Event, after: seq<Event>)
    requires EndsUnconfirmed(Run(INITIAL, before), e)
    requires CommandsAvailable(Run(Step(Run(INITIAL, before), e), after))
    ensures var t := Step(Run(INITIAL, before), e);
      exists i :: 0 <= i < |after| && Reconfirms(Run(t, after[..i]), after[i], t.commandEpoch)
  {
    var s := Run(INITIAL, before);
    var t := Step(s, e);
    assert AuthorityInv(INITIAL);
    AuthorityReached(INITIAL, before);
    StepAuthority(s, e);
    UnconfirmedEndInvalidates(s, e);
    if forall i :: 0 <= i < |after| ==> !Reconfirms(Run(t, after[..i]), after[i], t.commandEpoch) {
      AuthorityStaysLost(t, after, t.commandEpoch);
      assert false;
    }
  }

  // ---- Requests, epochs and statuses --------------------------------------------

  function ReadRequests(requests: map<nat, Request>): set<nat> {
    set o | o in requests && !IsMutation(requests[o].kind)
  }

  /** Each request has an epoch of its own. */
  ghost predicate OwnEpochs(requests: map<nat, Request>) {
    forall o, p :: o in requests && p in requests && requests[o].epoch == requests[p].epoch ==> o == p
  }

  /** A reload in progress or failed still has a reload outstanding. */
  ghost predicate ReloadLive(status: LoadStatus, requests: map<nat, Request>) {
    status.Loading? || status.Failed? ==> exists o :: o in requests && requests[o].kind.Reload?
  }

  /** What holds of outstanding requests and toggles in every reachable state. */
  ghost predicate RequestsInv(s: State) {
    && s.activeSnapshots == |ReadRequests(s.requests)|
    && OwnEpochs(s.requests)
    && (MutationRequests(s.requests) != {} ==> !s.authority)
    && (s.reloadStatus.Loading? ==> ReloadLive(s.reloadStatus, s.requests))
    && (forall w :: w in s.toggles ==> s.toggles[w].generation <= s.catalog.generation)
  }

  lemma ReadAdded(requests: map<nat, Request>, order: nat, q: Request)
    requires order !in requests
    ensures |ReadRequests(requests[order := q])| == |ReadRequests(requests)| + (if IsMutation(q.kind) then 0 else 1)
  {
    var added := if IsMutation(q.kind) then {} else {order};
    assert ReadRequests(requests[order := q]) == ReadRequests(requests) + added;
  }

  lemma ReadGone(requests: map<nat, Request>, order: nat)
    requires order in requests
    ensures |ReadRequests(requests - {order})|
      == |ReadRequests(requests)| - (if IsMutation(requests[order].kind) then 0 else 1)
    ensures MutationRequests(requests - {order}) == MutationRequests(requests) - {order}
  {
    assert ReadRequests(requests - {order}) == ReadRequests(requests) - {order};
  }

  lemma AdoptRaisesGeneration(c: Catalog, n: Snapshot, order: nat)
    ensures AdoptSnapshot(c, n, order).generation >= c.generation
  {
    hide SameStructure, MergedItems, MergedRevisions;
  }

  lemma EpochAdded(requests: map<nat, Request>, order: nat, q: Request)
    requires OwnEpochs(requests) && forall o :: o in requests ==> requests[o].epoch < q.epoch
    ensures OwnEpochs(requests[order := q])
  {
  }

  lemma ReloadAdded(status: LoadStatus, requests: map<nat, Request>, order: nat, q: Request)
    requires order !in requests
    requires ReloadLive(status, requests) || q.kind.Reload?
    ensures ReloadLive(status, requests[order := q])
  {
    var more := requests[order := q];
    assert order in more && more[order] == q;
    if status.Loading? || status.Failed? {
      if !q.kind.Reload? {
        var o :| o in requests && requests[o].kind.Reload?;
        assert o in more && more[o].kind.Reload?;
      }
    }
  }

  lemma BeginRequests(s: State, kind: Kind)
    requires AuthorityInv(s) && RequestsInv(s)
    ensures RequestsInv(Begin(s, kind))
  {
    var order, q := s.snapshotSequence + 1, Request(kind, s.commandEpoch + 1);
    ReadAdded(s.requests, order, q);
    EpochAdded(s.requests, order, q);
    if s.reloadStatus.Loading? || kind.Reload? { ReloadAdded(Begin(s, kind).reloadStatus, s.requests, order, q); }
    hide ReadRequests, MutationRequests, OwnEpochs, ReloadLive;
  }

  /** Retiring a request, with the authority and reload status it leaves. */
  lemma RetireRequests(s: State, order: nat, t: State)
    requires RequestsInv(s) && order in s.requests && t.requests == s.requests - {order}
    requires t.activeSnapshots == s.activeSnapshots - (if IsMutation(s.requests[order].kind) then 0 else 1)
    requires t.toggles == s.toggles && t.catalog.generation >= s.catalog.generation
    requires t.authority ==> (s.authority || MutationRequests(s.requests) <= {order})
    requires if s.requests[order].kind.Reload? then !t.reloadStatus.Loading? else t.reloadStatus == s.reloadStatus
    ensures RequestsInv(t)
  {
    ReadGone(s.requests, order);
    hide ReadRequests, MutationRequests;
    if t.reloadStatus.Loading? {
      var o :| o in s.requests && s.requests[o].kind.Reload?;
      assert o in t.requests && t.requests[o].kind.Reload?;
    }
  }

  lemma AnswerRequests(s: State, order: nat, n: Snapshot, visible: bool)
    requires AuthorityInv(s) && RequestsInv(s)
    ensures RequestsInv(AnswerSnapshot(s, order, n, visible))
  {
    if order in s.requests {
      if ConfirmsAuthority(s, n, order, s.requests[order]) { OnlyMutation(s, order); }
      AdoptRaisesGeneration(s.catalog, n, order);
      hide AdoptSnapshot, Adopts, AuthorityInv, RequestsInv, MutationRequests;
      RetireRequests(s, order, AnswerSnapshot(s, order, n, visible));
    }
  }

  lemma FailRequests(s: State, order: nat)
    requires RequestsInv(s)
    ensures RequestsInv(FailSnapshot(s, order))
  {
    if order in s.requests {
      hide RequestsInv, MutationRequests;
      RetireRequests(s, order, FailSnapshot(s, order));
    }
  }

  lemma ToggleRequests(s: State, e: Event)
    requires RequestsInv(s) && (e.BeginToggle? || e.ToggleAnswered? || e.ToggleFailed?)
    ensures RequestsInv(Step(s, e))
  {
    hide AcceptsToggle, CanToggle, ReadRequests, MutationRequests, OwnEpochs, ReloadLive, Replace;
  }

  lemma StepRequests(s: State, e: Event)
    requires AuthorityInv(s) && RequestsInv(s)
    ensures RequestsInv(Step(s, e))
  {
    match e
    case BeginSnapshot(kind) => BeginRequests(s, kind);
    case SnapshotAnswered(order, n, visible) => AnswerRequests(s, order, n, visible);
    case SnapshotFailed(order) => FailRequests(s, order);
    case _ => ToggleRequests(s, e);
  }

  lemma {:induction false} RequestsReached(s: State, events: seq<Event>)
    requires AuthorityInv(s) && RequestsInv(s)
    ensures AuthorityInv(Run(s, events)) && RequestsInv(Run(s, events))
    decreases |events|
  {
    if events != [] {
      hide AuthorityInv, RequestsInv, Step;
      StepAuthority(s, events[0]);
      StepRequests(s, events[0]);
      RequestsReached(Step(s, events[0]), events[1..]);
    }
  }

  /** When commands are available, no request and no toggle is outstanding. */
  lemma NothingOutstanding(s: State)
    requires AuthorityInv(s) && RequestsInv(s) && CommandsAvailable(s)
    ensures s.requests == map[] && s.toggles == map[]
  {
    forall o | o in s.requests
      ensures o in MutationRequests(s.requests) || o in ReadRequests(s.requests)
    {
    }
    assert MutationRequests(s.requests) == {} && ReadRequests(s.requests) == {};
  }

  /** In every reachable state, commands are available only while nothing is outstanding. */
  lemma AvailableOnlyAtRest(events: seq<Event>)
    requires CommandsAvailable(Run(INITIAL, events))
    ensures Run(INITIAL, events).requests == map[] && Run(INITIAL, events).toggles == map[]
  {
    InitialRequests();
    RequestsReached(INITIAL, events);
    NothingOutstanding(Run(INITIAL, events));
  }

  lemma InitialRequests()
    ensures AuthorityInv(INITIAL) && RequestsInv(INITIAL)
  {
  }

  // ---- An import or removal whose snapshot is refused -------------------------------

  /** An import or removal ends. */
  predicate EndsRequest(s: State, e: Event) {
    (e.SnapshotAnswered? || e.SnapshotFailed?) && e.order in s.requests && IsMutation(s.requests[e.order].kind)
  }

  /** Its answer is visible, but the snapshot it brings is not adopted. */
  predicate EndsIgnored(s: State, e: Event) {
    EndsRequest(s, e) && e.SnapshotAnswered? && e.visible && !Adopts(s.catalog, e.snapshot, e.order)
  }

  /** Its own snapshot confirms the authority. */
  predicate EndsConfirmed(s: State, e: Event) {
    EndsRequest(s, e) && e.SnapshotAnswered? && e.visible
    && ConfirmsAuthority(s, e.snapshot, e.order, s.requests[e.order])
  }

  lemma NoAuthorityMeanwhile(s: State, order: nat)
    requires RequestsInv(s) && order in s.requests && IsMutation(s.requests[order].kind)
    ensures !s.authority
  {
    assert order in MutationRequests(s.requests);
  }

  lemma EndDecidesAuthority(s: State, e: Event)
    requires EndsRequest(s, e) && !s.authority
    ensures Step(s, e).authority <==> EndsConfirmed(s, e)
    ensures Step(s, e).requests == s.requests - {e.order} && Step(s, e).commandEpoch >= s.commandEpoch
    ensures EndsIgnored(s, e) ==> Step(s, e).commandEpoch == s.commandEpoch && !EndsConfirmed(s, e)
  {
    hide Adopts, AdoptSnapshot;
  }

  lemma EndLeavesNoAuthority(s: State, e: Event)
    requires AuthorityInv(s) && RequestsInv(s) && EndsRequest(s, e)
    ensures Step(s, e).authority <==> EndsConfirmed(s, e)
    ensures Outdated(Step(s, e), s.requests[e.order].epoch)
    ensures EndsIgnored(s, e) ==> Step(s, e).commandEpoch == s.commandEpoch && !EndsConfirmed(s, e)
  {
    NoAuthorityMeanwhile(s, e.order);
    EndDecidesAuthority(s, e);
    hide Step, EndsConfirmed, EndsIgnored, MutationRequests, ReadRequests, ReloadLive;
    assert s.requests[e.order].epoch <= s.commandEpoch;
  }

  /**
   After an import or removal has ended in any way but confirmed by its own snapshot, no command
   runs until a snapshot whose request began after the import or removal began has been adopted
   with no other mutation outstanding.
   */
  lemma CommandsNeedALaterRequest(before: seq<Event>, e: Event, after: seq<Event>)
    requires var s := Run(INITIAL, before); EndsRequest(s, e) && !EndsConfirmed(s, e)
    requires CommandsAvailable(Run(Step(Run(INITIAL, before), e), after))
    ensures var s := Run(INITIAL, before);
      exists i :: 0 <= i < |after| && Reconfirms(Run(Step(s, e), after[..i]), after[i], s.requests[e.order].epoch)
  {
    var s := Run(INITIAL, before);
    var t := Step(s, e);
    InitialRequests();
    RequestsReached(INITIAL, before);
    StepAuthority(s, e);
    EndLeavesNoAuthority(s, e);
    var since := s.requests[e.order].epoch;
    if forall i :: 0 <= i < |after| ==> !Reconfirms(Run(t, after[..i]), after[i], since) {
      AuthorityStaysLost(t, after, since);
      assert false;
    }
  }

  // ---- When the request must have begun after the end ---------------------------------

  /** The outstanding toggle would still be accepted with the right answer. */
  predicate Acceptable(c: Catalog, owner: nat, f: Toggle) {
    OwnsToggle(c, owner, f) && f.generation == c.generation && Find(c.items, f.id).Some?
  }

  /**
   A request still outstanding carries the present epoch, every outstanding toggle can still be
   accepted, and no failed reload stands in the way.
   */
  ghost predicate Exposed(s: State) {
    && (exists o :: o in s.requests && s.requests[o].epoch == s.commandEpoch)
    && (forall w :: w in s.toggles ==> Acceptable(s.catalog, w, s.toggles[w]))
    && (s.reloadStatus.Failed? ==> ReloadLive(s.reloadStatus, s.requests))
  }

  /** Whatever happens next, commands run only after a request begun after this moment has been adopted. */
  ghost predicate NeedsNewRequest(s: State) {
    forall after: seq<Event> | CommandsAvailable(Run(s, after)) ::
      exists i :: 0 <= i < |after| && Reconfirms(Run(s, after[..i]), after[i], s.commandEpoch)
  }

  /** Some event of the run reconfirms. */
  ghost predicate Reconfirmed(s: State, events: seq<Event>, since: nat) {
    exists i :: 0 <= i < |events| && Reconfirms(Run(s, events[..i]), events[i], since)
  }

  lemma ReconfirmedLater(s: State, events: seq<Event>, since: nat, later: nat)
    requires events != [] && Reconfirmed(Step(s, events[0]), events[1..], later) && since <= later
    ensures Reconfirmed(s, events, since)
  {
    var t, rest := Step(s, events[0]), events[1..];
    var i :| 0 <= i < |rest| && Reconfirms(Run(t, rest[..i]), rest[i], later);
    assert events[..i + 1][1..] == rest[..i];
    assert Run(s, events[..i + 1]) == Run(t, rest[..i]);
    assert Reconfirms(Run(s, events[..i + 1]), events[i + 1], since);
  }

  /** Lost authority comes back only by a reconfirmation. */
  lemma AvailableWasReconfirmed(s: State, events: seq<Event>, since: nat)
    requires AuthorityInv(s) && !s.authority && Outdated(s, since) && CommandsAvailable(Run(s, events))
    ensures Reconfirmed(s, events, since)
  {
    if !Reconfirmed(s, events, since) {
      AuthorityStaysLost(s, events, since);
      assert false;
    }
  }

  // ---- A toggle that can no longer be accepted -----------------------------------------

  lemma AdoptKeepsUnacceptable(c: Catalog, n: Snapshot, order: nat, w: nat, f: Toggle)
    requires !Acceptable(c, w, f) && f.generation <= c.generation
    ensures !Acceptable(AdoptSnapshot(c, n, order), w, f)
  {
    var d := AdoptSnapshot(c, n, order);
    if !StartsGeneration(c, n) {
      AdoptShowsNothingNew(c, n, order, f.id);
      FindListed(c.items, f.id);
      FindListed(d.items, f.id);
      hide MergedItems, MergedRevisions, SameStructure, Ids, Find;
    }
  }

  lemma TogglesKeepUnacceptable(s: State, e: Event, w: nat)
    requires (forall o :: o in s.toggles ==> o <= s.mutationSequence)
    requires e.BeginToggle? || e.ToggleAnswered? || e.ToggleFailed?
    requires w in s.toggles && w in Step(s, e).toggles && !Acceptable(s.catalog, w, s.toggles[w])
    ensures Step(s, e).toggles[w] == s.toggles[w] && !Acceptable(Step(s, e).catalog, w, s.toggles[w])
  {
    hide AcceptsToggle, CanToggle, Find, Replace;
    if e.ToggleAnswered? {
      ReplaceListed(s.catalog.items, e.item, s.toggles[w].id);
    }
  }

  lemma RequestsKeepToggles(s: State, e: Event)
    requires e.BeginSnapshot? || e.SnapshotAnswered? || e.SnapshotFailed?
    ensures var t := Step(s, e);
      && t.toggles == s.toggles
      && (t.catalog == s.catalog
          || (e.SnapshotAnswered? && t.catalog == AdoptSnapshot(s.catalog, e.snapshot, e.order).(hasConfirmed := true)))
  {
    hide Adopts, AdoptSnapshot, ConfirmsAuthority;
  }

  /** A toggle that can no longer be accepted never can be again. */
  lemma UnacceptableStays(s: State, e: Event, w: nat)
    requires AuthorityInv(s) && RequestsInv(s)
    requires w in s.toggles && w in Step(s, e).toggles && !Acceptable(s.catalog, w, s.toggles[w])
    ensures Step(s, e).toggles[w] == s.toggles[w] && !Acceptable(Step(s, e).catalog, w, s.toggles[w])
  {
    hide Step, MutationRequests, ReadRequests, OwnEpochs, ReloadLive, Find, AdoptSnapshot;
    if e.BeginToggle? || e.ToggleAnswered? || e.ToggleFailed? {
      TogglesKeepUnacceptable(s, e, w);
    } else {
      RequestsKeepToggles(s, e);
      if e.SnapshotAnswered? { AdoptKeepsUnacceptable(s.catalog, e.snapshot, e.order, w, s.toggles[w]); }
    }
  }

  lemma ToggleBlocksCommands(s: State, w: nat)
    requires AuthorityInv(s) && w in s.toggles
    ensures s.activeMutations > 0
  {
    assert |s.toggles| > 0;
  }

  /** Until such a toggle ends there is no authority, and its end revokes all requests begun before. */
  lemma {:induction false} BlockedByToggle(s: State, events: seq<Event>, w: nat, since: nat)
    requires AuthorityInv(s) && RequestsInv(s) && !s.authority && s.commandEpoch >= since
    requires w in s.toggles && !Acceptable(s.catalog, w, s.toggles[w])
    requires CommandsAvailable(Run(s, events))
    ensures Reconfirmed(s, events, since)
    decreases |events|
  {
    ToggleBlocksCommands(s, w);
    if events != [] {
      var e := events[0];
      var t := Step(s, e);
      StepAuthority(s, e);
      StepRequests(s, e);
      if w in t.toggles {
        UnacceptableStays(s, e, w);
        ToggleHoldsAuthority(s, e, w);
        hide Step, AuthorityInv, RequestsInv, Acceptable, CommandsAvailable;
        BlockedByToggle(t, events[1..], w, since);
        ReconfirmedLater(s, events, since, since);
      } else {
        UnacceptableEnds(s, e, w);
        UnconfirmedEndInvalidates(s, e);
        hide Step, AuthorityInv, RequestsInv, Acceptable, CommandsAvailable;
        AvailableWasReconfirmed(t, events[1..], t.commandEpoch);
        ReconfirmedLater(s, events, since, t.commandEpoch);
      }
    }
  }

  lemma ToggleHoldsAuthority(s: State, e: Event, w: nat)
    requires AuthorityInv(s) && !s.authority && w in s.toggles
    ensures !Step(s, e).authority
  {
    hide Adopts, AdoptSnapshot, AcceptsToggle, CanToggle;
    assert |s.toggles| > 0;
    if e.SnapshotAnswered? && e.order in s.requests && ConfirmsAuthority(s, e.snapshot, e.order, s.requests[e.order]) {
      OnlyMutation(s, e.order);
      assert false;
    }
  }

  lemma UnacceptableEnds(s: State, e: Event, w: nat)
    requires w in s.toggles && w !in Step(s, e).toggles && !Acceptable(s.catalog, w, s.toggles[w])
    ensures EndsUnconfirmed(s, e)
  {
    hide Adopts, AdoptSnapshot, CanToggle, Find;
  }

  // ---- A reload that has failed ----------------------------------------------------------

  lemma {:induction false} BlockedByReload(s: State, events: seq<Event>, since: nat)
    requires AuthorityInv(s) && s.commandEpoch >= since
    requires s.reloadStatus.Failed? && !ReloadLive(s.reloadStatus, s.requests)
    requires CommandsAvailable(Run(s, events))
    ensures Reconfirmed(s, events, since)
    decreases |events|
  {
    if events != [] {
      var e := events[0];
      var t := Step(s, e);
      StepAuthority(s, e);
      if e == BeginSnapshot(Reload) {
        assert !t.authority && t.commandEpoch > since;
        hide Step, AuthorityInv, CommandsAvailable;
        AvailableWasReconfirmed(t, events[1..], since);
        ReconfirmedLater(s, events, since, since);
      } else {
        ReloadStaysFailed(s, e);
        hide Step, AuthorityInv, CommandsAvailable;
        BlockedByReload(t, events[1..], since);
        ReconfirmedLater(s, events, since, since);
      }
    }
  }

  lemma ReloadStaysFailed(s: State, e: Event)
    requires s.reloadStatus.Failed? && !ReloadLive(s.reloadStatus, s.requests) && e != BeginSnapshot(Reload)
    ensures Step(s, e).reloadStatus.Failed? && !ReloadLive(Step(s, e).reloadStatus, Step(s, e).requests)
  {
    hide Adopts, AdoptSnapshot, ConfirmsAuthority, AcceptsToggle, AcceptToggle, CanToggle, ReleaseToggle;
    var t := Step(s, e);
    assert forall o :: o in t.requests ==> !t.requests[o].kind.Reload?;
  }

  /** Unexposed, every way back to commands needs a request begun later. */
  lemma UnexposedNeedsNewRequest(s: State)
    requires AuthorityInv(s) && RequestsInv(s) && !s.authority && !Exposed(s)
    ensures NeedsNewRequest(s)
  {
    forall after: seq<Event> | CommandsAvailable(Run(s, after))
      ensures Reconfirmed(s, after, s.commandEpoch)
    {
      if w :| w in s.toggles && !Acceptable(s.catalog, w, s.toggles[w]) {
        BlockedByToggle(s, after, w, s.commandEpoch);
      } else if s.reloadStatus.Failed? && !ReloadLive(s.reloadStatus, s.requests) {
        BlockedByReload(s, after, s.commandEpoch);
      } else {
        assert Outdated(s, s.commandEpoch);
        AvailableWasReconfirmed(s, after, s.commandEpoch);
      }
    }
  }

  // ---- Exposed, an old request is enough ----------------------------------------------------

  ghost predicate NoneBegun(events: seq<Event>) {
    forall i :: 0 <= i < |events| ==> !events[i].BeginSnapshot?
  }

  lemma {:induction false} OldRequests(s: State, events: seq<Event>)
    requires NoneBegun(events)
    ensures forall o :: o in Run(s, events).requests ==> o in s.requests && Run(s, events).requests[o] == s.requests[o]
    decreases |events|
  {
    if events != [] {
      var t := Step(s, events[0]);
      OldRequestsStep(s, events[0]);
      assert NoneBegun(events[1..]);
      hide Step;
      OldRequests(t, events[1..]);
    }
  }

  lemma OldRequestsStep(s: State, e: Event)
    requires !e.BeginSnapshot?
    ensures forall o :: o in Step(s, e).requests ==> o in s.requests && Step(s, e).requests[o] == s.requests[o]
  {
    hide Adopts, AdoptSnapshot, ConfirmsAuthority, AcceptsToggle, AcceptToggle, CanToggle, ReleaseToggle;
  }

  /** If nothing is begun, nothing reconfirms since now. */
  lemma NothingReconfirms(s: State, events: seq<Event>)
    requires AuthorityInv(s) && NoneBegun(events)
    ensures !Reconfirmed(s, events, s.commandEpoch)
  {
    forall i | 0 <= i < |events|
      ensures !Reconfirms(Run(s, events[..i]), events[i], s.commandEpoch)
    {
      assert NoneBegun(events[..i]);
      OldRequests(s, events[..i]);
    }
  }

  ghost predicate AllAcceptable(s: State) {
    forall w :: w in s.toggles ==> Acceptable(s.catalog, w, s.toggles[w])
  }

  lemma {:induction false} RunCons(s: State, e: Event, rest: seq<Event>)
    ensures Run(s, [e] + rest) == Run(Step(s, e), rest)
    ensures !e.BeginSnapshot? && NoneBegun(rest) ==> NoneBegun([e] + rest)
  {
    assert ([e] + rest)[1..] == rest;
  }

  /** The right answer ends an acceptable toggle, and touches no other and no epoch. */
  lemma AcceptOne(s: State, w: nat) returns (e: Event)
    requires AllAcceptable(s) && w in s.toggles
    ensures e.ToggleAnswered?
    ensures var t := Step(s, e);
      && AllAcceptable(t) && t.toggles == s.toggles - {w}
      && t.requests == s.requests && t.commandEpoch == s.commandEpoch && t.reloadStatus == s.reloadStatus
  {
    var f, c := s.toggles[w], s.catalog;
    var item := Find(c.items, f.id).value;
    var revision := if f.id in c.itemRevisions then c.itemRevisions[f.id] else 0;
    FindHasId(c.items, f.id);
    e := ToggleAnswered(w, f.generation, revision, item);
    assert AcceptsToggle(c, w, f, f.generation, revision, item);
    var t := Step(s, e);
    hide AcceptsToggle, Replace, Find;
    forall v | v in t.toggles
      ensures Acceptable(t.catalog, v, t.toggles[v])
    {
      assert v in s.toggles && v != w && t.toggles[v] == s.toggles[v];
      assert Acceptable(c, v, s.toggles[v]);
      ReplaceListed(c.items, item, s.toggles[v].id);
    }
  }

  lemma AcceptToggles(s: State) returns (events: seq<Event>)
    requires AllAcceptable(s)
    ensures NoneBegun(events)
    ensures var t := Run(s, events);
      t.toggles == map[] && t.requests == s.requests && t.commandEpoch == s.commandEpoch
      && t.reloadStatus == s.reloadStatus
    decreases |s.toggles|
  {
    if s.toggles == map[] {
      events := [];
    } else {
      hide AllAcceptable, Step;
      var w :| w in s.toggles;
      ToggleGone(s.toggles, w);
      var e := AcceptOne(s, w);
      var rest := AcceptToggles(Step(s, e));
      RunCons(s, e, rest);
      events := [e] + rest;
    }
  }

  /** A snapshot of a new generation answers any request without touching the epoch. */
  lemma AnswerOne(s: State, r: nat, n: Snapshot)
    requires r in s.requests && n.generation > s.catalog.generation
    ensures var t := AnswerSnapshot(s, r, n, true);
      && t.requests == s.requests - {r} && t.toggles == s.toggles && t.commandEpoch == s.commandEpoch
      && t.reloadStatus == (if s.requests[r].kind.Reload? then Ready else s.reloadStatus)
      && t.authority == ConfirmsAuthority(s, n, r, s.requests[r])
      && t.loadStatus.Ready? && !t.loadError
      && t.catalog.available == Some(n.available) && t.catalog.pendingIds == {} && t.catalog.revision == n.revision
  {
    hide ConfirmsAuthority, SameStructure, MergedItems, MergedRevisions;
  }

  lemma AnswerOthers(s: State, o: nat, n: Snapshot) returns (events: seq<Event>)
    requires o in s.requests && s.toggles == map[] && ReloadLive(s.reloadStatus, s.requests)
    ensures NoneBegun(events)
    ensures var t := Run(s, events);
      && t.toggles == map[] && t.commandEpoch == s.commandEpoch && t.requests == map[o := s.requests[o]]
      && ReloadLive(t.reloadStatus, t.requests)
    decreases |s.requests|
  {
    if r :| r in s.requests && r != o {
      var m := n.(generation := s.catalog.generation + 1);
      var e := SnapshotAnswered(r, m, true);
      var t := Step(s, e);
      AnswerOne(s, r, m);
      hide AnswerSnapshot, ConfirmsAuthority;
      RequestCount(s.requests, r);
      if !s.requests[r].kind.Reload? && (s.reloadStatus.Loading? || s.reloadStatus.Failed?) {
        var q :| q in s.requests && s.requests[q].kind.Reload?;
        assert q in t.requests && t.requests[q].kind.Reload?;
      }
      var rest := AnswerOthers(t, o, n);
      RunCons(s, e, rest);
      events := [e] + rest;
    } else {
      assert s.requests == map[o := s.requests[o]];
      events := [];
    }
  }

  lemma RequestCount(requests: map<nat, Request>, r: nat)
    requires r in requests
    ensures |requests - {r}| == |requests| - 1
  {
    assert (requests - {r}).Keys == requests.Keys - {r};
    assert |requests - {r}| == |(requests - {r}).Keys| && |requests| == |requests.Keys|;
  }

  /** The last outstanding request, if it carries the present epoch, makes commands available. */
  lemma LastRequestConfirms(s: State, o: nat, n: Snapshot)
    requires AuthorityInv(s) && RequestsInv(s) && s.toggles == map[] && s.requests.Keys == {o}
    requires s.requests[o].epoch == s.commandEpoch && ReloadLive(s.reloadStatus, s.requests)
    requires n.generation > s.catalog.generation && n.available
    ensures CommandsAvailable(Step(s, SnapshotAnswered(o, n, true)))
  {
    var t := Step(s, SnapshotAnswered(o, n, true));
    StepAuthority(s, SnapshotAnswered(o, n, true));
    StepRequests(s, SnapshotAnswered(o, n, true));
    AnswerOne(s, o, n);
    assert MutationRequests(s.requests) == if IsMutation(s.requests[o].kind) then {o} else {};
    hide AnswerSnapshot;
    assert ConfirmsAuthority(s, n, o, s.requests[o]) by { NewGenerationRevision(s.catalog, n, o); }
    assert t.requests == map[];
    assert MutationRequests(t.requests) == {} && ReadRequests(t.requests) == {};
  }

  lemma NewGenerationRevision(c: Catalog, n: Snapshot, order: nat)
    requires n.generation > c.generation
    ensures Adopts(c, n, order) && AdoptSnapshot(c, n, order).revision == n.revision
  {
  }

  /** Exposed, some continuation begins nothing and makes commands available. */
  lemma ExposedHasRun(s: State, n: Snapshot)
    requires AuthorityInv(s) && RequestsInv(s) && Exposed(s)
    ensures !NeedsNewRequest(s)
  {
    var o :| o in s.requests && s.requests[o].epoch == s.commandEpoch;
    var first := AcceptToggles(s);
    var t := Run(s, first);
    RequestsReached(s, first);
    var second := AnswerOthers(t, o, n);
    var u := Run(t, second);
    RequestsReached(t, second);
    var m := n.(generation := u.catalog.generation + 1, available := true);
    var last := SnapshotAnswered(o, m, true);
    LastRequestConfirms(u, o, m);
    RunAppend(s, first, second);
    RunAppend(s, first + second, [last]);
    var after := first + second + [last];
    assert Run(u, [last]) == Step(u, last);
    assert NoneBegun(after);
    NothingReconfirms(s, after);
    hide Run, Step, AuthorityInv, RequestsInv, Exposed, CommandsAvailable, Reconfirms;
    assert CommandsAvailable(Run(s, after));
  }

  lemma {:induction false} RunAppend(s: State, before: seq<Event>, after: seq<Event>)
    ensures Run(s, before + after) == Run(Run(s, before), after)
    decreases |before|
  {
    if before == [] {
      assert before + after == after;
    } else {
      assert (before + after)[1..] == before[1..] + after;
      RunAppend(Step(s, before[0]), before[1..], after);
    }
  }

  /**
   After an import or removal has ended in any way but confirmed by its own snapshot, commands
   need a request begun after that end exactly when the end does not leave the store exposed.
   */
  lemma EndNeedsNewRequestIff(before: seq<Event>, e: Event)
    requires var s := Run(INITIAL, before); EndsRequest(s, e) && !EndsConfirmed(s, e)
    ensures NeedsNewRequest(Step(Run(INITIAL, before), e)) <==> !Exposed(Step(Run(INITIAL, before), e))
  {
    var s := Run(INITIAL, before);
    var t := Step(s, e);
    InitialRequests();
    RequestsReached(INITIAL, before);
    StepAuthority(s, e);
    StepRequests(s, e);
    EndLeavesNoAuthority(s, e);
    if e.SnapshotFailed? {
      UnconfirmedEndInvalidates(s, e);
      assert !Exposed(t);
    }
    hide Step, Run, AuthorityInv, RequestsInv, Exposed, NeedsNewRequest;
    if Exposed(t) {
      ExposedHasRun(t, e.snapshot);
    } else {
      UnexposedNeedsNewRequest(t);
    }
  }

  /** Loaded, import begun, reloaded, loading again: then the import is answered from an old generation. */
  function IgnoredImport(n1: Snapshot, n2: Snapshot): seq<Event> {
    [BeginSnapshot(Load), SnapshotAnswered(1, n1, true), BeginSnapshot(Import), BeginSnapshot(Reload),
     SnapshotAnswered(3, n2, true), BeginSnapshot(Load)]
  }

  lemma SixSteps(s: State, e: seq<Event>)
    requires |e| == 6
    ensures Run(s, e) == Step(Step(Step(Step(Step(Step(s, e[0]), e[1]), e[2]), e[3]), e[4]), e[5])
  {
    hide Step;
    var s1 := Step(s, e[0]);
    var s2 := Step(s1, e[1]);
    var s3 := Step(s2, e[2]);
    var s4 := Step(s3, e[3]);
    var s5 := Step(s4, e[4]);
    assert e[1..][1..] == e[2..] && e[2..][1..] == e[3..] && e[3..][1..] == e[4..] && e[4..][1..] == e[5..];
    assert e[5..][1..] == [];
    assert Run(s5, e[5..]) == Step(s5, e[5]);
    assert Run(s4, e[4..]) == Run(s5, e[5..]);
    assert Run(s3, e[3..]) == Run(s4, e[4..]);
    assert Run(s2, e[2..]) == Run(s3, e[3..]);
    assert Run(s1, e[1..]) == Run(s2, e[2..]);
  }

  /** Loaded, with an import and a reload outstanding. */
  lemma ImportBegun(n1: Snapshot)
    requires 0 < n1.generation
    ensures var s := Step(Step(Step(Step(INITIAL, BeginSnapshot(Load)), SnapshotAnswered(1, n1, true)),
                               BeginSnapshot(Import)), BeginSnapshot(Reload));
      && s.requests == map[2 := Request(Import, 2), 3 := Request(Reload, 3)] && s.commandEpoch == 3
      && s.toggles == map[] && s.snapshotSequence == 3 && s.catalog.generation == n1.generation
  {
    var s1 := Step(INITIAL, BeginSnapshot(Load));
    var s2 := Step(s1, SnapshotAnswered(1, n1, true));
    AnswerOne(s1, 1, n1);
    AdoptedGeneration(s1.catalog, n1, 1);
    assert s2.requests == map[] && s2.commandEpoch == 1 && s2.snapshotSequence == 1;
  }

  lemma IgnoredImportState(n1: Snapshot, n2: Snapshot)
    requires 0 < n1.generation < n2.generation
    ensures var s := Run(INITIAL, IgnoredImport(n1, n2));
      && s.requests == map[2 := Request(Import, 2), 4 := Request(Load, 4)] && s.commandEpoch == 4
      && s.toggles == map[] && s.catalog.generation == n2.generation && s.catalog.hasConfirmed
      && s.reloadStatus.Ready?
  {
    var s4 := Step(Step(Step(Step(INITIAL, BeginSnapshot(Load)), SnapshotAnswered(1, n1, true)),
                        BeginSnapshot(Import)), BeginSnapshot(Reload));
    SixSteps(INITIAL, IgnoredImport(n1, n2));
    ImportBegun(n1);
    LoadAfterReload(s4, n2);
    hide Step, Run;
  }

  lemma LoadAfterReload(s: State, n: Snapshot)
    requires s.requests == map[2 := Request(Import, 2), 3 := Request(Reload, 3)] && s.commandEpoch == 3
    requires s.snapshotSequence == 3 && n.generation > s.catalog.generation
    ensures var t := Step(Step(s, SnapshotAnswered(3, n, true)), BeginSnapshot(Load));
      && t.requests == map[2 := Request(Import, 2), 4 := Request(Load, 4)] && t.commandEpoch == 4
      && t.toggles == s.toggles && t.catalog.generation == n.generation && t.catalog.hasConfirmed
      && t.reloadStatus.Ready?
  {
    AnswerOne(s, 3, n);
    AdoptedGeneration(s.catalog, n, 3);
    hide ConfirmsAuthority, AdoptSnapshot, Adopts;
    var t := Step(s, SnapshotAnswered(3, n, true));
    assert t.requests == map[2 := Request(Import, 2)];
  }

  lemma AdoptedGeneration(c: Catalog, n: Snapshot, order: nat)
    requires n.generation > c.generation
    ensures AdoptSnapshot(c, n, order).generation == n.generation
  {
  }

  /**
   A run in which an import ends with a refused snapshot and commands run again although no
   request begun after that end was adopted: the load begun before it is answered after it.
   */
  lemma IgnoredImportRun(n1: Snapshot, n2: Snapshot, n3: Snapshot)
    requires 0 < n1.generation < n2.generation < n3.generation && n3.available
    ensures var s := Run(INITIAL, IgnoredImport(n1, n2));
      var end, answer := SnapshotAnswered(2, n1, true), SnapshotAnswered(4, n3, true);
      var t := Step(s, end);
      && EndsIgnored(s, end)
      && CommandsAvailable(Run(t, [answer]))
      && !Reconfirmed(t, [answer], t.commandEpoch)
  {
    var s := Run(INITIAL, IgnoredImport(n1, n2));
    var end, answer := SnapshotAnswered(2, n1, true), SnapshotAnswered(4, n3, true);
    var t := Step(s, end);
    InitialRequests();
    RequestsReached(INITIAL, IgnoredImport(n1, n2));
    IgnoredImportState(n1, n2);
    hide Run;
    assert EndsIgnored(s, end);
    StepAuthority(s, end);
    StepRequests(s, end);
    RefusedKeeps(s, 2, n1);
    assert t.requests.Keys == {4};
    LastRequestConfirms(t, 4, n3);
    assert NoneBegun([answer]);
    NothingReconfirms(t, [answer]);
    RunCons(t, answer, []);
    assert [answer] + [] == [answer];
    RunNothing(Step(t, answer));
  }

  lemma RunNothing(s: State)
    ensures Run(s, []) == s
  {
  }

  lemma RefusedKeeps(s: State, order: nat, n: Snapshot)
    requires order in s.requests && !Adopts(s.catalog, n, order) && IsMutation(s.requests[order].kind)
    ensures var t := AnswerSnapshot(s, order, n, true);
      && t.requests == s.requests - {order} && t.toggles == s.toggles && t.commandEpoch == s.commandEpoch
      && t.catalog.generation == s.catalog.generation && t.reloadStatus == s.reloadStatus
  {
    hide Adopts;
  }
}
