/**
 The plugin store itself: its refs and counters, and the actions that update them in place.
 Every action is cut at its await into a beginning and an ending; each half is proved to take
 the step of the state machine it stands for.
 */
module Catalog {
  import opened Common
  import opened CatalogModel
  import CatalogAuthority

  class PluginStore {
    var shown: CatalogModel.Catalog
    var requests: map<nat, Request>
    var toggles: map<nat, Toggle>
    var snapshotSequence: nat
    var mutationSequence: nat
    var commandEpoch: nat
    var commandAuthorityConfirmed: bool
    var activeCommandMutations: int
    var activeSnapshotRequests: int
    var loadStatus: LoadStatus
    var loadError: bool
    var reloadStatus: LoadStatus

    ghost function Abs(): (s: State)
      reads this
    {
      State(shown, requests, toggles, snapshotSequence, mutationSequence, commandEpoch,
            commandAuthorityConfirmed, activeCommandMutations, activeSnapshotRequests,
            loadStatus, loadError, reloadStatus)
    }

    /** The counters tell the outstanding requests and mutations, and no authority outlives a mutation's beginning. */
    ghost predicate Valid()
      reads this
    {
      CatalogAuthority.AuthorityInv(Abs()) && CatalogAuthority.RequestsInv(Abs())
    }

    constructor ()
      ensures Valid()
      ensures Abs() == INITIAL
    {
      shown := EMPTY_CATALOG;
      requests, toggles, snapshotSequence, mutationSequence, commandEpoch := map[], map[], 0, 0, 0;
      commandAuthorityConfirmed, activeCommandMutations, activeSnapshotRequests := false, 0, 0;
      loadStatus, loadError, reloadStatus := Idle, false, Idle;
    }

    // ---- Adoption -------------------------------------------------------

    method HasSameGenerationStructure(n: Snapshot) returns (same: bool)
      ensures same == SameStructure(shown, n)
    {
      if shown.ownership != Some(n.ownership) || |n.items| != |shown.items| { return false; }
      for i := 0 to |n.items|
        invariant forall j :: 0 <= j < i ==>
                    var current := Find(shown.items, n.items[j].id);
                    current.Some? && SameImmutable(current.value, n.items[j])
      {
        var current := Find(shown.items, n.items[i].id);
        if current.None? || !SameImmutable(current.value, n.items[i]) { return false; }
      }
      return true;
    }

    /** Takes the snapshot's version of every item not confirmed above it. */
    method MergeListed(n: Snapshot) returns (items: seq<Item>, revisions: map<Id, nat>)
      ensures items == MergedListed(shown, n)
      ensures revisions.Keys == Ids(n.items)
      ensures forall id :: id in revisions ==> revisions[id] == MergedRevision(shown, n.revision, id)
    {
      items, revisions := [], map[];
      for i := 0 to |n.items|
        invariant |items| == i
        invariant forall j :: 0 <= j < i ==> items[j] == MergeItem(shown, n.revision, n.items[j])
        invariant revisions.Keys == Ids(n.items[..i])
        invariant forall id :: id in revisions ==> revisions[id] == MergedRevision(shown, n.revision, id)
      {
        var item := n.items[i];
        assert n.items[..i + 1] == n.items[..i] + [item];
        IdsAppend(n.items[..i], item);
        var current := Find(shown.items, item.id);
        if current.Some? && item.id in shown.itemRevisions && shown.itemRevisions[item.id] > n.revision {
          items := items + [current.value];
          revisions := revisions[item.id := shown.itemRevisions[item.id]];
        } else {
          items := items + [item];
          revisions := revisions[item.id := n.revision];
        }
      }
      assert n.items[..|n.items|] == n.items;
    }

    /** The shown items the snapshot does not list but that were confirmed above it. */
    method CollectMissing(n: Snapshot) returns (missing: seq<Item>)
      ensures missing == Readded(shown, n, shown.items)
    {
      missing := [];
      var listed := Ids(n.items);
      for i := 0 to |shown.items|
        invariant missing + Readded(shown, n, shown.items[i..]) == Readded(shown, n, shown.items)
      {
        var item := shown.items[i];
        assert shown.items[i..][1..] == shown.items[i + 1..];
        if item.id !in listed && Find(shown.items, item.id).Some?
           && item.id in shown.itemRevisions && shown.itemRevisions[item.id] > n.revision {
          missing := missing + [item];
        }
      }
    }

    method MergeSnapshot(n: Snapshot) returns (items: seq<Item>, revisions: map<Id, nat>)
      ensures items == MergedItems(shown, n)
      ensures revisions == MergedRevisions(shown, n)
    {
      var listed, listedRevisions := MergeListed(n);
      var missing := CollectMissing(n);
      ReaddedOutlive(shown, n, shown.items);
      items := SortById(listed + missing);
      revisions := listedRevisions + map id | id in Ids(missing) :: shown.itemRevisions[id];
    }

    method AdoptSnapshot(n: Snapshot, order: nat) returns (adopted: bool)
      modifies this`shown
      ensures adopted == Adopts(old(shown), n, order)
      ensures shown == CatalogModel.AdoptSnapshot(old(shown), n, order)
    {
      hide SameStructure, MergedItems, MergedRevisions;
      if n.generation < shown.generation { return false; }
      if n.generation > shown.generation || !shown.hasConfirmed {
        shown := shown.(
          items := n.items, generation := n.generation, revision := n.revision,
          available := Some(n.available), ownership := Some(n.ownership),
          snapshotRevision := n.revision, snapshotOrder := order,
          latestAdoptedOrder := Max(shown.latestAdoptedOrder, order),
          itemRevisions := map id | id in Ids(n.items) :: n.revision,
          mutationOwners := map[], pendingIds := {});
        return true;
      }
      var same := HasSameGenerationStructure(n);
      if !same { return false; }
      if n.revision < shown.snapshotRevision
         || (n.revision == shown.snapshotRevision && order < shown.snapshotOrder) { return false; }
      var items, revisions := MergeSnapshot(n);
      shown := shown.(snapshotRevision := n.revision, snapshotOrder := order,
                      latestAdoptedOrder := Max(shown.latestAdoptedOrder, order),
                      itemRevisions := revisions, items := items);
      if n.revision >= shown.revision {
        shown := shown.(available := Some(n.available), ownership := Some(n.ownership));
      }
      AdoptGlobalRevision(n.revision);
      return true;
    }

    method AdoptGlobalRevision(next: nat)
      modifies this`shown
      ensures shown == old(shown).(revision := Max(old(shown).revision, next))
    {
      if next > shown.revision { shown := shown.(revision := next); }
    }

    // ---- Snapshot requests: load, reload, import, removal -----------------

    method InvalidateCommandAuthority() returns (epoch: nat)
      modifies this`commandAuthorityConfirmed, this`commandEpoch
      ensures Abs() == Invalidate(old(Abs()))
      ensures epoch == commandEpoch
    {
      commandAuthorityConfirmed := false;
      commandEpoch := commandEpoch + 1;
      epoch := commandEpoch;
    }

    method BeginRequest(kind: Kind) returns (order: nat)
      requires Valid()
      modifies this`requests, this`snapshotSequence, this`commandEpoch, this`commandAuthorityConfirmed,
               this`activeCommandMutations, this`activeSnapshotRequests,
               this`loadStatus, this`loadError, this`reloadStatus
      ensures Valid()
      ensures Abs() == Begin(old(Abs()), kind)
      ensures order == snapshotSequence
    {
      hide CatalogAuthority.AuthorityInv, CatalogAuthority.RequestsInv;
      CatalogAuthority.StepAuthority(Abs(), BeginSnapshot(kind));
      CatalogAuthority.StepRequests(Abs(), BeginSnapshot(kind));
      snapshotSequence := snapshotSequence + 1;
      order := snapshotSequence;
      var epoch := InvalidateCommandAuthority();
      if IsMutation(kind) {
        activeCommandMutations := activeCommandMutations + 1;
      } else {
        activeSnapshotRequests := activeSnapshotRequests + 1;
        if kind.Load? {
          loadStatus, loadError := Loading, false;
        } else {
          reloadStatus := Loading;
        }
      }
      requests := requests[order := Request(kind, epoch)];
    }

    method ConfirmAuthoritativeSnapshot(n: Snapshot, order: nat, q: Request)
      modifies this`shown, this`commandAuthorityConfirmed, this`loadStatus, this`loadError
      ensures Abs() == ConfirmSnapshot(old(Abs()), n, order, q)
    {
      hide Adopts, CatalogModel.AdoptSnapshot;
      var adopted := AdoptSnapshot(n, order);
      if adopted {
        commandAuthorityConfirmed :=
          q.epoch == commandEpoch
          && activeCommandMutations == (if IsMutation(q.kind) then 1 else 0)
          && n.revision == shown.revision;
      }
      shown := shown.(hasConfirmed := true);
      loadStatus, loadError := Ready, false;
    }

    method FinishRequest(order: nat, kind: Kind)
      modifies this`requests, this`activeCommandMutations, this`activeSnapshotRequests
      ensures Abs() == Finish(old(Abs()), order, kind)
    {
      requests := requests - {order};
      if IsMutation(kind) {
        activeCommandMutations := activeCommandMutations - 1;
      } else {
        activeSnapshotRequests := activeSnapshotRequests - 1;
      }
    }

    method EndRequest(order: nat, n: Snapshot, visible: bool)
      requires Valid()
      modifies this
      ensures Valid()
      ensures Abs() == AnswerSnapshot(old(Abs()), order, n, visible)
    {
      hide CatalogAuthority.AuthorityInv, CatalogAuthority.RequestsInv;
      CatalogAuthority.StepAuthority(Abs(), SnapshotAnswered(order, n, visible));
      CatalogAuthority.StepRequests(Abs(), SnapshotAnswered(order, n, visible));
      hide ConfirmSnapshot;
      if order !in requests { return; }
      var q := requests[order];
      ConfirmAuthoritativeSnapshot(n, order, q);
      if q.kind.Reload? {
        reloadStatus := Ready;
      } else if IsMutation(q.kind) && !visible {
        var _ := InvalidateCommandAuthority();
      }
      FinishRequest(order, q.kind);
    }

    method FailRequest(order: nat)
      requires Valid()
      modifies this
      ensures Valid()
      ensures Abs() == FailSnapshot(old(Abs()), order)
    {
      hide CatalogAuthority.AuthorityInv, CatalogAuthority.RequestsInv;
      CatalogAuthority.StepAuthority(Abs(), SnapshotFailed(order));
      CatalogAuthority.StepRequests(Abs(), SnapshotFailed(order));
      if order !in requests { return; }
      var q := requests[order];
      var superseded := order < shown.latestAdoptedOrder;
      if IsMutation(q.kind) {
        var _ := InvalidateCommandAuthority();
      } else if q.kind.Reload? {
        reloadStatus := if superseded then Ready else Failed;
      } else if superseded {
        loadStatus := Ready;
      } else {
        loadError := true;
        loadStatus := if shown.hasConfirmed then Ready else Failed;
      }
      FinishRequest(order, q.kind);
    }

    // ---- Toggles ----------------------------------------------------------

    method BeginSetEnabled(id: Id) returns (begun: bool)
      requires Valid()
      modifies this
      ensures Valid()
      ensures begun == CanToggle(old(shown).items, id)
      ensures Abs() == StartToggle(old(Abs()), id)
    {
      hide CatalogAuthority.AuthorityInv, CatalogAuthority.RequestsInv;
      CatalogAuthority.StepAuthority(Abs(), BeginToggle(id));
      CatalogAuthority.StepRequests(Abs(), BeginToggle(id));
      var existing := Find(shown.items, id);
      if existing.None? || !existing.value.status.canToggle { return false; }
      activeCommandMutations := activeCommandMutations + 1;
      commandEpoch := commandEpoch + 1;
      mutationSequence := mutationSequence + 1;
      toggles := toggles[mutationSequence := Toggle(id, shown.generation)];
      shown := shown.(mutationOwners := shown.mutationOwners[id := mutationSequence],
                      pendingIds := shown.pendingIds + {id});
      return true;
    }

    method EndSetEnabled(owner: nat, generation: nat, revision: nat, item: Item) returns (confirmed: bool)
      requires Valid()
      modifies this
      ensures Valid()
      ensures Abs() == AnswerToggle(old(Abs()), owner, generation, revision, item)
      ensures confirmed == (owner in old(toggles)
        && AcceptsToggle(old(shown), owner, old(toggles)[owner], generation, revision, item))
    {
      hide CatalogAuthority.AuthorityInv, CatalogAuthority.RequestsInv;
      CatalogAuthority.StepAuthority(Abs(), ToggleAnswered(owner, generation, revision, item));
      CatalogAuthority.StepRequests(Abs(), ToggleAnswered(owner, generation, revision, item));
      if owner !in toggles { return false; }
      hide EndToggle;
      confirmed := TryAcceptToggle(owner, toggles[owner], generation, revision, item);
      SettleSetEnabled(owner, confirmed);
    }

    method TryAcceptToggle(owner: nat, f: Toggle, generation: nat, revision: nat, item: Item)
      returns (confirmed: bool)
      modifies this`shown
      ensures confirmed == AcceptsToggle(old(shown), owner, f, generation, revision, item)
      ensures shown == if confirmed then AcceptToggle(old(shown), f.id, revision, item) else old(shown)
    {
      if f.id !in shown.mutationOwners || shown.mutationOwners[f.id] != owner
         || generation != f.generation || shown.generation != f.generation { return false; }
      var current := Find(shown.items, f.id);
      if current.None? || (f.id in shown.itemRevisions && revision < shown.itemRevisions[f.id])
         || !SameImmutable(current.value, item) { return false; }
      shown := shown.(items := Replace(shown.items, item));
      shown := shown.(itemRevisions := shown.itemRevisions[f.id := revision]);
      AdoptGlobalRevision(revision);
      return true;
    }

    /** What the toggle's `finally` block does. */
    method SettleSetEnabled(owner: nat, confirmed: bool)
      requires owner in toggles
      modifies this
      ensures Abs() == EndToggle(old(Abs()), owner, confirmed)
    {
      var f := toggles[owner];
      if !confirmed { var _ := InvalidateCommandAuthority(); }
      activeCommandMutations := activeCommandMutations - 1;
      toggles := toggles - {owner};
      if f.id in shown.mutationOwners && shown.mutationOwners[f.id] == owner {
        shown := shown.(mutationOwners := shown.mutationOwners - {f.id},
                        pendingIds := shown.pendingIds - {f.id});
      }
    }

    method FailSetEnabled(owner: nat)
      requires Valid()
      requires owner in toggles
      modifies this
      ensures Valid()
      ensures Abs() == Step(old(Abs()), ToggleFailed(owner))
    {
      hide CatalogAuthority.AuthorityInv, CatalogAuthority.RequestsInv;
      CatalogAuthority.StepAuthority(Abs(), ToggleFailed(owner));
      CatalogAuthority.StepRequests(Abs(), ToggleFailed(owner));
      SettleSetEnabled(owner, false);
    }

    /** Commands are available only while nothing at all is outstanding. */
    method CommandsAvailable() returns (available: bool)
      requires Valid()
      ensures available == CatalogModel.CommandsAvailable(Abs())
      ensures available ==> requests == map[] && toggles == map[] && commandAuthorityConfirmed
    {
      available := commandAuthorityConfirmed && loadStatus.Ready? && !loadError
        && !reloadStatus.Loading? && !reloadStatus.Failed? && shown.available == Some(true)
        && activeCommandMutations == 0 && activeSnapshotRequests == 0 && shown.pendingIds == {};
      if available { CatalogAuthority.NothingOutstanding(Abs()); }
    }
  }

  lemma IdsAppend(items: seq<Item>, item: Item)
    ensures Ids(items + [item]) == Ids(items) + {item.id}
  {
    var longer := items + [item];
    assert longer[|items|] == item;
    forall id | id in Ids(items)
      ensures id in Ids(longer)
    {
      var i :| 0 <= i < |items| && items[i].id == id;
      assert longer[i].id == id;
    }
  }

  lemma ReaddedOutlive(c: CatalogModel.Catalog, n: Snapshot, items: seq<Item>)
    ensures forall id :: id in Ids(Readded(c, n, items)) ==> id !in Ids(n.items) && Outlives(c, n.revision, id)
  {
    if items != [] {
      ReaddedOutlive(c, n, items[1..]);
      var rest := Readded(c, n, items[1..]);
      forall id | id in Ids(Readded(c, n, items)) && id != items[0].id
        ensures id in Ids(rest)
      {
        var all := Readded(c, n, items);
        var i :| 0 <= i < |all| && all[i].id == id;
        assert all != rest ==> all[i] == rest[i - 1];
      }
    }
  }
}
