/**
 The catalog under an honest backend, one whose content is a function of generation and
 revision: every shown item has a known origin, and the result of a run depends only on
 which answers were delivered, not on their order.
 */
module CatalogProofs {
  import opened Common
  import opened CatalogModel
  import opened CatalogLists

  // ---- An honest backend ------------------------------------------------

  /** Membership and immutable content belong to a generation, the status of an item to a revision. */
  datatype Backend = Backend(
    ids: nat -> seq<Id>,
    content: (nat, Id) -> Content,
    status: (nat, nat, Id) -> Status,
    ownership: nat -> Ownership,
    available: (nat, nat) -> bool)

  ghost predicate Sorted(ids: seq<Id>) {
    forall i, j :: 0 <= i < j < |ids| ==> ids[i] < ids[j]
  }

  ghost predicate ValidBackend(b: Backend) {
    forall g: nat :: Sorted(b.ids(g))
  }

  function ItemAt(b: Backend, g: nat, r: nat, id: Id): Item {
    Item(id, b.content(g, id), b.status(g, r, id))
  }

  function SnapshotAt(b: Backend, g: nat, r: nat): Snapshot {
    var ids := b.ids(g);
    Snapshot(g, r, seq(|ids|, i requires 0 <= i < |ids| => ItemAt(b, g, r, ids[i])), b.ownership(g), b.available(g, r))
  }

  // ---- Delivered answers -------------------------------------------------

  /** What an answer tells: the whole catalog at a revision, or one item at a revision. */
  datatype Fact = SnapshotFact(generation: nat, revision: nat) | ToggleFact(generation: nat, id: Id, revision: nat)

  function FactsOf(s: State, e: Event): set<Fact> {
    match e
    case SnapshotAnswered(order, n, _) =>
      if order in s.requests then {SnapshotFact(n.generation, n.revision)} else {}
    case ToggleAnswered(owner, g, r, _) =>
      if owner in s.toggles && s.toggles[owner].generation == g then {ToggleFact(g, s.toggles[owner].id, r)} else {}
    case _ => {}
  }

  function Delivered(s: State, events: seq<Event>): set<Fact>
    decreases |events|
  {
    if events == [] then {} else FactsOf(s, events[0]) + Delivered(Step(s, events[0]), events[1..])
  }

  /** The backend answers with its own content, and an item is not toggled again while a toggle of it is outstanding. */
  ghost predicate Honest(b: Backend, s: State, e: Event) {
    match e
    case SnapshotAnswered(_, n, _) => n == SnapshotAt(b, n.generation, n.revision)
    case ToggleAnswered(owner, g, r, item) => owner in s.toggles ==> item == ItemAt(b, g, r, s.toggles[owner].id)
    case BeginToggle(id) =>
      forall o :: o in s.toggles && s.toggles[o].generation == s.catalog.generation ==> s.toggles[o].id != id
    case _ => true
  }

  ghost predicate HonestRun(b: Backend, s: State, events: seq<Event>)
    decreases |events|
  {
    events == [] || (Honest(b, s, events[0]) && HonestRun(b, Step(s, events[0]), events[1..]))
  }

  // ---- The invariant -----------------------------------------------------

  /** Every item is the backend's at its confirmed revision; the list has exactly the ids of the generation, in order. */
  ghost predicate Provenance(b: Backend, c: Catalog) {
    var ids := b.ids(c.generation);
    && |c.items| == |ids|
    && (forall id :: id in c.itemRevisions <==> id in ids)
    && (forall i :: 0 <= i < |ids| ==>
          && ids[i] in c.itemRevisions
          && c.items[i] == ItemAt(b, c.generation, c.itemRevisions[ids[i]], ids[i]))
    && c.ownership == Some(b.ownership(c.generation))
  }

  /** The global revision is the maximum of the snapshot revision and the item revisions. */
  ghost predicate RevisionIsMax(c: Catalog) {
    && c.snapshotRevision <= c.revision
    && (forall id :: id in c.itemRevisions ==> c.snapshotRevision <= c.itemRevisions[id] <= c.revision)
    && (c.revision == c.snapshotRevision || exists id :: id in c.itemRevisions && c.itemRevisions[id] == c.revision)
  }

  /** Generation, snapshot and item revisions are the highest among the delivered facts. */
  ghost predicate Explains(c: Catalog, facts: set<Fact>) {
    && SnapshotFact(c.generation, c.snapshotRevision) in facts
    && (forall f :: f in facts ==> f.generation <= c.generation)
    && (forall f :: f in facts && f.generation == c.generation ==>
          if f.SnapshotFact? then f.revision <= c.snapshotRevision
          else f.id in c.itemRevisions && f.revision <= c.itemRevisions[f.id])
    && (forall id :: id in c.itemRevisions && c.itemRevisions[id] != c.snapshotRevision ==>
          ToggleFact(c.generation, id, c.itemRevisions[id]) in facts)
  }

  ghost predicate CatalogInv(b: Backend, c: Catalog, facts: set<Fact>) {
    if c.hasConfirmed then Provenance(b, c) && RevisionIsMax(c) && Explains(c, facts)
    else c.items == [] && c.generation == 0 && facts == {}
  }

  /** An outstanding toggle of the present generation owns its item. */
  ghost predicate TogglesInv(b: Backend, s: State) {
    forall o :: o in s.toggles ==>
      && o <= s.mutationSequence
      && s.toggles[o].generation <= s.catalog.generation
      && s.toggles[o].id in b.ids(s.toggles[o].generation)
      && s.catalog.hasConfirmed
      && (s.toggles[o].generation == s.catalog.generation ==> OwnsToggle(s.catalog, o, s.toggles[o]))
  }

  ghost predicate Inv(b: Backend, s: State, facts: set<Fact>) {
    CatalogInv(b, s.catalog, facts) && TogglesInv(b, s)
  }

  // ---- Snapshots of the backend ------------------------------------------

  /** Provenance fixes where an id is found. */
  lemma FindProvenance(b: Backend, c: Catalog, id: Id)
    requires ValidBackend(b) && Provenance(b, c)
    ensures Find(c.items, id).Some? <==> id in c.itemRevisions
    ensures id in c.itemRevisions ==>
      Find(c.items, id) == Some(ItemAt(b, c.generation, c.itemRevisions[id], id))
  {
    FindNone(c.items, id);
    if id in c.itemRevisions {
      var i :| 0 <= i < |c.items| && b.ids(c.generation)[i] == id;
      FindAt(c.items, i);
    }
  }

  // ---- Adopting a snapshot -------------------------------------------------

  lemma SnapshotStructure(b: Backend, c: Catalog, r: nat)
    requires ValidBackend(b) && Provenance(b, c)
    ensures SameStructure(c, SnapshotAt(b, c.generation, r))
  {
    var n := SnapshotAt(b, c.generation, r);
    forall i | 0 <= i < |n.items|
      ensures Find(c.items, n.items[i].id).Some? && SameImmutable(Find(c.items, n.items[i].id).value, n.items[i])
    {
      FindProvenance(b, c, n.items[i].id);
    }
  }

  /** Inside a generation no item is ever missing from a snapshot, so nothing is re-added. */
  lemma {:induction false} NothingReadded(b: Backend, c: Catalog, r: nat, items: seq<Item>)
    requires ValidBackend(b)
    requires forall i :: 0 <= i < |items| ==> items[i].id in b.ids(c.generation)
    ensures Readded(c, SnapshotAt(b, c.generation, r), items) == []
  {
    if items != [] {
      var n := SnapshotAt(b, c.generation, r);
      var i :| 0 <= i < |n.items| && b.ids(c.generation)[i] == items[0].id;
      assert n.items[i].id == items[0].id;
      NothingReadded(b, c, r, items[1..]);
    }
  }

  function HigherRevision(c: Catalog, r: nat, id: Id): nat
    requires id in c.itemRevisions
  {
    if c.itemRevisions[id] > r then c.itemRevisions[id] else r
  }

  lemma MergeItems(b: Backend, c: Catalog, r: nat)
    requires ValidBackend(b) && Provenance(b, c)
    ensures var n := SnapshotAt(b, c.generation, r);
      var ids := b.ids(c.generation);
      && |MergedItems(c, n)| == |ids|
      && (forall i :: 0 <= i < |ids| ==>
            MergedItems(c, n)[i] == ItemAt(b, c.generation, HigherRevision(c, r, ids[i]), ids[i]))
  {
    var n := SnapshotAt(b, c.generation, r);
    var ids := b.ids(c.generation);
    NothingReadded(b, c, r, c.items);
    var merged := seq(|n.items|, i requires 0 <= i < |n.items| => MergeItem(c, n.revision, n.items[i]));
    forall i | 0 <= i < |ids|
      ensures merged[i] == ItemAt(b, c.generation, HigherRevision(c, r, ids[i]), ids[i])
    {
      FindProvenance(b, c, ids[i]);
    }
    assert merged + [] == merged;
    SortSorted(merged);
  }

  lemma MergeRevisions(b: Backend, c: Catalog, r: nat, id: Id)
    requires ValidBackend(b) && Provenance(b, c)
    ensures var n := SnapshotAt(b, c.generation, r);
      && (id in MergedRevisions(c, n) <==> id in c.itemRevisions)
      && (id in c.itemRevisions ==> MergedRevisions(c, n)[id] == HigherRevision(c, r, id))
  {
    var n := SnapshotAt(b, c.generation, r);
    NothingReadded(b, c, r, c.items);
    FindProvenance(b, c, id);
    if id in c.itemRevisions {
      var i :| 0 <= i < |n.items| && b.ids(c.generation)[i] == id;
      assert n.items[i].id == id;
    }
  }

  lemma AdoptInv(b: Backend, c: Catalog, facts: set<Fact>, g: nat, r: nat, order: nat)
    requires ValidBackend(b) && CatalogInv(b, c, facts)
    ensures CatalogInv(b, AdoptSnapshot(c, SnapshotAt(b, g, r), order).(hasConfirmed := true), facts + {SnapshotFact(g, r)})
  {
    var n := SnapshotAt(b, g, r);
    if StartsGeneration(c, n) {
      StartInv(b, c, facts, g, r, order);
    } else if Adopts(c, n, order) {
      MergeInv(b, c, facts, r, order);
    } else if g == c.generation {
      SnapshotStructure(b, c, r);
    }
  }

  lemma StartInv(b: Backend, c: Catalog, facts: set<Fact>, g: nat, r: nat, order: nat)
    requires ValidBackend(b) && CatalogInv(b, c, facts) && StartsGeneration(c, SnapshotAt(b, g, r))
    ensures CatalogInv(b, AdoptSnapshot(c, SnapshotAt(b, g, r), order).(hasConfirmed := true), facts + {SnapshotFact(g, r)})
  {
    var n := SnapshotAt(b, g, r);
    forall id
      ensures id in Ids(n.items) <==> id in b.ids(g)
    {
      if id in b.ids(g) {
        var i :| 0 <= i < |n.items| && b.ids(g)[i] == id;
        assert n.items[i].id == id;
      }
    }
  }

  lemma MergeInv(b: Backend, c: Catalog, facts: set<Fact>, r: nat, order: nat)
    requires ValidBackend(b) && CatalogInv(b, c, facts) && c.hasConfirmed && r >= c.snapshotRevision
    requires Adopts(c, SnapshotAt(b, c.generation, r), order)
    ensures CatalogInv(b, AdoptSnapshot(c, SnapshotAt(b, c.generation, r), order).(hasConfirmed := true),
                       facts + {SnapshotFact(c.generation, r)})
  {
    hide MergedItems, MergedRevisions, RevisionIsMax, Explains, SameStructure;
    var c' := AdoptSnapshot(c, SnapshotAt(b, c.generation, r), order).(hasConfirmed := true);
    MergeItems(b, c, r);
    forall id
      ensures id in c'.itemRevisions <==> id in c.itemRevisions
      ensures id in c.itemRevisions ==> c'.itemRevisions[id] == HigherRevision(c, r, id)
    {
      MergeRevisions(b, c, r, id);
    }
    MergeMax(c, c', r);
    MergeExplains(c, c', facts, r);
  }

  /** `c'` is `c` with every item raised to at least revision `r`. */
  ghost predicate Raised(c: Catalog, c': Catalog, r: nat) {
    && c'.generation == c.generation
    && c'.snapshotRevision == r >= c.snapshotRevision
    && c'.revision == Max(c.revision, r)
    && (forall id :: id in c'.itemRevisions <==> id in c.itemRevisions)
    && (forall id :: id in c.itemRevisions ==> c'.itemRevisions[id] == HigherRevision(c, r, id))
  }

  lemma MergeMax(c: Catalog, c': Catalog, r: nat)
    requires RevisionIsMax(c) && Raised(c, c', r)
    ensures RevisionIsMax(c')
  {
    if c.revision > r && c.revision != c.snapshotRevision {
      var id :| id in c.itemRevisions && c.itemRevisions[id] == c.revision;
      assert c'.itemRevisions[id] == c.revision;
    }
  }

  lemma MergeExplains(c: Catalog, c': Catalog, facts: set<Fact>, r: nat)
    requires RevisionIsMax(c) && Explains(c, facts) && Raised(c, c', r)
    ensures Explains(c', facts + {SnapshotFact(c.generation, r)})
  {
  }

  // ---- Accepting a toggle ----------------------------------------------------

  /** `c'` is `c` with one item moved up to revision `r`. */
  ghost predicate Touched(c: Catalog, c': Catalog, id: Id, r: nat) {
    && c'.generation == c.generation
    && c'.snapshotRevision == c.snapshotRevision
    && c'.revision == Max(c.revision, r)
    && id in c.itemRevisions && r >= c.itemRevisions[id]
    && c'.itemRevisions == c.itemRevisions[id := r]
  }

  lemma TouchMax(c: Catalog, c': Catalog, id: Id, r: nat)
    requires RevisionIsMax(c) && Touched(c, c', id, r)
    ensures RevisionIsMax(c')
  {
    if c.revision > r && c.revision != c.snapshotRevision {
      var x :| x in c.itemRevisions && c.itemRevisions[x] == c.revision;
      assert c'.itemRevisions[x] == c.revision;
    } else {
      assert c'.itemRevisions[id] == r;
    }
  }

  lemma TouchExplains(c: Catalog, c': Catalog, facts: set<Fact>, id: Id, r: nat)
    requires RevisionIsMax(c) && Explains(c, facts) && Touched(c, c', id, r)
    ensures Explains(c', facts + {ToggleFact(c.generation, id, r)})
  {
  }

  lemma ToggleInv(b: Backend, c: Catalog, facts: set<Fact>, owner: nat, f: Toggle, r: nat)
    requires ValidBackend(b) && CatalogInv(b, c, facts) && c.hasConfirmed
    requires f.id in b.ids(f.generation) && f.generation == c.generation && OwnsToggle(c, owner, f)
    ensures var item := ItemAt(b, f.generation, r, f.id);
      var c' := if AcceptsToggle(c, owner, f, f.generation, r, item) then AcceptToggle(c, f.id, r, item) else c;
      CatalogInv(b, c', facts + {ToggleFact(f.generation, f.id, r)})
  {
    hide RevisionIsMax;
    var item := ItemAt(b, f.generation, r, f.id);
    FindProvenance(b, c, f.id);
    if AcceptsToggle(c, owner, f, f.generation, r, item) {
      var c' := AcceptToggle(c, f.id, r, item);
      TouchMax(c, c', f.id, r);
      TouchExplains(c, c', facts, f.id, r);
      assert Provenance(b, c');
    }
  }

  // ---- Every step ------------------------------------------------------------

  lemma FactsWeaken(b: Backend, c: Catalog, facts: set<Fact>, f: Fact)
    requires CatalogInv(b, c, facts) && c.hasConfirmed && f.generation < c.generation
    ensures CatalogInv(b, c, facts + {f})
  {
  }

  /** CatalogInv does not depend on who owns which mutation. */
  lemma OwnersIrrelevant(b: Backend, c: Catalog, facts: set<Fact>, owners: map<Id, nat>, pending: set<Id>)
    requires CatalogInv(b, c, facts)
    ensures CatalogInv(b, c.(mutationOwners := owners, pendingIds := pending), facts)
  {
  }

  lemma AdoptKeepsOwners(c: Catalog, n: Snapshot, order: nat)
    ensures var c' := AdoptSnapshot(c, n, order);
      && c'.generation >= c.generation
      && (c.hasConfirmed && c'.generation == c.generation ==> c'.mutationOwners == c.mutationOwners)
  {
  }

  lemma ShownIsListed(b: Backend, c: Catalog, facts: set<Fact>, id: Id)
    requires CatalogInv(b, c, facts) && Find(c.items, id).Some?
    ensures c.hasConfirmed && id in b.ids(c.generation)
  {
    FindNone(c.items, id);
  }

  lemma StartToggleInv(b: Backend, s: State, id: Id, facts: set<Fact>)
    requires Inv(b, s, facts) && Honest(b, s, BeginToggle(id))
    ensures TogglesInv(b, StartToggle(s, id))
  {
    hide CatalogInv;
    if Find(s.catalog.items, id).Some? {
      ShownIsListed(b, s.catalog, facts, id);
    }
  }

  lemma EndToggleInv(b: Backend, s: State, owner: nat, confirmed: bool)
    requires TogglesInv(b, s) && owner in s.toggles
    ensures TogglesInv(b, EndToggle(s, owner, confirmed))
  {
  }

  lemma AnswerSnapshotInv(b: Backend, s: State, order: nat, n: Snapshot, visible: bool)
    requires TogglesInv(b, s)
    ensures TogglesInv(b, AnswerSnapshot(s, order, n, visible))
  {
    hide AdoptSnapshot, Adopts;
    AdoptKeepsOwners(s.catalog, n, order);
  }

  lemma TogglesSame(b: Backend, s: State, t: State)
    requires TogglesInv(b, s) && t.toggles == s.toggles && t.mutationSequence == s.mutationSequence
    requires t.catalog.generation == s.catalog.generation && t.catalog.hasConfirmed == s.catalog.hasConfirmed
    requires t.catalog.mutationOwners == s.catalog.mutationOwners
    ensures TogglesInv(b, t)
  {
  }

  lemma StepTogglesInv(b: Backend, s: State, e: Event, facts: set<Fact>)
    requires ValidBackend(b) && Inv(b, s, facts) && Honest(b, s, e)
    ensures TogglesInv(b, Step(s, e))
  {
    hide TogglesInv, CatalogInv, AcceptsToggle, EndToggle, AnswerSnapshot, StartToggle;
    match e
    case BeginToggle(id) => StartToggleInv(b, s, id, facts);
    case SnapshotAnswered(order, n, visible) => AnswerSnapshotInv(b, s, order, n, visible);
    case ToggleFailed(owner) => if owner in s.toggles { EndToggleInv(b, s, owner, false); }
    case ToggleAnswered(owner, g, r, item) =>
      if owner in s.toggles {
        var t := s.(catalog := AcceptToggle(s.catalog, s.toggles[owner].id, r, item));
        TogglesSame(b, s, t);
        EndToggleInv(b, s, owner, false);
        EndToggleInv(b, t, owner, true);
      }
    case _ => TogglesSame(b, s, Step(s, e));
  }

  lemma StepCatalogInv(b: Backend, s: State, e: Event, facts: set<Fact>)
    requires ValidBackend(b) && Inv(b, s, facts) && Honest(b, s, e)
    ensures CatalogInv(b, Step(s, e).catalog, facts + FactsOf(s, e))
  {
    hide CatalogInv;
    if FactsOf(s, e) == {} {
      assert facts + FactsOf(s, e) == facts;
    }
    match e {
      case SnapshotAnswered(order, n, visible) =>
        if order in s.requests {
          AdoptInv(b, s.catalog, facts, n.generation, n.revision, order);
        }
      case BeginToggle(id) =>
        OwnersIrrelevant(b, s.catalog, facts, Step(s, e).catalog.mutationOwners, Step(s, e).catalog.pendingIds);
      case ToggleAnswered(owner, g, r, item) =>
        if owner in s.toggles {
          ToggleCatalogInv(b, s, e, facts);
        }
      case ToggleFailed(owner) =>
        OwnersIrrelevant(b, s.catalog, facts, Step(s, e).catalog.mutationOwners, Step(s, e).catalog.pendingIds);
      case _ =>
    }
  }

  lemma ToggleCatalogInv(b: Backend, s: State, e: Event, facts: set<Fact>)
    requires ValidBackend(b) && Inv(b, s, facts) && Honest(b, s, e) && e.ToggleAnswered? && e.owner in s.toggles
    ensures CatalogInv(b, Step(s, e).catalog, facts + FactsOf(s, e))
  {
    hide CatalogInv;
    var f := s.toggles[e.owner];
    var accepts := AcceptsToggle(s.catalog, e.owner, f, e.generation, e.revision, e.item);
    var c := if accepts then AcceptToggle(s.catalog, f.id, e.revision, e.item) else s.catalog;
    if e.generation != f.generation {
      assert facts + FactsOf(s, e) == facts;
    } else if f.generation < s.catalog.generation {
      FactsWeaken(b, s.catalog, facts, ToggleFact(f.generation, f.id, e.revision));
    } else {
      ToggleInv(b, s.catalog, facts, e.owner, f, e.revision);
    }
    assert CatalogInv(b, c, facts + FactsOf(s, e));
    OwnersIrrelevant(b, c, facts + FactsOf(s, e), Step(s, e).catalog.mutationOwners, Step(s, e).catalog.pendingIds);
  }

  lemma StepInv(b: Backend, s: State, e: Event, facts: set<Fact>)
    requires ValidBackend(b) && Inv(b, s, facts) && Honest(b, s, e)
    ensures Inv(b, Step(s, e), facts + FactsOf(s, e))
  {
    hide CatalogInv, TogglesInv;
    StepCatalogInv(b, s, e, facts);
    StepTogglesInv(b, s, e, facts);
  }

  lemma {:induction false} RunInv(b: Backend, s: State, events: seq<Event>, facts: set<Fact>)
    requires ValidBackend(b) && Inv(b, s, facts) && HonestRun(b, s, events)
    ensures Inv(b, Run(s, events), facts + Delivered(s, events))
    decreases |events|
  {
    if events == [] {
      assert facts + Delivered(s, events) == facts;
    } else {
      StepInv(b, s, events[0], facts);
      RunInv(b, Step(s, events[0]), events[1..], facts + FactsOf(s, events[0]));
      assert facts + FactsOf(s, events[0]) + Delivered(Step(s, events[0]), events[1..]) == facts + Delivered(s, events);
    }
  }
}
