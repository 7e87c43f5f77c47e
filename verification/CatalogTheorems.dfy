/** What the plugin store promises of every run: confluence and provenance. */
module CatalogTheorems {
  import opened Common
  import opened CatalogModel
  import opened CatalogLists
  import opened CatalogProofs

  lemma Reached(b: Backend, events: seq<Event>)
    requires ValidBackend(b) && HonestRun(b, INITIAL, events)
    ensures Inv(b, Run(INITIAL, events), Delivered(INITIAL, events))
  {
    assert Inv(b, INITIAL, {});
    RunInv(b, INITIAL, events, {});
    assert {} + Delivered(INITIAL, events) == Delivered(INITIAL, events);
  }

  // ---- Confluence -------------------------------------------------------

  /** The facts determine every revision of a catalog they explain. */
  lemma SameFactsSameRevisions(c: Catalog, d: Catalog, facts: set<Fact>)
    requires Explains(c, facts) && RevisionIsMax(c) && Explains(d, facts) && RevisionIsMax(d)
    requires forall id :: id in c.itemRevisions <==> id in d.itemRevisions
    ensures c.generation == d.generation && c.snapshotRevision == d.snapshotRevision
    ensures c.itemRevisions == d.itemRevisions && c.revision == d.revision
  {
    assert c.generation == d.generation && c.snapshotRevision == d.snapshotRevision;
    forall id | id in c.itemRevisions
      ensures c.itemRevisions[id] == d.itemRevisions[id]
    {
    }
    assert c.itemRevisions == d.itemRevisions;
  }

  /** Two runs that delivered the same answers, in whatever order, show the same catalog. */
  lemma CatalogConfluence(b: Backend, events: seq<Event>, events': seq<Event>)
    requires ValidBackend(b) && HonestRun(b, INITIAL, events) && HonestRun(b, INITIAL, events')
    requires Delivered(INITIAL, events) == Delivered(INITIAL, events')
    ensures var c := Run(INITIAL, events).catalog;
      var d := Run(INITIAL, events').catalog;
      && c.hasConfirmed == d.hasConfirmed
      && c.generation == d.generation
      && c.items == d.items
      && (c.hasConfirmed ==> c.revision == d.revision && c.itemRevisions == d.itemRevisions)
  {
    Reached(b, events);
    Reached(b, events');
    var c := Run(INITIAL, events).catalog;
    var d := Run(INITIAL, events').catalog;
    if c.hasConfirmed {
      assert c.generation == d.generation;
      SameFactsSameRevisions(c, d, Delivered(INITIAL, events));
    }
  }

  /** Each item ends at the highest revision delivered for it, in the highest generation delivered. */
  lemma HighestDeliveredWins(b: Backend, events: seq<Event>, id: Id)
    requires ValidBackend(b) && HonestRun(b, INITIAL, events)
    requires Run(INITIAL, events).catalog.hasConfirmed
    ensures var c := Run(INITIAL, events).catalog;
      var facts := Delivered(INITIAL, events);
      && (forall f :: f in facts ==> f.generation <= c.generation)
      && (id in c.itemRevisions ==>
            && (forall f :: f in facts && f.generation == c.generation && (f.ToggleFact? ==> f.id == id) ==>
                  f.revision <= c.itemRevisions[id])
            && (SnapshotFact(c.generation, c.itemRevisions[id]) in facts
                || ToggleFact(c.generation, id, c.itemRevisions[id]) in facts))
  {
    Reached(b, events);
  }

  // ---- Provenance -------------------------------------------------------

  /** Every shown item is the backend's at its confirmed revision, under ids that are fixed, sorted and complete. */
  lemma ItemProvenance(b: Backend, events: seq<Event>)
    requires ValidBackend(b) && HonestRun(b, INITIAL, events)
    requires Run(INITIAL, events).catalog.hasConfirmed
    ensures var c := Run(INITIAL, events).catalog;
      && |c.items| == |b.ids(c.generation)|
      && (forall i :: 0 <= i < |c.items| ==>
            var id := b.ids(c.generation)[i];
            id in c.itemRevisions && c.items[i] == ItemAt(b, c.generation, c.itemRevisions[id], id))
      && (forall i, j :: 0 <= i < j < |c.items| ==> c.items[i].id < c.items[j].id)
      && RevisionIsMax(c)
  {
    Reached(b, events);
    var c := Run(INITIAL, events).catalog;
    assert Sorted(b.ids(c.generation));
  }

  // ---- Membership, for any backend -------------------------------------------

  /** Snapshots reach the store through a parser that demands strictly increasing ids. */
  predicate Parsed(e: Event) {
    e.SnapshotAnswered? ==> Ascending(e.snapshot.items)
  }

  predicate ParsedRun(events: seq<Event>) {
    forall i :: 0 <= i < |events| ==> Parsed(events[i])
  }

  /** One step keeps the ids ascending, and inside a confirmed generation keeps them all. */
  ghost predicate KeepsIds(c: Catalog, d: Catalog) {
    && (Ascending(c.items) ==> Ascending(d.items))
    && c.generation <= d.generation
    && (c.hasConfirmed ==> d.hasConfirmed)
    && (Ascending(c.items) && c.hasConfirmed && d.generation == c.generation ==> Ids(d.items) == Ids(c.items))
  }

  lemma AdoptKeepsIds(c: Catalog, n: Snapshot, order: nat)
    requires Ascending(n.items)
    ensures KeepsIds(c, AdoptSnapshot(c, n, order))
  {
    if Ascending(c.items) && Adopts(c, n, order) && !StartsGeneration(c, n) {
      MergedAscending(c, n);
    }
    hide SameStructure, MergedItems, MergedRevisions, Ascending, Ids;
  }

  lemma StepKeepsIds(s: State, e: Event)
    requires Parsed(e)
    ensures KeepsIds(s.catalog, Step(s, e).catalog)
  {
    hide Ascending, Ids, Replace, AcceptsToggle, Adopts, AdoptSnapshot, ConfirmsAuthority;
    if e.SnapshotAnswered? {
      AdoptKeepsIds(s.catalog, e.snapshot, e.order);
    } else if e.ToggleAnswered? {
      ReplaceAscending(s.catalog.items, e.item);
    }
  }

  lemma {:induction false} RunKeepsIds(s: State, events: seq<Event>)
    requires ParsedRun(events)
    ensures KeepsIds(s.catalog, Run(s, events).catalog)
    decreases |events|
  {
    if events != [] {
      StepKeepsIds(s, events[0]);
      assert ParsedRun(events[1..]);
      RunKeepsIds(Step(s, events[0]), events[1..]);
      hide Step, Ascending, Ids;
    }
  }

  /** Whatever the backend answers, the ids shown are strictly increasing. */
  lemma ShownIdsAscend(events: seq<Event>)
    requires ParsedRun(events)
    ensures Ascending(Run(INITIAL, events).catalog.items)
  {
    RunKeepsIds(INITIAL, events);
  }

  /** Whatever the backend answers, a generation shows the same ids in the same places throughout. */
  lemma MembershipIsFixed(before: seq<Event>, after: seq<Event>)
    requires ParsedRun(before) && ParsedRun(after)
    requires Run(INITIAL, before).catalog.hasConfirmed
    requires Run(Run(INITIAL, before), after).catalog.generation == Run(INITIAL, before).catalog.generation
    ensures var c, d := Run(INITIAL, before).catalog, Run(Run(INITIAL, before), after).catalog;
      |c.items| == |d.items| && forall i :: 0 <= i < |c.items| ==> c.items[i].id == d.items[i].id
  {
    var s := Run(INITIAL, before);
    RunKeepsIds(INITIAL, before);
    RunKeepsIds(s, after);
    AscendingSamePlaces(s.catalog.items, Run(s, after).catalog.items);
  }

  /** The branch that re-adds items missing from a same-generation snapshot is never taken, for any backend. */
  lemma NothingIsEverReadded(events: seq<Event>, n: Snapshot, order: nat)
    requires ParsedRun(events) && Ascending(n.items)
    requires var c := Run(INITIAL, events).catalog; Adopts(c, n, order) && !StartsGeneration(c, n)
    ensures Readded(Run(INITIAL, events).catalog, n, Run(INITIAL, events).catalog.items) == []
  {
    RunKeepsIds(INITIAL, events);
    MergedAscending(Run(INITIAL, events).catalog, n);
  }

  // ---- Revisions ---------------------------------------------------------------

  /** The generation never falls, and inside a generation neither does any item revision or the global one. */
  lemma ConfirmedRevisionsNeverFall(b: Backend, before: seq<Event>, after: seq<Event>, id: Id)
    requires ValidBackend(b) && HonestRun(b, INITIAL, before) && HonestRun(b, Run(INITIAL, before), after)
    requires Run(INITIAL, before).catalog.hasConfirmed
    ensures var c := Run(INITIAL, before).catalog;
      var d := Run(Run(INITIAL, before), after).catalog;
      && d.hasConfirmed
      && c.generation <= d.generation
      && (c.generation == d.generation ==>
            && c.revision <= d.revision
            && (id in c.itemRevisions ==> id in d.itemRevisions && c.itemRevisions[id] <= d.itemRevisions[id]))
  {
    var s := Run(INITIAL, before);
    Reached(b, before);
    RunInv(b, s, after, Delivered(INITIAL, before));
    var c := s.catalog;
    var d := Run(s, after).catalog;
    assert SnapshotFact(c.generation, c.snapshotRevision) in Delivered(INITIAL, before) + Delivered(s, after);
    if c.generation == d.generation && c.revision != c.snapshotRevision {
      var x :| x in c.itemRevisions && c.itemRevisions[x] == c.revision;
      assert x in d.itemRevisions && c.itemRevisions[x] <= d.itemRevisions[x];
    }
  }

  // ---- Availability ---------------------------------------------------------------

  /** Adopting a snapshot at least as new as everything shown shows its availability. */
  lemma AdoptedAvailability(b: Backend, c: Catalog, facts: set<Fact>, r: nat, order: nat)
    requires ValidBackend(b) && CatalogInv(b, c, facts) && c.hasConfirmed
    requires r > c.snapshotRevision || (r == c.snapshotRevision && order >= c.snapshotOrder)
    ensures var n := SnapshotAt(b, c.generation, r);
      AdoptSnapshot(c, n, order).available == if r >= c.revision then Some(n.available) else c.available
  {
    SnapshotStructure(b, c, r);
  }

  lemma EndedAvailability(s: State, owner: nat, g: nat, r: nat, item: Item)
    requires owner in s.toggles
    ensures AnswerToggle(s, owner, g, r, item).catalog.available == s.catalog.available
  {
    hide AcceptsToggle, Replace;
  }

  lemma AnsweredCatalog(s: State, order: nat, n: Snapshot, visible: bool)
    requires order in s.requests
    ensures var t := AnswerSnapshot(s, order, n, visible);
      t.catalog == AdoptSnapshot(s.catalog, n, order).(hasConfirmed := true) && t.toggles == s.toggles
  {
    hide Adopts, AdoptSnapshot, ConfirmsAuthority;
  }

  /** What an honest toggle answer does to the revisions and to the requests. */
  lemma ToggledCatalog(b: Backend, s: State, facts: set<Fact>, owner: nat, r: nat)
    requires ValidBackend(b) && Inv(b, s, facts) && owner in s.toggles
    requires s.toggles[owner].generation == s.catalog.generation
    ensures var f := s.toggles[owner];
      var t := AnswerToggle(s, owner, f.generation, r, ItemAt(b, f.generation, r, f.id));
      && t.requests == s.requests && t.catalog.generation == s.catalog.generation && t.catalog.hasConfirmed
      && t.catalog.snapshotRevision == s.catalog.snapshotRevision && t.catalog.snapshotOrder == s.catalog.snapshotOrder
      && f.id in s.catalog.itemRevisions
      && t.catalog.revision ==
         if r >= s.catalog.itemRevisions[f.id] then Max(s.catalog.revision, r) else s.catalog.revision
  {
    var f := s.toggles[owner];
    assert f.id in b.ids(s.catalog.generation);
    assert Provenance(b, s.catalog);
    FindProvenance(b, s.catalog, f.id);
    hide Replace;
  }

  /** A snapshot answer for the generation shown, and a toggle answer for an outstanding toggle of it. */
  function SnapshotOf(b: Backend, s: State, order: nat, r: nat): Event {
    SnapshotAnswered(order, SnapshotAt(b, s.catalog.generation, r), true)
  }

  function ToggleOf(b: Backend, s: State, owner: nat, r: nat): Event
    requires owner in s.toggles
  {
    ToggleAnswered(owner, s.catalog.generation, r, ItemAt(b, s.catalog.generation, r, s.toggles[owner].id))
  }

  /** Both are outstanding, and the snapshot is at least as new as everything shown. */
  predicate Racing(s: State, order: nat, r: nat, owner: nat) {
    && order in s.requests && owner in s.toggles && s.toggles[owner].generation == s.catalog.generation
    && r >= s.catalog.revision && (r == s.catalog.snapshotRevision ==> order >= s.catalog.snapshotOrder)
  }

  lemma SnapshotThenToggle(b: Backend, s: State, facts: set<Fact>, order: nat, r: nat, owner: nat, toggled: nat)
    requires ValidBackend(b) && Inv(b, s, facts) && Racing(s, order, r, owner)
    ensures Step(Step(s, SnapshotOf(b, s, order, r)), ToggleOf(b, s, owner, toggled)).catalog.available
      == Some(b.available(s.catalog.generation, r))
  {
    var n := SnapshotAt(b, s.catalog.generation, r);
    var t := Step(s, SnapshotOf(b, s, order, r));
    assert s.catalog.hasConfirmed && RevisionIsMax(s.catalog);
    AdoptedAvailability(b, s.catalog, facts, r, order);
    AnsweredCatalog(s, order, n, true);
    hide AdoptSnapshot, AnswerSnapshot, AnswerToggle, CatalogInv;
    var e := ToggleOf(b, s, owner, toggled);
    EndedAvailability(t, owner, e.generation, e.revision, e.item);
  }

  lemma ToggleThenSnapshot(b: Backend, s: State, facts: set<Fact>, order: nat, r: nat, owner: nat, toggled: nat)
    requires ValidBackend(b) && Inv(b, s, facts) && Racing(s, order, r, owner)
    ensures Step(Step(s, ToggleOf(b, s, owner, toggled)), SnapshotOf(b, s, order, r)).catalog.available
      == if toggled <= r then Some(b.available(s.catalog.generation, r)) else s.catalog.available
  {
    var n, e := SnapshotAt(b, s.catalog.generation, r), ToggleOf(b, s, owner, toggled);
    var u := Step(s, e);
    assert s.catalog.hasConfirmed && RevisionIsMax(s.catalog);
    EndedAvailability(s, owner, e.generation, e.revision, e.item);
    ToggledCatalog(b, s, facts, owner, toggled);
    StepInv(b, s, e, facts);
    assert s.catalog.itemRevisions[s.toggles[owner].id] <= s.catalog.revision;
    hide AdoptSnapshot, AnswerSnapshot, AnswerToggle, CatalogInv;
    AdoptedAvailability(b, u.catalog, facts + FactsOf(s, e), r, order);
    AnsweredCatalog(u, order, n, true);
  }

  /**
   Availability is not confluent. Of a snapshot at least as new as everything shown and a toggle
   answer, both orders show the same availability exactly when the toggle is not newer than the
   snapshot or the snapshot brings no other availability.
   */
  lemma AvailabilityDependsOnOrder(b: Backend, events: seq<Event>, order: nat, r: nat, owner: nat, toggled: nat)
    requires ValidBackend(b) && HonestRun(b, INITIAL, events)
    requires Racing(Run(INITIAL, events), order, r, owner)
    ensures var s := Run(INITIAL, events);
      var snapshot, toggle := SnapshotOf(b, s, order, r), ToggleOf(b, s, owner, toggled);
      Step(Step(s, snapshot), toggle).catalog.available == Step(Step(s, toggle), snapshot).catalog.available
      <==> toggled <= r || s.catalog.available == Some(b.available(s.catalog.generation, r))
  {
    var s := Run(INITIAL, events);
    Reached(b, events);
    hide Step, Inv, Run;
    SnapshotThenToggle(b, s, Delivered(INITIAL, events), order, r, owner, toggled);
    ToggleThenSnapshot(b, s, Delivered(INITIAL, events), order, r, owner, toggled);
  }

  /** Loaded at revision 1, an item toggled, and loading again. */
  function RacingRun(b: Backend, id: Id): seq<Event> {
    [BeginSnapshot(Load), SnapshotAnswered(1, SnapshotAt(b, 1, 1), true), BeginToggle(id), BeginSnapshot(Load)]
  }

  lemma RacingState(b: Backend, id: Id)
    requires ValidBackend(b) && b.ids(1) == [id] && b.status(1, 1, id).canToggle
    ensures var s := Run(INITIAL, RacingRun(b, id));
      && HonestRun(b, INITIAL, RacingRun(b, id)) && s.catalog.generation == 1
      && Racing(s, 2, 2, 1) && s.catalog.available == Some(b.available(1, 1)) && s.toggles == map[1 := Toggle(id, 1)]
  {
    var e := RacingRun(b, id);
    var n := SnapshotAt(b, 1, 1);
    var s1 := Step(INITIAL, e[0]);
    var s2 := Step(s1, e[1]);
    assert n.items == [ItemAt(b, 1, 1, id)];
    assert s2.catalog.items == n.items && s2.catalog.generation == 1 && s2.requests == map[] && s2.toggles == map[];
    assert s2.catalog.available == Some(b.available(1, 1)) && s2.catalog.revision == 1 == s2.catalog.snapshotRevision;
    assert CanToggle(s2.catalog.items, id);
    var s3 := Step(s2, e[2]);
    var s4 := Step(s3, e[3]);
    assert s4.toggles == map[1 := Toggle(id, 1)] && s4.requests == map[2 := Request(Load, s4.commandEpoch)];
    assert s4.catalog.revision == 1 && s4.catalog.snapshotRevision == 1 && s4.catalog.available == s2.catalog.available;
    assert Honest(b, INITIAL, e[0]) && Honest(b, s1, e[1]) && Honest(b, s2, e[2]) && Honest(b, s3, e[3]);
    hide Step, Honest, SnapshotAt, ItemAt, Racing;
    FourSteps(b, INITIAL, e, s1, s2, s3, s4);
  }

  lemma FourSteps(b: Backend, s: State, e: seq<Event>, s1: State, s2: State, s3: State, s4: State)
    requires |e| == 4 && s1 == Step(s, e[0]) && s2 == Step(s1, e[1]) && s3 == Step(s2, e[2]) && s4 == Step(s3, e[3])
    ensures Run(s, e) == s4
    ensures HonestRun(b, s, e) <==> Honest(b, s, e[0]) && Honest(b, s1, e[1]) && Honest(b, s2, e[2]) && Honest(b, s3, e[3])
  {
    hide Step, Honest;
    assert e[1..][1..] == e[2..] && e[2..][1..] == e[3..] && e[3..][1..] == [];
    assert Run(s3, e[3..]) == s4 && Run(s2, e[2..]) == s4 && Run(s1, e[1..]) == s4;
    assert HonestRun(b, s3, e[3..]) <==> Honest(b, s3, e[3]);
    assert HonestRun(b, s2, e[2..]) <==> Honest(b, s2, e[2]) && HonestRun(b, s3, e[3..]);
    assert HonestRun(b, s1, e[1..]) <==> Honest(b, s1, e[1]) && HonestRun(b, s2, e[2..]);
  }

  /** Two runs from the start that differ only in the order of two answers, and show another availability. */
  lemma AvailabilityRuns(b: Backend, id: Id)
    requires ValidBackend(b) && b.ids(1) == [id] && b.status(1, 1, id).canToggle
    requires b.available(1, 1) != b.available(1, 2)
    ensures var s := Run(INITIAL, RacingRun(b, id));
      HonestRun(b, INITIAL, RacingRun(b, id)) && Racing(s, 2, 2, 1)
      && var snapshot, toggle := SnapshotOf(b, s, 2, 2), ToggleOf(b, s, 1, 3);
         Run(s, [snapshot, toggle]).catalog.available != Run(s, [toggle, snapshot]).catalog.available
  {
    var s := Run(INITIAL, RacingRun(b, id));
    RacingState(b, id);
    AvailabilityDependsOnOrder(b, RacingRun(b, id), 2, 2, 1, 3);
    var snapshot, toggle := SnapshotOf(b, s, 2, 2), ToggleOf(b, s, 1, 3);
    hide Step;
    RunTwo(s, snapshot, toggle);
    RunTwo(s, toggle, snapshot);
  }

  lemma RunTwo(s: State, e: Event, f: Event)
    ensures Run(s, [e, f]) == Step(Step(s, e), f)
  {
    hide Step;
    assert [e, f][1..] == [f] && [f][1..] == [];
    assert Run(Step(s, e), [f]) == Run(Step(Step(s, e), f), []);
  }
}
