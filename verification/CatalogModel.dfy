/**
 Arbitration of the plugin catalog: snapshots and toggle answers, ordered by generation,
 revision and request order, and the separate authority to run plugin commands.

 A plugin id is represented by its rank in the string order by which catalogs are sorted.
 The immutable content of an item (manifest, source, management, block reason, granted
 capabilities) and its mutable status are opaque values.
 */
module CatalogModel {
  import opened Common

  type Id = nat
  type Content(==, !new)
  type Standing(==, !new)
  type Ownership(==, !new)

  datatype Status = Status(canToggle: bool, standing: Standing)

  datatype Item = Item(id: Id, content: Content, status: Status)

  datatype Snapshot = Snapshot(
    generation: nat, revision: nat, items: seq<Item>, ownership: Ownership, available: bool)

  predicate SameImmutable(a: Item, b: Item) {
    a.id == b.id && a.content == b.content
  }

  /** What is shown, and what it was confirmed by. */
  datatype Catalog = Catalog(
    items: seq<Item>,
    revision: nat,
    generation: nat,
    ownership: Option<Ownership>,
    available: Option<bool>,
    hasConfirmed: bool,
    snapshotRevision: nat,
    snapshotOrder: nat,
    latestAdoptedOrder: nat,
    itemRevisions: map<Id, nat>,
    mutationOwners: map<Id, nat>,
    pendingIds: set<Id>)

  const EMPTY_CATALOG := Catalog([], 0, 0, None, None, false, 0, 0, 0, map[], map[], {})

  // ---- Lists of items -------------------------------------------------

  function Find(items: seq<Item>, id: Id): Option<Item> {
    if items == [] then None
    else if items[0].id == id then Some(items[0])
    else Find(items[1..], id)
  }

  function Replace(items: seq<Item>, item: Item): seq<Item> {
    seq(|items|, i requires 0 <= i < |items| => if items[i].id == item.id then item else items[i])
  }

  function Insert(item: Item, sorted: seq<Item>): seq<Item> {
    if sorted == [] || item.id <= sorted[0].id then [item] + sorted
    else [sorted[0]] + Insert(item, sorted[1..])
  }

  function SortById(items: seq<Item>): seq<Item> {
    if items == [] then [] else Insert(items[0], SortById(items[1..]))
  }

  function Ids(items: seq<Item>): set<Id> {
    set i | 0 <= i < |items| :: items[i].id
  }

  // ---- Adopting a snapshot ---------------------------------------------

  predicate SameStructure(c: Catalog, n: Snapshot) {
    && c.ownership == Some(n.ownership)
    && |n.items| == |c.items|
    && forall i :: 0 <= i < |n.items| ==>
         var current := Find(c.items, n.items[i].id);
         current.Some? && SameImmutable(current.value, n.items[i])
  }

  predicate StartsGeneration(c: Catalog, n: Snapshot) {
    n.generation > c.generation || (n.generation == c.generation && !c.hasConfirmed)
  }

  predicate Adopts(c: Catalog, n: Snapshot, order: nat) {
    || StartsGeneration(c, n)
    || (n.generation == c.generation
        && SameStructure(c, n)
        && (n.revision > c.snapshotRevision || (n.revision == c.snapshotRevision && order >= c.snapshotOrder)))
  }

  /** An item confirmed at a revision above the snapshot's keeps its place. */
  predicate Outlives(c: Catalog, revision: nat, id: Id) {
    Find(c.items, id).Some? && id in c.itemRevisions && c.itemRevisions[id] > revision
  }

  function MergeItem(c: Catalog, revision: nat, item: Item): Item {
    if Outlives(c, revision, item.id) then Find(c.items, item.id).value else item
  }

  /** Items the snapshot does not list but that were confirmed above its revision. */
  function Readded(c: Catalog, n: Snapshot, items: seq<Item>): seq<Item> {
    if items == [] then []
    else
      var rest := Readded(c, n, items[1..]);
      if items[0].id !in Ids(n.items) && Outlives(c, n.revision, items[0].id) then [items[0]] + rest else rest
  }

  function MergedListed(c: Catalog, n: Snapshot): seq<Item> {
    seq(|n.items|, i requires 0 <= i < |n.items| => MergeItem(c, n.revision, n.items[i]))
  }

  function MergedItems(c: Catalog, n: Snapshot): seq<Item> {
    SortById(MergedListed(c, n) + Readded(c, n, c.items))
  }

  function MergedRevision(c: Catalog, revision: nat, id: Id): nat {
    if Outlives(c, revision, id) then c.itemRevisions[id] else revision
  }

  function MergedRevisions(c: Catalog, n: Snapshot): map<Id, nat> {
    map id | id in Ids(n.items) + Ids(Readded(c, n, c.items)) :: MergedRevision(c, n.revision, id)
  }

  function AdoptSnapshot(c: Catalog, n: Snapshot, order: nat): Catalog {
    if !Adopts(c, n, order) then c
    else
      var latest := Max(c.latestAdoptedOrder, order);
      if StartsGeneration(c, n) then
        Catalog(n.items, n.revision, n.generation, Some(n.ownership), Some(n.available), c.hasConfirmed,
                n.revision, order, latest, map id | id in Ids(n.items) :: n.revision, map[], {})
      else
        var newest := n.revision >= c.revision;
        c.(items := MergedItems(c, n),
           itemRevisions := MergedRevisions(c, n),
           snapshotRevision := n.revision,
           snapshotOrder := order,
           latestAdoptedOrder := latest,
           ownership := if newest then Some(n.ownership) else c.ownership,
           available := if newest then Some(n.available) else c.available,
           revision := Max(c.revision, n.revision))
  }

  // ---- Toggles ----------------------------------------------------------

  datatype Toggle = Toggle(id: Id, generation: nat)

  predicate OwnsToggle(c: Catalog, owner: nat, f: Toggle) {
    f.id in c.mutationOwners && c.mutationOwners[f.id] == owner
  }

  predicate AcceptsToggle(c: Catalog, owner: nat, f: Toggle, generation: nat, revision: nat, item: Item) {
    && OwnsToggle(c, owner, f)
    && generation == f.generation == c.generation
    && Find(c.items, f.id).Some?
    && (f.id in c.itemRevisions ==> revision >= c.itemRevisions[f.id])
    && SameImmutable(Find(c.items, f.id).value, item)
  }

  function AcceptToggle(c: Catalog, id: Id, revision: nat, item: Item): Catalog {
    c.(items := Replace(c.items, item),
       itemRevisions := c.itemRevisions[id := revision],
       revision := Max(c.revision, revision))
  }

  function ReleaseToggle(c: Catalog, owner: nat, f: Toggle): Catalog {
    if OwnsToggle(c, owner, f)
    then c.(mutationOwners := c.mutationOwners - {f.id}, pendingIds := c.pendingIds - {f.id}) else c
  }

  // ---- The whole store --------------------------------------------------

  datatype Kind = Load | Reload | Import | Removal

  predicate IsMutation(k: Kind) {
    k.Import? || k.Removal?
  }

  datatype Request = Request(kind: Kind, epoch: nat)

  datatype LoadStatus = Idle | Loading | Ready | Failed

  datatype State = State(
    catalog: Catalog,
    requests: map<nat, Request>,   // outstanding snapshot requests, by order
    toggles: map<nat, Toggle>,     // outstanding toggles, by owner
    snapshotSequence: nat,
    mutationSequence: nat,
    commandEpoch: nat,
    authority: bool,
    activeMutations: int,
    activeSnapshots: int,
    loadStatus: LoadStatus,
    loadError: bool,
    reloadStatus: LoadStatus)

  const INITIAL := State(EMPTY_CATALOG, map[], map[], 0, 0, 0, false, 0, 0, Idle, false, Idle)

  predicate CommandsAvailable(s: State) {
    && s.authority
    && s.loadStatus.Ready? && !s.loadError
    && !s.reloadStatus.Loading? && !s.reloadStatus.Failed?
    && s.catalog.available == Some(true)
    && s.activeMutations == 0 && s.activeSnapshots == 0
    && s.catalog.pendingIds == {}
  }

  datatype Event =
    | BeginSnapshot(kind: Kind)
    | SnapshotAnswered(order: nat, snapshot: Snapshot, visible: bool)
    | SnapshotFailed(order: nat)
    | BeginToggle(id: Id)
    | ToggleAnswered(owner: nat, generation: nat, revision: nat, item: Item)
    | ToggleFailed(owner: nat)

  function Invalidate(s: State): State {
    s.(authority := false, commandEpoch := s.commandEpoch + 1)
  }

  function Begin(s: State, kind: Kind): State {
    var order := s.snapshotSequence + 1;
    var epoch := s.commandEpoch + 1;
    var t := s.(snapshotSequence := order, commandEpoch := epoch, authority := false,
                requests := s.requests[order := Request(kind, epoch)]);
    match kind
    case Load => t.(activeSnapshots := s.activeSnapshots + 1, loadStatus := Loading, loadError := false)
    case Reload => t.(activeSnapshots := s.activeSnapshots + 1, reloadStatus := Loading)
    case _ => t.(activeMutations := s.activeMutations + 1)
  }

  /** Retires a request; what it was counted as is no longer active. */
  function Finish(s: State, order: nat, kind: Kind): State {
    if IsMutation(kind)
    then s.(requests := s.requests - {order}, activeMutations := s.activeMutations - 1)
    else s.(requests := s.requests - {order}, activeSnapshots := s.activeSnapshots - 1)
  }

  predicate ConfirmsAuthority(s: State, n: Snapshot, order: nat, q: Request) {
    && Adopts(s.catalog, n, order)
    && q.epoch == s.commandEpoch
    && s.activeMutations == (if IsMutation(q.kind) then 1 else 0)
    && n.revision == AdoptSnapshot(s.catalog, n, order).revision
  }

  function ConfirmSnapshot(s: State, n: Snapshot, order: nat, q: Request): State {
    s.(catalog := AdoptSnapshot(s.catalog, n, order).(hasConfirmed := true),
       authority := if Adopts(s.catalog, n, order) then ConfirmsAuthority(s, n, order, q) else s.authority,
       loadStatus := Ready, loadError := false)
  }

  function AnswerSnapshot(s: State, order: nat, n: Snapshot, visible: bool): State {
    if order !in s.requests then s
    else
      var q := s.requests[order];
      var t := ConfirmSnapshot(s, n, order, q);
      var u := if q.kind.Reload? then t.(reloadStatus := Ready)
               else if IsMutation(q.kind) && !visible then Invalidate(t) else t;
      Finish(u, order, q.kind)
  }

  function FailSnapshot(s: State, order: nat): State {
    if order !in s.requests then s
    else
      var q := s.requests[order];
      var superseded := order < s.catalog.latestAdoptedOrder;
      var t :=
        match q.kind
        case Load =>
          if superseded then s.(loadStatus := Ready)
          else s.(loadError := true, loadStatus := if s.catalog.hasConfirmed then Ready else Failed)
        case Reload => s.(reloadStatus := if superseded then Ready else Failed)
        case _ => Invalidate(s);
      Finish(t, order, q.kind)
  }

  predicate CanToggle(items: seq<Item>, id: Id) {
    var found := Find(items, id);
    found.Some? && found.value.status.canToggle
  }

  function StartToggle(s: State, id: Id): State {
    if !CanToggle(s.catalog.items, id) then s
    else
      var owner := s.mutationSequence + 1;
      s.(mutationSequence := owner,
         activeMutations := s.activeMutations + 1,
         commandEpoch := s.commandEpoch + 1,
         toggles := s.toggles[owner := Toggle(id, s.catalog.generation)],
         catalog := s.catalog.(mutationOwners := s.catalog.mutationOwners[id := owner],
                               pendingIds := s.catalog.pendingIds + {id}))
  }

  function EndToggle(s: State, owner: nat, confirmed: bool): State
    requires owner in s.toggles
  {
    var t := if confirmed then s else Invalidate(s);
    t.(activeMutations := s.activeMutations - 1,
       toggles := s.toggles - {owner},
       catalog := ReleaseToggle(s.catalog, owner, s.toggles[owner]))
  }

  function AnswerToggle(s: State, owner: nat, generation: nat, revision: nat, item: Item): State {
    if owner !in s.toggles then s
    else
      var f := s.toggles[owner];
      if AcceptsToggle(s.catalog, owner, f, generation, revision, item)
      then EndToggle(s.(catalog := AcceptToggle(s.catalog, f.id, revision, item)), owner, true)
      else EndToggle(s, owner, false)
  }

  function Step(s: State, e: Event): State {
    match e
    case BeginSnapshot(kind) => Begin(s, kind)
    case SnapshotAnswered(order, n, visible) => AnswerSnapshot(s, order, n, visible)
    case SnapshotFailed(order) => FailSnapshot(s, order)
    case BeginToggle(id) => StartToggle(s, id)
    case ToggleAnswered(owner, g, r, item) => AnswerToggle(s, owner, g, r, item)
    case ToggleFailed(owner) => if owner in s.toggles then EndToggle(s, owner, false) else s
  }

  function Run(s: State, events: seq<Event>): State
    decreases |events|
  {
    if events == [] then s else Run(Step(s, events[0]), events[1..])
  }
}
