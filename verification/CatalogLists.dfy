/** Which ids a list of catalog items holds, through sorting, merging and replacing. */
module CatalogLists {
  import opened Common
  import opened CatalogModel

  lemma {:induction false} FindAt(items: seq<Item>, i: nat)
    requires i < |items|
    requires forall j, k :: 0 <= j < k < |items| ==> items[j].id != items[k].id
    ensures Find(items, items[i].id) == Some(items[i])
  {
    if i > 0 {
      FindAt(items[1..], i - 1);
    }
  }

  lemma {:induction false} FindNone(items: seq<Item>, id: Id)
    ensures Find(items, id).Some? <==> exists i :: 0 <= i < |items| && items[i].id == id
    ensures Find(items, id).Some? ==> Find(items, id).value.id == id
  {
    if items != [] {
      FindNone(items[1..], id);
      if exists i :: 0 <= i < |items| && items[i].id == id {
        var i :| 0 <= i < |items| && items[i].id == id;
        assert i > 0 ==> items[1..][i - 1].id == id;
      }
    }
  }

  lemma {:induction false} SortSorted(items: seq<Item>)
    requires forall i, j :: 0 <= i < j < |items| ==> items[i].id < items[j].id
    ensures SortById(items) == items
  {
    if items != [] {
      SortSorted(items[1..]);
      assert items == [items[0]] + items[1..];
    }
  }

  lemma FindListed(items: seq<Item>, id: Id)
    ensures Find(items, id).Some? <==> id in Ids(items)
  {
    FindNone(items, id);
  }

  lemma {:induction false} SortListed(items: seq<Item>, id: Id)
    ensures id in Ids(SortById(items)) <==> id in Ids(items)
  {
    if items != [] {
      SortListed(items[1..], id);
      InsertListed(items[0], SortById(items[1..]), id);
      assert items == [items[0]] + items[1..];
      ConsListed(items[0], items[1..], id);
    }
  }

  lemma ConsListed(item: Item, items: seq<Item>, id: Id)
    ensures id in Ids([item] + items) <==> id == item.id || id in Ids(items)
  {
    var all := [item] + items;
    assert all[0] == item && forall i :: 0 <= i < |items| ==> all[i + 1] == items[i];
    if id in Ids(items) {
      var i :| 0 <= i < |items| && items[i].id == id;
      assert all[i + 1].id == id;
    }
  }

  lemma {:induction false} InsertListed(item: Item, sorted: seq<Item>, id: Id)
    ensures id in Ids(Insert(item, sorted)) <==> id == item.id || id in Ids(sorted)
  {
    if sorted == [] || item.id <= sorted[0].id {
      ConsListed(item, sorted, id);
    } else {
      InsertListed(item, sorted[1..], id);
      ConsListed(sorted[0], Insert(item, sorted[1..]), id);
      assert sorted == [sorted[0]] + sorted[1..];
      ConsListed(sorted[0], sorted[1..], id);
    }
  }

  /** An item that a same-generation snapshot would show is already shown. */
  lemma {:induction false} ReaddedListed(c: Catalog, n: Snapshot, items: seq<Item>, id: Id)
    ensures id in Ids(Readded(c, n, items)) ==> id in Ids(items)
  {
    if items != [] {
      ReaddedListed(c, n, items[1..], id);
      assert items == [items[0]] + items[1..];
      ConsListed(items[0], items[1..], id);
      ConsListed(items[0], Readded(c, n, items[1..]), id);
    }
  }

  lemma FindHasId(items: seq<Item>, id: Id)
    requires Find(items, id).Some?
    ensures Find(items, id).value.id == id
  {
    FindNone(items, id);
  }

  lemma MergedListedIds(c: Catalog, n: Snapshot, id: Id)
    ensures id in Ids(MergedListed(c, n)) <==> id in Ids(n.items)
  {
    var merged := MergedListed(c, n);
    forall i | 0 <= i < |n.items|
      ensures merged[i].id == n.items[i].id
    {
      if Outlives(c, n.revision, n.items[i].id) { FindHasId(c.items, n.items[i].id); }
    }
    assert |merged| == |n.items|;
    hide MergedListed;
    if id in Ids(n.items) {
      var i :| 0 <= i < |n.items| && n.items[i].id == id;
      assert merged[i].id == id;
    }
    if id in Ids(merged) {
      var i :| 0 <= i < |merged| && merged[i].id == id;
      assert n.items[i].id == id;
    }
  }

  lemma JoinListed(a: seq<Item>, b: seq<Item>, id: Id)
    ensures id in Ids(a + b) <==> id in Ids(a) || id in Ids(b)
  {
    var all := a + b;
    if id in Ids(a) {
      var i :| 0 <= i < |a| && a[i].id == id;
      assert all[i].id == id;
    }
    if id in Ids(b) {
      var i :| 0 <= i < |b| && b[i].id == id;
      assert all[|a| + i].id == id;
    }
    if id in Ids(all) {
      var i :| 0 <= i < |all| && all[i].id == id;
      assert if i < |a| then a[i].id == id else b[i - |a|].id == id;
    }
  }

  /** The ids after a merge are those the snapshot lists and those re-added. */
  lemma MergedIds(c: Catalog, n: Snapshot, id: Id)
    ensures id in Ids(MergedItems(c, n)) <==> id in Ids(n.items) || id in Ids(Readded(c, n, c.items))
  {
    SortListed(MergedListed(c, n) + Readded(c, n, c.items), id);
    JoinListed(MergedListed(c, n), Readded(c, n, c.items), id);
    MergedListedIds(c, n, id);
    hide SortById, MergedListed, Readded, Ids;
  }

  lemma StructureListed(c: Catalog, n: Snapshot, id: Id)
    requires SameStructure(c, n) && id in Ids(n.items)
    ensures id in Ids(c.items)
  {
    var i :| 0 <= i < |n.items| && n.items[i].id == id;
    FindListed(c.items, id);
  }

  /** A same-generation snapshot shows no id that was not shown. */
  lemma AdoptShowsNothingNew(c: Catalog, n: Snapshot, order: nat, id: Id)
    requires !StartsGeneration(c, n)
    ensures id in Ids(AdoptSnapshot(c, n, order).items) ==> id in Ids(c.items)
  {
    if Adopts(c, n, order) {
      MergedIds(c, n, id);
      ReaddedListed(c, n, c.items, id);
      if id in Ids(n.items) { StructureListed(c, n, id); }
      hide MergedItems, MergedRevisions, SameStructure, Ids, Readded;
    }
  }

  lemma ReplaceListed(items: seq<Item>, item: Item, id: Id)
    ensures Find(Replace(items, item), id).Some? <==> Find(items, id).Some?
  {
    var replaced := Replace(items, item);
    assert forall i :: 0 <= i < |items| ==> replaced[i].id == items[i].id;
    FindListed(items, id);
    FindListed(replaced, id);
    hide Replace, Find;
    if id in Ids(items) {
      var i :| 0 <= i < |items| && items[i].id == id;
      assert replaced[i].id == id;
    }
    if id in Ids(replaced) {
      var i :| 0 <= i < |replaced| && replaced[i].id == id;
      assert items[i].id == id;
    }
  }

  // ---- Strictly increasing ids ----------------------------------------------

  /** What the snapshot parser demands of a list of items. */
  predicate Ascending(items: seq<Item>) {
    forall i, j :: 0 <= i < j < |items| ==> items[i].id < items[j].id
  }

  lemma {:induction false} AscendingCount(items: seq<Item>)
    requires Ascending(items)
    ensures |Ids(items)| == |items|
  {
    if items != [] {
      var n := |items| - 1;
      var front := items[..n];
      AscendingCount(front);
      assert Ids(items) == Ids(front) + {items[n].id} by {
        assert forall i :: 0 <= i < n ==> front[i] == items[i];
      }
    }
  }

  /** Of a catalog and a snapshot of the same structure, both lists hold the same ids. */
  lemma StructureSameIds(c: Catalog, n: Snapshot)
    requires Ascending(c.items) && Ascending(n.items) && SameStructure(c, n)
    ensures Ids(n.items) == Ids(c.items)
  {
    forall id | id in Ids(n.items)
      ensures id in Ids(c.items)
    {
      StructureListed(c, n, id);
    }
    AscendingCount(c.items);
    AscendingCount(n.items);
    assert |Ids(c.items) - Ids(n.items)| == 0;
  }

  lemma {:induction false} NothingToReadd(c: Catalog, n: Snapshot, items: seq<Item>)
    requires Ids(items) <= Ids(n.items)
    ensures Readded(c, n, items) == []
  {
    if items != [] {
      forall id | id in Ids(items[1..])
        ensures id in Ids(items)
      {
        var i :| 0 <= i < |items[1..]| && items[1..][i].id == id;
        assert items[i + 1].id == id;
      }
      assert items[0].id in Ids(items);
      NothingToReadd(c, n, items[1..]);
    }
  }

  /** Two ascending lists with the same ids have them in the same places. */
  lemma {:induction false} AscendingSamePlaces(a: seq<Item>, b: seq<Item>)
    requires Ascending(a) && Ascending(b) && Ids(a) == Ids(b)
    ensures |a| == |b| && forall i :: 0 <= i < |a| ==> a[i].id == b[i].id
    decreases |a|
  {
    AscendingCount(a);
    AscendingCount(b);
    if a != [] {
      var n := |a| - 1;
      LastIsGreatest(a);
      LastIsGreatest(b);
      assert a[n].id == b[n].id;
      FrontIds(a);
      FrontIds(b);
      AscendingSamePlaces(a[..n], b[..n]);
    }
  }

  lemma LastIsGreatest(items: seq<Item>)
    requires Ascending(items) && items != []
    ensures items[|items| - 1].id in Ids(items) && forall id :: id in Ids(items) ==> id <= items[|items| - 1].id
  {
  }

  lemma FrontIds(items: seq<Item>)
    requires Ascending(items) && items != []
    ensures Ids(items[..|items| - 1]) == Ids(items) - {items[|items| - 1].id}
  {
    var n := |items| - 1;
    var front := items[..n];
    assert forall i :: 0 <= i < n ==> front[i] == items[i];
    forall id | id in Ids(items) && id != items[n].id
      ensures id in Ids(front)
    {
      var i :| 0 <= i < |items| && items[i].id == id;
      assert front[i].id == id;
    }
  }

  /** A merge of an ascending catalog with an ascending snapshot of its structure is ascending, with the same ids. */
  lemma MergedAscending(c: Catalog, n: Snapshot)
    requires Ascending(c.items) && Ascending(n.items) && SameStructure(c, n)
    ensures Readded(c, n, c.items) == []
    ensures Ascending(MergedItems(c, n)) && Ids(MergedItems(c, n)) == Ids(c.items)
  {
    StructureSameIds(c, n);
    NothingToReadd(c, n, c.items);
    var merged := MergedListed(c, n);
    forall i | 0 <= i < |n.items|
      ensures merged[i].id == n.items[i].id
    {
      if Outlives(c, n.revision, n.items[i].id) { FindHasId(c.items, n.items[i].id); }
    }
    hide MergedListed;
    assert merged + [] == merged;
    SortSorted(merged);
    forall id
      ensures id in Ids(merged) <==> id in Ids(n.items)
    {
      MergedListedIds(c, n, id);
    }
  }

  lemma ReplaceAscending(items: seq<Item>, item: Item)
    ensures Ids(Replace(items, item)) == Ids(items)
    ensures Ascending(items) ==> Ascending(Replace(items, item))
  {
    var replaced := Replace(items, item);
    assert |replaced| == |items| && forall i :: 0 <= i < |items| ==> replaced[i].id == items[i].id;
    hide Replace;
    forall id | id in Ids(items)
      ensures id in Ids(replaced)
    {
      var i :| 0 <= i < |items| && items[i].id == id;
      assert replaced[i].id == id;
    }
  }
}
