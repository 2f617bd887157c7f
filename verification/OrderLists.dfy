/** The order list and the counters shown beside it: the lists of a shop's orders have exactly the
    lengths that listOrders counts. */
module OrderLists {
  import opened Wrappers
  import opened Customers
  import opened Orders
  import Paging
  import opened Reports

  /** The rows of the list query's table are the shop's orders. */
  ghost predicate TableOf(db: Db, shop: ShopId, table: seq<Paging.Row>) {
    && Paging.DistinctIds(table)
    && (forall r :: r in table ==>
          r.id >= 0 && r.id in db.orders && db.orders[r.id].shop == shop && db.orders[r.id].status == r.status)
    && (forall id :: id in db.orders && db.orders[id].shop == shop ==> exists r :: r in table && r.id == id)
  }

  /** The orders a query asks for, said of the tables. */
  ghost function AskedFor(db: Db, shop: ShopId, q: Paging.Query): set<OrderId> {
    set id | id in db.orders && db.orders[id].shop == shop
      && (q.view == Paging.Active ==> db.orders[id].status != Shipped && db.orders[id].status != Cancelled)
      && (q.view == Paging.Archive ==> db.orders[id].status == Shipped || db.orders[id].status == Cancelled)
      && (q.status != None ==> q.status == Some(db.orders[id].status))
      && (q.found != None ==> id in q.found.value)
  }

  function IdsOf(list: seq<Paging.Row>): set<int> {
    set i | 0 <= i < |list| :: list[i].id
  }

  lemma {:induction false} IdsCount(list: seq<Paging.Row>)
    requires Paging.DistinctIds(list)
    ensures |IdsOf(list)| == |list|
  {
    if list != [] {
      var last := |list| - 1;
      IdsCount(list[..last]);
      assert IdsOf(list) == IdsOf(list[..last]) + {list[last].id};
    }
  }

  lemma ListedOnce(table: seq<Paging.Row>, q: Paging.Query)
    requires Paging.DistinctIds(table)
    ensures Paging.DistinctIds(Paging.Listing(table, q))
  {
    var list := Paging.Listing(table, q);
    Paging.ListingIsListing(table, q);
    forall i, j | 0 <= i < j < |list| ensures list[i].id != list[j].id {
      assert list[i] in table && list[j] in table && Paging.Before(q.sort, list[i], list[j]);
      Paging.SortIsStrictTotal(q.sort, list[i], list[j], list[j]);
    }
  }

  /** A query's list holds each order asked for, once. */
  lemma ListLength(db: Db, shop: ShopId, table: seq<Paging.Row>, q: Paging.Query)
    requires TableOf(db, shop, table)
    ensures |Paging.Listing(table, q)| == |AskedFor(db, shop, q)|
  {
    var list, asked := Paging.Listing(table, q), AskedFor(db, shop, q);
    ListedOnce(table, q);
    IdsCount(list);
    forall x: int ensures x in IdsOf(list) <==> x in asked {
      if x in IdsOf(list) {
        var i :| 0 <= i < |list| && list[i].id == x;
        assert list[i] in list;
        Paging.ListingHolds(table, q, list[i]);
      }
      if x in asked {
        var r :| r in table && r.id == x;
        Paging.ListingHolds(table, q, r);
        var i :| 0 <= i < |list| && list[i] == r;
      }
    }
    assert IdsOf(list) == asked;
  }

  /** Without filter and search the archive is as long as the archived counter says, and both views
      together as the two counters; a status filter over all orders gives that status's count. */
  lemma ListsHaveTheirCounts(db: Db, shop: ShopId, table: seq<Paging.Row>, sort: Paging.Sort, s: Status)
    requires TableOf(db, shop, table)
    ensures |Paging.Listing(table, Paging.Query(Paging.Archive, None, sort, None))|
            == |OrdersIn(db, shop, Shipped)| + |OrdersIn(db, shop, Cancelled)|
    ensures |Paging.Listing(table, Paging.Query(Paging.Active, None, sort, None))|
              + |Paging.Listing(table, Paging.Query(Paging.Archive, None, sort, None))| == |ShopOrders(db, shop)|
    ensures |Paging.Listing(table, Paging.Query(Paging.All, Some(s), sort, None))| == |OrdersIn(db, shop, s)|
  {
    var archive, active := Paging.Query(Paging.Archive, None, sort, None),
        Paging.Query(Paging.Active, None, sort, None);
    var filtered := Paging.Query(Paging.All, Some(s), sort, None);
    ListLength(db, shop, table, archive);
    ListLength(db, shop, table, active);
    ListLength(db, shop, table, filtered);
    hide TableOf;
    assert AskedFor(db, shop, filtered) == OrdersIn(db, shop, s);
    ArchiveAsked(db, shop, archive);
    ViewsSplit(db, shop, active, archive);
  }

  lemma ArchiveAsked(db: Db, shop: ShopId, archive: Paging.Query)
    requires archive.view == Paging.Archive && archive.status == None && archive.found == None
    ensures |AskedFor(db, shop, archive)| == |OrdersIn(db, shop, Shipped)| + |OrdersIn(db, shop, Cancelled)|
  {
    assert AskedFor(db, shop, archive) == OrdersIn(db, shop, Shipped) + OrdersIn(db, shop, Cancelled);
    assert OrdersIn(db, shop, Shipped) !! OrdersIn(db, shop, Cancelled);
  }

  lemma ViewsSplit(db: Db, shop: ShopId, active: Paging.Query, archive: Paging.Query)
    requires active.view == Paging.Active && archive.view == Paging.Archive
    requires active.status == archive.status == None && active.found == archive.found == None
    ensures |AskedFor(db, shop, active)| + |AskedFor(db, shop, archive)| == |ShopOrders(db, shop)|
  {
    assert ShopOrders(db, shop) == AskedFor(db, shop, active) + AskedFor(db, shop, archive);
    assert AskedFor(db, shop, active) !! AskedFor(db, shop, archive);
  }

  /** listOrders: the two counters and the page, where the counters are the lengths of the two views
      whatever page, filter or search is asked for. */
  method ListOrders(ghost db: Db, ghost shop: ShopId, groups: seq<Group>, table: seq<Paging.Row>, q: Paging.Query,
      offset: nat) returns (page: Paging.Page, activeCount: nat, archivedCount: nat)
    requires Grouped(db, shop, groups) && TableOf(db, shop, table)
    ensures activeCount == |Paging.Listing(table, Paging.Query(Paging.Active, None, q.sort, None))|
    ensures archivedCount == |Paging.Listing(table, Paging.Query(Paging.Archive, None, q.sort, None))|
    ensures var list := Paging.Listing(table, q);
            && (forall i :: 0 <= i < |page.rows| ==> offset + i < |list| && page.rows[i] == list[offset + i])
            && (offset <= |list| ==> (page.hasMore <==> offset + |page.rows| < |list|))
            && |page.rows| <= 20 && (page.hasMore ==> |page.rows| == 20)
  {
    activeCount, archivedCount := ListCounts(db, shop, groups);
    ListsHaveTheirCounts(db, shop, table, q.sort, WaitingInfo);
    page := Paging.PageAt(Paging.Listing(table, q), offset);
  }
}
