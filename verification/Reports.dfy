/** The shop report and the list counts: aggregates over the order rows, and their agreement with
    the status history. */
module Reports {
  import opened Wrappers
  import opened Customers
  import opened Orders
  import opened Ledger
  import opened LedgerSafety

  // ---------------------------------------------------------------- arrivals and departures

  /** Entries of the shop's orders that arrive at a status. */
  function Arrivals(db: Db, history: seq<Entry>, shop: ShopId, s: Status): nat {
    if history == [] then 0
    else
      var e := history[|history| - 1];
      Arrivals(db, history[..|history| - 1], shop, s) + (if OfShop(db, e.order, shop) && e.status == s then 1 else 0)
  }

  /** Entries of the shop's orders that leave a status. */
  function Departures(db: Db, history: seq<Entry>, shop: ShopId, s: Status): nat {
    if history == [] then 0
    else
      var e := history[|history| - 1];
      Departures(db, history[..|history| - 1], shop, s)
          + (if OfShop(db, e.order, shop) && e.previous == Some(s) then 1 else 0)
  }

  predicate OfShop(db: Db, id: OrderId, shop: ShopId) {
    id in db.orders && db.orders[id].shop == shop
  }

  function ShopOrders(db: Db, shop: ShopId): set<OrderId> {
    set id | id in db.orders && db.orders[id].shop == shop
  }

  function OrdersIn(db: Db, shop: ShopId, s: Status): set<OrderId> {
    set id | id in db.orders && db.orders[id].shop == shop && db.orders[id].status == s
  }

  /** The orders of a shop whose last entry in a stretch of history is s. */
  function LastIn(db: Db, history: seq<Entry>, shop: ShopId, s: Status): set<OrderId> {
    set id | id in db.orders && db.orders[id].shop == shop && EndsAt(history, id, s)
  }

  predicate EndsAt(history: seq<Entry>, id: OrderId, s: Status) {
    var path := HistoryOf(history, id);
    path != [] && path[|path| - 1].status == s
  }

  predicate Chained(history: seq<Entry>, id: OrderId) {
    var path := HistoryOf(history, id);
    path != [] ==> IsPath(path)
  }

  lemma HistoryPrefix(history: seq<Entry>, id: OrderId)
    requires history != []
    ensures var n := |history| - 1;
            HistoryOf(history, id) == HistoryOf(history[..n], id)
                + (if history[n].order == id then [history[n]] else [])
  {
  }

  lemma ChainedPrefix(history: seq<Entry>, id: OrderId)
    requires history != [] && Chained(history, id)
    ensures Chained(history[..|history| - 1], id)
  {
    HistoryPrefix(history, id);
    var path, front := HistoryOf(history, id), HistoryOf(history[..|history| - 1], id);
    assert forall i :: 0 <= i < |front| ==> front[i] == path[i];
  }

  /** What the last entry of a chained history does to the sets of orders by status. */
  lemma LastEntryMoves(db: Db, history: seq<Entry>, shop: ShopId, s: Status)
    requires history != [] && Chained(history, history[|history| - 1].order)
    ensures var e := history[|history| - 1];
            var before, after := LastIn(db, history[..|history| - 1], shop, s), LastIn(db, history, shop, s);
            if !OfShop(db, e.order, shop) then after == before
            else if e.status == s then e.order !in before && after == before + {e.order}
            else if e.previous == Some(s) then e.order in before && after == before - {e.order}
            else after == before
  {
    var n := |history| - 1;
    var e := history[n];
    var path, front := HistoryOf(history, e.order), HistoryOf(history[..n], e.order);
    HistoryPrefix(history, e.order);
    assert path == front + [e];
    if front != [] {
      assert path[|front| - 1] == front[|front| - 1] && path[|front|] == e;
    }
    forall id | id != e.order ensures EndsAt(history, id, s) == EndsAt(history[..n], id, s) {
      HistoryPrefix(history, id);
    }
    assert EndsAt(history, e.order, s) <==> e.status == s;
    assert EndsAt(history[..n], e.order, s) <==> e.previous == Some(s);
  }

  lemma {:induction false} Telescope(db: Db, history: seq<Entry>, shop: ShopId, s: Status)
    requires forall id :: id in db.orders ==> Chained(history, id)
    ensures |LastIn(db, history, shop, s)| == Arrivals(db, history, shop, s) - Departures(db, history, shop, s)
  {
    if history == [] {
      assert LastIn(db, history, shop, s) == {};
    } else {
      var n := |history| - 1;
      forall id | id in db.orders ensures Chained(history[..n], id) {
        ChainedPrefix(history, id);
      }
      Telescope(db, history[..n], shop, s);
      if OfShop(db, history[n].order, shop) {
        LastEntryMoves(db, history, shop, s);
        NoSelfLoop(history);
      } else {
        SameElsewhere(db, history, shop, s);
      }
    }
  }

  lemma NoSelfLoop(history: seq<Entry>)
    requires history != [] && Chained(history, history[|history| - 1].order)
    ensures history[|history| - 1].previous != Some(history[|history| - 1].status)
  {
    var path := HistoryOf(history, history[|history| - 1].order);
    HistoryPrefix(history, history[|history| - 1].order);
    var last := |path| - 1;
    assert path[last] == history[|history| - 1];
    if last > 0 {
      assert path[last].previous == Some(path[last - 1].status) && path[last].status != path[last - 1].status;
    }
  }

  lemma SameElsewhere(db: Db, history: seq<Entry>, shop: ShopId, s: Status)
    requires history != [] && !OfShop(db, history[|history| - 1].order, shop)
    ensures LastIn(db, history, shop, s) == LastIn(db, history[..|history| - 1], shop, s)
  {
    forall id | OfShop(db, id, shop) ensures EndsAt(history, id, s) == EndsAt(history[..|history| - 1], id, s) {
      HistoryPrefix(history, id);
    }
  }

  /** Conservation: the number of a shop's orders in a status is what arrived there minus what left. */
  lemma StatusCountsConserved(db: Db, shop: ShopId, s: Status)
    requires HistoryOk(db)
    ensures |OrdersIn(db, shop, s)| == Arrivals(db, db.history, shop, s) - Departures(db, db.history, shop, s)
  {
    forall id | id in db.orders ensures Chained(db.history, id)
        && (EndsAt(db.history, id, s) <==> db.orders[id].status == s) {
      assert PathOk(db.history, id, db.orders[id].status);
    }
    Telescope(db, db.history, shop, s);
    assert OrdersIn(db, shop, s) == LastIn(db, db.history, shop, s);
  }

  /** In every run of the ledger. */
  lemma ReportAgreesWithHistory(catalog: Catalog, steps: seq<Step>, shop: ShopId, s: Status)
    requires PricesOk(catalog)
    ensures var db := Run(catalog, steps).db;
            |OrdersIn(db, shop, s)| == Arrivals(db, db.history, shop, s) - Departures(db, db.history, shop, s)
  {
    RunKeeps(catalog, steps);
    StatusCountsConserved(Run(catalog, steps).db, shop, s);
  }

  // ---------------------------------------------------------------- the handlers' arithmetic

  /** One row of GROUP BY status. */
  datatype Group = Group(status: Status, count: nat)

  const ALL_STATUSES: seq<Status> := [WaitingInfo, WaitingPayment, Paid, Preparing, Shipped, Cancelled]

  /** The grouped query: one row per status that occurs, in any order, with its count. */
  ghost predicate Grouped(db: Db, shop: ShopId, groups: seq<Group>) {
    && (forall i, j :: 0 <= i < j < |groups| ==> groups[i].status != groups[j].status)
    && (forall i :: 0 <= i < |groups| ==> groups[i].count == |OrdersIn(db, shop, groups[i].status)| > 0)
    && (forall s :: |OrdersIn(db, shop, s)| > 0 ==> exists i :: 0 <= i < |groups| && groups[i].status == s)
  }

  function CountOf(groups: seq<Group>, s: Status): nat {
    if groups == [] then 0
    else (if groups[0].status == s then groups[0].count else 0) + CountOf(groups[1..], s)
  }

  lemma {:induction false} CountOfAbsent(groups: seq<Group>, s: Status)
    requires forall i :: 0 <= i < |groups| ==> groups[i].status != s
    ensures CountOf(groups, s) == 0
  {
    if groups != [] {
      CountOfAbsent(groups[1..], s);
    }
  }

  lemma {:induction false} CountOfPresent(groups: seq<Group>, k: nat)
    requires k < |groups|
    requires forall i, j :: 0 <= i < j < |groups| ==> groups[i].status != groups[j].status
    ensures CountOf(groups, groups[k].status) == groups[k].count
  {
    if k == 0 {
      CountOfAbsent(groups[1..], groups[0].status);
    } else {
      CountOfPresent(groups[1..], k - 1);
    }
  }

  lemma GroupedCount(db: Db, shop: ShopId, groups: seq<Group>, s: Status)
    requires Grouped(db, shop, groups)
    ensures CountOf(groups, s) == |OrdersIn(db, shop, s)|
  {
    if i :| 0 <= i < |groups| && groups[i].status == s {
      CountOfPresent(groups, i);
    } else {
      CountOfAbsent(groups, s);
    }
  }

  function Position(s: Status): (k: nat)
    ensures k < |ALL_STATUSES| && ALL_STATUSES[k] == s
  {
    match s
    case WaitingInfo => 0
    case WaitingPayment => 1
    case Paid => 2
    case Preparing => 3
    case Shipped => 4
    case Cancelled => 5
  }

  /** shopReport's statusCounts: every status starts at zero and the groups overwrite theirs. */
  method StatusCounts(ghost db: Db, ghost shop: ShopId, groups: seq<Group>) returns (counts: map<Status, nat>)
    requires Grouped(db, shop, groups)
    ensures forall s: Status :: s in counts && counts[s] == |OrdersIn(db, shop, s)|
  {
    counts := map[];
    for i := 0 to |ALL_STATUSES|
      invariant forall j :: 0 <= j < i ==> ALL_STATUSES[j] in counts
      invariant forall s :: s in counts ==> counts[s] == 0
    {
      counts := counts[ALL_STATUSES[i] := 0];
    }
    forall s: Status ensures s in counts {
      var k := Position(s);
      assert ALL_STATUSES[k] in counts;
    }
    for i := 0 to |groups|
      invariant forall s: Status :: s in counts
      invariant forall j :: 0 <= j < i ==> counts[groups[j].status] == groups[j].count
      invariant forall s: Status :: (forall j :: 0 <= j < i ==> groups[j].status != s) ==> counts[s] == 0
    {
      counts := counts[groups[i].status := groups[i].count];
    }
  }

  predicate IsArchived(s: Status) { s == Shipped || s == Cancelled }

  function ArchivedIn(groups: seq<Group>): nat {
    CountOf(groups, Shipped) + CountOf(groups, Cancelled)
  }

  function ActiveIn(groups: seq<Group>): nat {
    CountOf(groups, WaitingInfo) + CountOf(groups, WaitingPayment) + CountOf(groups, Paid) + CountOf(groups, Preparing)
  }

  lemma NextGroup(groups: seq<Group>, i: nat)
    requires i < |groups|
    ensures var g := groups[i];
            && ArchivedIn(groups[..i + 1]) == ArchivedIn(groups[..i]) + (if IsArchived(g.status) then g.count else 0)
            && ActiveIn(groups[..i + 1]) == ActiveIn(groups[..i]) + (if IsArchived(g.status) then 0 else g.count)
  {
    assert groups[..i + 1] == groups[..i] + [groups[i]];
    CountOfAppend(groups[..i], groups[i], WaitingInfo);
    CountOfAppend(groups[..i], groups[i], WaitingPayment);
    CountOfAppend(groups[..i], groups[i], Paid);
    CountOfAppend(groups[..i], groups[i], Preparing);
    CountOfAppend(groups[..i], groups[i], Shipped);
    CountOfAppend(groups[..i], groups[i], Cancelled);
  }

  lemma GroupedTotals(db: Db, shop: ShopId, groups: seq<Group>)
    requires Grouped(db, shop, groups)
    ensures ArchivedIn(groups) == |OrdersIn(db, shop, Shipped)| + |OrdersIn(db, shop, Cancelled)|
    ensures ActiveIn(groups) + ArchivedIn(groups) == |ShopOrders(db, shop)|
  {
    GroupedCount(db, shop, groups, WaitingInfo);
    GroupedCount(db, shop, groups, WaitingPayment);
    GroupedCount(db, shop, groups, Paid);
    GroupedCount(db, shop, groups, Preparing);
    GroupedCount(db, shop, groups, Shipped);
    GroupedCount(db, shop, groups, Cancelled);
    StatusesPartition(db, shop);
  }

  /** listOrders' two counters. */
  method ListCounts(ghost db: Db, ghost shop: ShopId, groups: seq<Group>) returns (active: nat, archived: nat)
    requires Grouped(db, shop, groups)
    ensures archived == |OrdersIn(db, shop, Shipped)| + |OrdersIn(db, shop, Cancelled)|
    ensures active + archived == |ShopOrders(db, shop)|
  {
    active, archived := 0, 0;
    for i := 0 to |groups|
      invariant archived == ArchivedIn(groups[..i]) && active == ActiveIn(groups[..i])
    {
      NextGroup(groups, i);
      if IsArchived(groups[i].status) {
        archived := archived + groups[i].count;
      } else {
        active := active + groups[i].count;
      }
    }
    assert groups[..|groups|] == groups;
    GroupedTotals(db, shop, groups);
  }

  lemma {:induction false} CountOfAppend(groups: seq<Group>, g: Group, s: Status)
    ensures CountOf(groups + [g], s) == CountOf(groups, s) + (if g.status == s then g.count else 0)
  {
    if groups != [] {
      assert (groups + [g])[1..] == groups[1..] + [g];
      CountOfAppend(groups[1..], g, s);
    }
  }

  predicate IsConfirmed(s: Status) { s == Paid || s == Preparing || s == Shipped }

  function ConfirmedOrders(db: Db, shop: ShopId): set<OrderId> {
    set id | id in db.orders && db.orders[id].shop == shop && IsConfirmed(db.orders[id].status)
  }

  lemma ThreeParts(a: set<OrderId>, b: set<OrderId>, c: set<OrderId>)
    requires a !! b && a !! c && b !! c
    ensures |a + b + c| == |a| + |b| + |c|
  {
    assert |a + b + c| == |a + b| + |c|;
  }

  lemma ConfirmedSize(db: Db, shop: ShopId)
    ensures |ConfirmedOrders(db, shop)|
            == |OrdersIn(db, shop, Paid)| + |OrdersIn(db, shop, Preparing)| + |OrdersIn(db, shop, Shipped)|
  {
    var c, d, e := OrdersIn(db, shop, Paid), OrdersIn(db, shop, Preparing), OrdersIn(db, shop, Shipped);
    assert ConfirmedOrders(db, shop) == c + d + e;
    ThreeParts(c, d, e);
  }

  lemma OpenSize(db: Db, shop: ShopId, rest: set<OrderId>)
    requires rest == ShopOrders(db, shop) - ConfirmedOrders(db, shop)
    ensures |rest| == |OrdersIn(db, shop, WaitingInfo)| + |OrdersIn(db, shop, WaitingPayment)|
                      + |OrdersIn(db, shop, Cancelled)|
  {
    var a, b, f := OrdersIn(db, shop, WaitingInfo), OrdersIn(db, shop, WaitingPayment), OrdersIn(db, shop, Cancelled);
    forall id ensures id in rest <==> id in a + b + f {
      if id in ShopOrders(db, shop) {
        match db.orders[id].status {
          case WaitingInfo => case WaitingPayment => case Paid =>
          case Preparing => case Shipped => case Cancelled =>
        }
      }
    }
    assert rest == a + b + f;
    ThreeParts(a, b, f);
  }

  /** The six status counts add up to the order count, and the confirmed count is three of them. */
  lemma StatusesPartition(db: Db, shop: ShopId)
    ensures |ShopOrders(db, shop)| == |OrdersIn(db, shop, WaitingInfo)| + |OrdersIn(db, shop, WaitingPayment)|
              + |OrdersIn(db, shop, Paid)| + |OrdersIn(db, shop, Preparing)|
              + |OrdersIn(db, shop, Shipped)| + |OrdersIn(db, shop, Cancelled)|
    ensures |ConfirmedOrders(db, shop)|
            == |OrdersIn(db, shop, Paid)| + |OrdersIn(db, shop, Preparing)| + |OrdersIn(db, shop, Shipped)|
  {
    var confirmed := ConfirmedOrders(db, shop);
    var rest := ShopOrders(db, shop) - confirmed;
    ConfirmedSize(db, shop);
    OpenSize(db, shop, rest);
    assert ShopOrders(db, shop) == rest + confirmed;
    assert |rest + confirmed| == |rest| + |confirmed|;
  }

  /** Integer division of the confirmed value, guarded against an empty report: Go truncates toward
      zero, which is the floor here since order amounts are positive. */
  function Average(value: nat, count: nat): nat {
    if count > 0 then value / count else 0
  }

  /** The average is the largest whole amount that the confirmed orders could each have had. */
  lemma AverageIsFloor(value: nat, count: nat, each: nat)
    requires count > 0
    ensures each <= Average(value, count) <==> each * count <= value
  {
    var q := value / count;
    assert q * count <= value < q * count + count;
    var gap := if each <= q then q - each else each - q - 1;
    assert gap * count >= 0;
    if each <= q {
      assert q * count == (each + gap) * count == each * count + gap * count;
    } else {
      assert each * count == (q + 1 + gap) * count == q * count + count + gap * count;
    }
  }
}
