/** The handlers' transactions as they run: an object whose tables each statement changes in turn,
    proved to compute the transactions the ledger is built from. Query results, the clock and the
    row ids the database hands out are parameters. */
module Store {
  import opened Wrappers
  import opened Text
  import opened Pricing
  import opened Customers
  import opened Intake
  import opened Orders
  import opened Edits
  import opened Ledger
  import opened LedgerInvariant
  import opened LedgerTheorems
  import opened LedgerCreation
  import opened LedgerAnswers

  /** Three days, in the clock's unit of seconds. */
  const STALE_AGE: Time := 3 * 24 * 60 * 60

  /** An enumeration of the stale orders: what Pluck returns. */
  predicate ListsStale(db: Db, ids: seq<OrderId>, cutoff: Time) {
    Distinct(ids) && (set i | 0 <= i < |ids| :: ids[i]) == StaleIds(db, cutoff)
  }

  /** A list is that enumeration when it holds each order still waiting for information since before the
      cutoff, once, and nothing else. */
  lemma ListsStaleMeans(db: Db, ids: seq<OrderId>, cutoff: Time)
    ensures ListsStale(db, ids, cutoff) <==>
              && (forall i, j :: 0 <= i < j < |ids| ==> ids[i] != ids[j])
              && (forall id :: id in ids <==>
                    id in db.orders && db.orders[id].status == WaitingInfo && db.orders[id].createdAt <= cutoff)
  {
    var listed := set i | 0 <= i < |ids| :: ids[i];
    assert forall id :: id in listed <==> id in ids;
    assert ListsStale(db, ids, cutoff) ==> forall id :: id in ids <==> id in StaleIds(db, cutoff);
  }

  function Cancellations(ids: seq<OrderId>): seq<Entry> {
    seq(|ids|, i requires 0 <= i < |ids| => Entry(ids[i], Some(WaitingInfo), Cancelled, None))
  }

  function CancelNotices(ids: seq<OrderId>): seq<Event> {
    seq(|ids|, i requires 0 <= i < |ids| => Notice(OrderStatusChanged, ids[i]))
  }

  lemma CancelAllStep(db: Db, ids: seq<OrderId>, cutoff: Time)
    requires ids != [] && Distinct(ids) && forall i :: 0 <= i < |ids| ==>
             ids[i] in db.orders && Stale(db.orders[ids[i]], cutoff)
    ensures var n := |ids| - 1;
            var before, after := CancelAll(db, ids[..n], cutoff), CancelAll(db, ids, cutoff);
            && after.history == before.history + [Entry(ids[n], Some(WaitingInfo), Cancelled, None)]
            && after.events == before.events + [Notice(OrderStatusChanged, ids[n])]
  {
    CancelAllExact(db, ids[..|ids| - 1], cutoff);
    assert ids[|ids| - 1] !in ids[..|ids| - 1];
  }

  lemma {:induction false} CancelAllAppends(db: Db, ids: seq<OrderId>, cutoff: Time)
    requires Distinct(ids) && forall i :: 0 <= i < |ids| ==> ids[i] in db.orders && Stale(db.orders[ids[i]], cutoff)
    ensures var after := CancelAll(db, ids, cutoff);
            after.history == db.history + Cancellations(ids) && after.events == db.events + CancelNotices(ids)
  {
    if ids != [] {
      var n := |ids| - 1;
      CancelAllAppends(db, ids[..n], cutoff);
      CancelAllStep(db, ids, cutoff);
      hide CancelAll, Stale;
      assert Cancellations(ids) == Cancellations(ids[..n]) + [Entry(ids[n], Some(WaitingInfo), Cancelled, None)];
      assert CancelNotices(ids) == CancelNotices(ids[..n]) + [Notice(OrderStatusChanged, ids[n])];
    }
  }

  lemma ListedAreStale(db: Db, ids: seq<OrderId>, cutoff: Time)
    requires ListsStale(db, ids, cutoff)
    ensures forall i :: 0 <= i < |ids| ==> ids[i] in db.orders && Stale(db.orders[ids[i]], cutoff)
    ensures forall id :: id in ids <==> id in StaleIds(db, cutoff)
    ensures |ids| == |StaleIds(db, cutoff)|
  {
    var listed := set i | 0 <= i < |ids| :: ids[i];
    forall i | 0 <= i < |ids| ensures ids[i] in StaleIds(db, cutoff) {
      assert ids[i] in listed;
    }
    DistinctCount(ids);
  }

  lemma {:induction false} DistinctCount(ids: seq<OrderId>)
    requires Distinct(ids)
    ensures |set i | 0 <= i < |ids| :: ids[i]| == |ids|
  {
    if ids != [] {
      var n := |ids| - 1;
      DistinctCount(ids[..n]);
      assert (set i | 0 <= i < |ids| :: ids[i]) == (set i | 0 <= i < n :: ids[..n][i]) + {ids[n]};
    }
  }

  /** Run alone, the sweep equals its one-line specification, and running it again changes nothing. */
  lemma SweepAlone(db: Db, ids: seq<OrderId>, cutoff: Time)
    requires ListsStale(db, ids, cutoff)
    ensures var after := CancelAll(db, ids, cutoff);
            && after.orders == (map id | id in db.orders ::
                 if db.orders[id].status == WaitingInfo && db.orders[id].createdAt <= cutoff
                 then db.orders[id].(status := Cancelled) else db.orders[id])
            && after.history == db.history + Cancellations(ids)
            && after.events == db.events + CancelNotices(ids)
            && |ids| == |StaleIds(db, cutoff)|
            && StaleIds(after, cutoff) == {}
            && (forall more :: ListsStale(after, more, cutoff) ==>
                  more == [] && CancelAll(after, more, cutoff) == after)
  {
    ListedAreStale(db, ids, cutoff);
    CancelAllExact(db, ids, cutoff);
    CancelAllAppends(db, ids, cutoff);
    var after := CancelAll(db, ids, cutoff);
    forall more | ListsStale(after, more, cutoff) ensures more == [] {
      ListedAreStale(after, more, cutoff);
    }
  }

  /** The import's transaction from its first statement to its last; the ledger cuts it in two
      around the rename of the receipt. */
  function ImportTransaction(db: Db, c: Catalog, r: ReqId, job: Job, id: OrderId, rows: seq<Product>,
      now: Time): Creation
    requires job.Import? && JobOk(job)
  {
    match LockedActiveShop(c, job.admin, ShopOf(job))
    case Rejected(reason) => Declined(reason)
    case Done(shop) =>
      if |rows| != |LinesOf(job)| then Declined(NotFound)
      else match TryInsert(db, id, NewRow(r, job, shop.payment, rows, None, now), job.admin)
        case None => KeyLost
        case Some(after) => Inserted(after)
  }

  /** The two halves, with the rename between them and nobody else's step, are that transaction. */
  lemma ImportHalvesCompose(s: State, r: ReqId, rows: seq<Product>, id: OrderId, now: Time)
    requires r in s.requests && s.requests[r].job.Import? && JobOk(s.requests[r].job)
    ensures var job := s.requests[r].job;
            var t := DoBeginImport(s, r, rows);
            match ImportTransaction(s.db, s.catalog, r, job, id, rows, now)
            case Declined(reason) => t == Finish(s, r, Refused(reason))
            case KeyLost => t.requests[r].phase.Checked?
                && DoInsertImport(DoRename(t, r), r, id, now).requests[r].phase == Lost
            case Inserted(after) =>
              && t.requests[r].phase.Checked?
              && DoInsertImport(DoRename(t, r), r, id, now).db == after
              && DoInsertImport(DoRename(t, r), r, id, now).requests[r].phase == Closing(Created(id, PrintOf(job)))
  {
    hide NewRow, PrintOf;
  }

  /** importHistoricalOrder's transaction, said from the request as sent. */
  lemma ImportDecided(db: Db, c: Catalog, r: ReqId, job: Job, id: OrderId, rows: seq<Product>, now: Time)
    requires job.Import? && JobOk(job) && PricesOk(c) && id !in db.orders
    requires Loaded(c, LinesOf(job), ShopOf(job), rows)
    ensures var shop, end := job.historical.shopId, ImportTransaction(db, c, r, job, id, rows, now);
            if (job.admin, shop) !in c.access || shop !in c.shops || !c.shops[shop].active
            then end == Declined(NotFound)
            else if !c.shops[shop].writable then end == Declined(PaymentRequired)
            else if !AllOnSale(c, shop, job.historical.items) then end == Declined(NotFound)
            else if KeyInUse(db, Trim(job.historical.createKey)) then end == KeyLost
            else end.Inserted? && id in end.db.orders
                 && HoldsImport(end.db.orders[id], r, job.historical, job.file.Some?, c, now)
                 && (EventsOk(db) ==>
                       OneOrderAdded(db, end.db, id, job.admin, end.db.orders[id].status,
                           Trim(job.historical.createKey)))
  {
    var lines, sent, shop := LinesOf(job), job.historical.items, job.historical.shopId;
    ImportFacts(job.historical, job.file.Some?);
    LoadedAll(c, lines, sent, ShopOf(job), rows);
    if shop in c.shops && |rows| == |lines| {
      NewImportRow(r, job, c, rows, now);
      var row := NewRow(r, job, c.shops[shop].payment, rows, None, now);
      if EventsOk(db) && !KeyTaken(db, row.createKey) { InsertAdds(db, id, row, job.admin); }
    }
    hide Loaded, AcceptsHistorical, AcceptableLines, DistinctProducts, SortLines, Asked, ItemsOf, Trim;
    hide NormalizeMobile, NormalizeDigits, PricesOk, Record, EventsOk, OneOrderAdded, ParseStatus;
  }

  class OrderStore {
    var orders: map<OrderId, Order>
    var history: seq<Entry>
    var events: seq<Event>

    ghost function View(): Db
      reads this
    {
      Db(orders, history, events)
    }

    constructor ()
      ensures View() == Db(map[], [], [])
    {
      orders, history, events := map[], [], [];
    }

    /** recordPilotEvent: ON CONFLICT DO NOTHING on the (name, key) index. */
    method RecordEvent(e: Event)
      modifies this`events
      ensures events == Record(old(events), e)
    {
      if e.key.Some? && exists i :: 0 <= i < |events| && events[i].name == e.name && events[i].key == e.key {
        return;
      }
      events := events + [e];
    }

    /** cancelStaleWaitingInfoOrders: for any list of ids, a conditional update, a history entry and
        an event per row that still matches. */
    method CancelStaleOrders(orderIDs: seq<OrderId>, now: Time) returns (cancelled: nat)
      modifies this
      ensures View() == CancelAll(old(View()), orderIDs, now - STALE_AGE)
      ensures cancelled == |history| - |old(history)|
      ensures ListsStale(old(View()), orderIDs, now - STALE_AGE) ==>
                && orders == (map id | id in old(orders) ::
                     if old(orders)[id].status == WaitingInfo && old(orders)[id].createdAt <= now - 3 * 86_400
                     then old(orders)[id].(status := Cancelled) else old(orders)[id])
                && history == old(history) + Cancellations(orderIDs)
                && cancelled == |StaleIds(old(View()), now - STALE_AGE)|
                && StaleIds(View(), now - STALE_AGE) == {}
    {
      cancelled := 0;
      var cutoff := now - STALE_AGE;
      for k := 0 to |orderIDs|
        invariant View() == CancelAll(old(View()), orderIDs[..k], cutoff)
        invariant cancelled == |history| - |old(history)|
      {
        var orderID := orderIDs[k];
        assert orderIDs[..k + 1][..k] == orderIDs[..k];
        if orderID !in orders || !Stale(orders[orderID], cutoff) {
          continue;
        }
        orders := orders[orderID := orders[orderID].(status := Cancelled)];
        history := history + [Entry(orderID, Some(WaitingInfo), Cancelled, None)];
        RecordEvent(Notice(OrderStatusChanged, orderID));
        cancelled := cancelled + 1;
      }
      assert orderIDs[..|orderIDs|] == orderIDs;
      if ListsStale(old(View()), orderIDs, cutoff) {
        SweepAlone(old(View()), orderIDs, cutoff);
      }
    }

    /** The transaction of updateOrder, in the handler's order of checks and writes. */
    method UpdateOrder(admin: AdminId, allowed: bool, id: OrderId, p: Patch) returns (r: Outcome<()>)
      modifies this
      ensures match Update(old(View()), admin, allowed, id, p)
              case Rejected(reason) => r == Rejected(reason) && View() == old(View())
              case Done(after) => r == Done(()) && View() == after
      ensures r == Rejected(NotFound) <==> id !in old(orders) || !allowed
      ensures r.Done? ==> Edited(old(View()), View(), admin, id, p)
      ensures SubmittedValid(old(View())) && id in old(orders) && allowed ==>
                r == if NamesCustomer(p) && old(orders)[id].submittedAt.None? then Rejected(Conflict)
                     else if NamesInvalid(p) then Rejected(BadRequest)
                     else if StatusRefused(old(orders)[id], p) then Rejected(Conflict)
                     else Done(())
    {
      if SubmittedValid(View()) { EditIsDecided(View(), admin, allowed, id, p); }
      if Update(View(), admin, allowed, id, p).Done? { EditLeaves(View(), admin, allowed, id, p); }
      hide Edited, SubmittedValid, NamesCustomer, NamesInvalid, StatusRefused;
      if id !in orders || !allowed {
        return Rejected(NotFound);
      }
      var order := orders[id];
      var row := order.(remarks := MergeRemarks(order.remarks, p));
      if PatchesCustomer(p) {
        if order.submittedAt.None? {
          return Rejected(Conflict);
        }
        var details := MergeDetails(order.customer, p);
        if !ValidDetails(details) {
          return Rejected(BadRequest);
        }
        row := row.(customer := details);
      }
      var statusChanged := p.status.Some? && p.status.value != order.status;
      var trackingAdded := p.tracking.Some? && order.remarks.tracking == "" && p.tracking.value != "";
      if statusChanged {
        if p.status.value == WaitingInfo && order.submittedAt.Some? {
          return Rejected(Conflict);
        }
        if p.status.value == WaitingPayment && order.receipt.None? {
          return Rejected(Conflict);
        }
        row := row.(status := p.status.value);
      }
      orders := orders[id := row];
      if statusChanged {
        history := history + [Entry(id, Some(order.status), p.status.value, Some(admin))];
        RecordEvent(Notice(OrderStatusChanged, id));
      }
      if trackingAdded {
        RecordEvent(Notice(TrackingAdded, id));
      }
      r := Done(());
    }

    /** The locked part of submitCustomerDetails, with the receipt already renamed. */
    method SubmitCustomerDetails(id: OrderId, token: Token, details: Details, receipt: Token, now: Time)
        returns (r: Outcome<()>)
      modifies this
      ensures match CheckSubmit(old(View()), id, token)
              case Rejected(reason) => r == Rejected(reason) && View() == old(View())
              case Done(_) =>
                && r == Done(()) && id in old(orders)
                && View() == Submit(old(View()), id, details, receipt, now)
      ensures r == Rejected(NotFound) <==> id !in old(orders) || old(orders)[id].token != token
      ensures r == Done(()) <==> id in old(orders) && old(orders)[id].token == token
                                 && old(orders)[id].submittedAt.None? && old(orders)[id].status == WaitingInfo
      ensures r == Done(()) ==>
                && orders == old(orders)[id := old(orders)[id].(customer := details, submittedAt := Some(now),
                                                                status := WaitingPayment, receipt := Some(receipt))]
                && history == old(history) + [Entry(id, Some(WaitingInfo), WaitingPayment, None)]
                && events == old(events) + [Event(CustomerSubmitted, Some(id), None)]
                                         + [Event(OrderStatusChanged, Some(id), None)]
    {
      if id !in orders || orders[id].token != token {
        return Rejected(NotFound);
      }
      var locked := orders[id];
      if locked.submittedAt.Some? || locked.status != WaitingInfo {
        return Rejected(Conflict);
      }
      var previousStatus := locked.status;
      locked := locked.(customer := details, submittedAt := Some(now), status := WaitingPayment,
          receipt := Some(receipt));
      orders := orders[id := locked];
      history := history + [Entry(id, Some(previousStatus), WaitingPayment, None)];
      RecordEvent(Notice(CustomerSubmitted, id));
      RecordEvent(Notice(OrderStatusChanged, id));
      r := Done(());
    }

    /** payment holds the columns of the order's shop as the transaction reads them. */
    method RequestFinalPayment(allowed: bool, id: OrderId, payment: Payment, now: Time) returns (r: Outcome<()>)
      modifies this
      ensures match RequestFinal(old(View()), allowed, id, payment, now)
              case Rejected(reason) => r == Rejected(reason) && View() == old(View())
              case Done(after) => r == Done(()) && View() == after
      ensures r == Rejected(NotFound) <==> id !in old(orders) || !allowed
      ensures id in old(orders) && allowed && old(orders)[id].requestedAt.None? ==>
                (r == Done(()) <==> FirstPaymentApproved(old(View()), id))
      ensures id in old(orders) && allowed && old(orders)[id].requestedAt.Some? ==>
                (r == Done(()) <==> old(orders)[id].initialPayment.Some?) && View() == old(View())
      ensures r == Done(()) && old(orders)[id].requestedAt.None? ==>
                && orders == old(orders)[id := old(orders)[id].(requestedAt := Some(now), finalPayment := payment)]
                && history == old(history)
                && events == old(events) + [Event(FinalPaymentRequested, Some(id), None)]
    {
      if id !in orders || !allowed {
        return Rejected(NotFound);
      }
      var order := orders[id];
      if order.initialPayment.None? {
        return Rejected(Conflict);
      }
      if order.requestedAt.Some? {
        return Done(());
      }
      if order.submittedAt.None? || order.receipt.None? {
        return Rejected(Conflict);
      }
      if order.status != Paid && order.status != Preparing && order.status != Shipped {
        return Rejected(Conflict);
      }
      if !PaidSeen(history, id) {
        return Rejected(Conflict);
      }
      orders := orders[id := order.(requestedAt := Some(now), finalPayment := payment)];
      RecordEvent(Notice(FinalPaymentRequested, id));
      r := Done(());
    }

    /** The locked part of submitFinalReceipt, with the receipt already renamed. */
    method SubmitFinalReceipt(id: OrderId, token: Token, receipt: Token) returns (r: Outcome<()>)
      modifies this
      ensures match CheckFinal(old(View()), id, token)
              case Rejected(reason) => r == Rejected(reason) && View() == old(View())
              case Done(_) => r == Done(()) && id in old(orders) && View() == SubmitFinal(old(View()), id, receipt)
      ensures r == Rejected(NotFound) <==> id !in old(orders) || old(orders)[id].token != token
      ensures r == Done(()) <==> id in old(orders) && old(orders)[id].token == token
                                 && old(orders)[id].initialPayment.Some? && old(orders)[id].requestedAt.Some?
                                 && old(orders)[id].status != Cancelled
                                 && old(orders)[id].finalReceipt.None? && old(orders)[id].confirmedAt.None?
      ensures r == Done(()) ==>
                && orders == old(orders)[id := old(orders)[id].(finalReceipt := Some(receipt))]
                && history == old(history)
                && events == old(events) + [Event(FinalReceiptSubmitted, Some(id), None)]
    {
      if id !in orders || orders[id].token != token {
        return Rejected(NotFound);
      }
      var locked := orders[id];
      if locked.initialPayment.None? || locked.requestedAt.None? || locked.status == Cancelled {
        return Rejected(Conflict);
      }
      if locked.finalReceipt.Some? || locked.confirmedAt.Some? {
        return Rejected(Conflict);
      }
      orders := orders[id := locked.(finalReceipt := Some(receipt))];
      RecordEvent(Notice(FinalReceiptSubmitted, id));
      r := Done(());
    }

    method ConfirmFinalPayment(admin: AdminId, allowed: bool, id: OrderId, now: Time) returns (r: Outcome<()>)
      modifies this
      ensures match ConfirmFinal(old(View()), admin, allowed, id, now)
              case Rejected(reason) => r == Rejected(reason) && View() == old(View())
              case Done(after) => r == Done(()) && View() == after
      ensures r == Rejected(NotFound) <==> id !in old(orders) || !allowed
      ensures id in old(orders) && allowed && old(orders)[id].confirmedAt.Some? ==>
                r == Done(()) && View() == old(View())
      ensures id in old(orders) && allowed && old(orders)[id].confirmedAt.None? ==>
                (r == Done(()) <==>
                   && old(orders)[id].initialPayment.Some? && old(orders)[id].requestedAt.Some?
                   && old(orders)[id].finalReceipt.Some? && old(orders)[id].status != Cancelled)
      ensures r == Done(()) && old(orders)[id].confirmedAt.None? ==>
                && orders == old(orders)[id := old(orders)[id].(confirmedAt := Some(now), confirmedBy := Some(admin))]
                && history == old(history)
                && events == old(events) + [Event(FinalPaymentConfirmed, Some(id), None)]
    {
      if id !in orders || !allowed {
        return Rejected(NotFound);
      }
      var order := orders[id];
      if order.confirmedAt.Some? {
        return Done(());
      }
      if order.initialPayment.None? || order.requestedAt.None? || order.finalReceipt.None?
          || order.status == Cancelled {
        return Rejected(Conflict);
      }
      orders := orders[id := order.(confirmedAt := Some(now), confirmedBy := Some(admin))];
      RecordEvent(Notice(FinalPaymentConfirmed, id));
      r := Done(());
    }

    /** The statements both creation handlers end with: the row unless its key is in use, its first history
        entry and its creation event. */
    method InsertOrder(id: OrderId, order: Order, admin: AdminId) returns (inserted: bool)
      modifies this
      ensures inserted <==> !KeyInUse(old(View()), order.createKey)
      ensures match TryInsert(old(View()), id, order, admin)
              case None => !inserted && View() == old(View())
              case Some(after) => inserted && View() == after
    {
      if exists other :: other in orders && orders[other].createKey == order.createKey {
        return false;
      }
      orders := orders[id := order];
      history := history + [Entry(id, None, order.status, Some(admin))];
      RecordEvent(Event(OrderCreated, Some(id), Some(order.createKey)));
      return true;
    }

    /** The transaction of createOrder: the loaded rows are priced by the checked loop, and the
        insert either takes the key or loses it. */
    method CreateOrder(c: Catalog, r: ReqId, job: Job, id: OrderId, rows: seq<Product>, now: Time)
        returns (end: Option<Outcome<()>>)
      requires job.Create? && JobOk(job) && PricesOk(c) && id !in orders
      requires Loaded(c, LinesOf(job), ShopOf(job), rows)
      modifies this
      ensures match CreateTransaction(old(View()), c, r, job, id, rows, now)
              case Declined(reason) => end == Some(Rejected(reason)) && View() == old(View())
              case KeyLost => end == None && View() == old(View())
              case Inserted(after) => end == Some(Done(())) && View() == after
      ensures var shop := job.normal.shopId;
              if (job.admin, shop) !in c.access || shop !in c.shops || !c.shops[shop].active
              then end == Some(Rejected(NotFound))
              else if !c.shops[shop].writable then end == Some(Rejected(PaymentRequired))
              else if !AllOnSale(c, shop, job.normal.items) then end == Some(Rejected(NotFound))
              else if ItemsTotal(Asked(c, job.normal.items)) > MAX_INT64 then end == Some(Rejected(BadRequest))
              else if KeyInUse(old(View()), Trim(job.normal.createKey)) then end == None
              else end == Some(Done(())) && id in orders && HoldsNormal(orders[id], r, job.normal, c, now)
      ensures EventsOk(old(View())) && end == Some(Done(())) ==>
                OneOrderAdded(old(View()), View(), id, job.admin, WaitingInfo, Trim(job.normal.createKey))
    {
      CreationDecided(View(), c, r, job, id, rows, now);
      hide AllOnSale, Asked, KeyInUse, HoldsNormal, OneOrderAdded, Trim, EventsOk, NewRow, PrintOf, PricesOk;
      hide AcceptsNormal, SortLines, NormalFingerprint, Record;
      LoadedIsRequested(c, LinesOf(job), ShopOf(job), rows);
      var shopId := ShopOf(job);
      if shopId !in c.shops || !c.shops[shopId].active || (job.admin, shopId) !in c.access {
        return Some(Rejected(NotFound));
      }
      var shop := c.shops[shopId];
      if !shop.writable {
        return Some(Rejected(PaymentRequired));
      }
      var items := LinesOf(job);
      if |rows| != |items| {
        return Some(Rejected(NotFound));
      }
      QuantitiesExact(items);
      var quantities := Quantities(items);
      var total := Total(rows, quantities);
      if total.None? {
        return Some(Rejected(BadRequest));
      }
      var original := if Form(job).amount < total.value as int then Some(total.value as int) else None;
      var order := NewRow(r, job, shop.payment, rows, original, now);
      var inserted := InsertOrder(id, order, job.admin);
      end := if inserted then Some(Done(())) else None;
    }

    /** The transaction of importHistoricalOrder, with the receipt renamed between check and insert. */
    method ImportOrder(c: Catalog, r: ReqId, job: Job, id: OrderId, rows: seq<Product>, now: Time)
        returns (end: Option<Outcome<()>>)
      requires job.Import? && JobOk(job) && PricesOk(c) && id !in orders
      requires Loaded(c, LinesOf(job), ShopOf(job), rows)
      modifies this
      ensures match ImportTransaction(old(View()), c, r, job, id, rows, now)
              case Declined(reason) => end == Some(Rejected(reason)) && View() == old(View())
              case KeyLost => end == None && View() == old(View())
              case Inserted(after) => end == Some(Done(())) && View() == after
      ensures var shop := job.historical.shopId;
              if (job.admin, shop) !in c.access || shop !in c.shops || !c.shops[shop].active
              then end == Some(Rejected(NotFound))
              else if !c.shops[shop].writable then end == Some(Rejected(PaymentRequired))
              else if !AllOnSale(c, shop, job.historical.items) then end == Some(Rejected(NotFound))
              else if KeyInUse(old(View()), Trim(job.historical.createKey)) then end == None
              else end == Some(Done(())) && id in orders
                   && HoldsImport(orders[id], r, job.historical, job.file.Some?, c, now)
      ensures EventsOk(old(View())) && end == Some(Done(())) ==>
                OneOrderAdded(old(View()), View(), id, job.admin, orders[id].status, Trim(job.historical.createKey))
    {
      ImportDecided(View(), c, r, job, id, rows, now);
      hide AllOnSale, Asked, KeyInUse, HoldsImport, OneOrderAdded, Trim, EventsOk, NewRow, PrintOf, JobOk, PricesOk;
      hide Loaded, Record, ImportForm, LinesOf, KeyOf;
      var shopId := ShopOf(job);
      if shopId !in c.shops || !c.shops[shopId].active || (job.admin, shopId) !in c.access {
        return Some(Rejected(NotFound));
      }
      var shop := c.shops[shopId];
      if !shop.writable {
        return Some(Rejected(PaymentRequired));
      }
      if |rows| != |LinesOf(job)| {
        return Some(Rejected(NotFound));
      }
      var order := NewRow(r, job, shop.payment, rows, None, now);
      var inserted := InsertOrder(id, order, job.admin);
      end := if inserted then Some(Done(())) else None;
    }
  }
}
