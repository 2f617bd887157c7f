/** The order tables (rows, append-only status history, pilot events) and every transaction on
    them, each as a function from the tables before to the tables after or a rejection. */
module Orders {
  import opened Wrappers
  import opened Text
  import opened Customers
  import opened Intake

  // ---------------------------------------------------------------- rows

  type OrderId = nat
  type AdminId = nat
  type ShopId = nat
  type Time = int
  /** A random token: a secret link token or a stored file name, named after the request that drew it. */
  type Token = nat

  datatype Payment = Payment(card: string, iban: string, instructions: string)

  datatype Item = Item(product: nat, quantity: int, unitPrice: int)

  /** The free-text columns updateOrder may rewrite. */
  datatype Remarks = Remarks(deliveryDate: string, channel: string, reference: string, note: string, tracking: string)

  /** An orders row with its items. `origin` is not a column: it names the request that inserted the row. */
  datatype Order = Order(
    createKey: string, fingerprint: Fingerprint, token: Token, shop: ShopId, createdAt: Time,
    amount: int, originalAmount: Option<int>, initialPayment: Option<int>, items: seq<Item>, payment: Payment,
    remarks: Remarks, customer: Details, status: Status,
    submittedAt: Option<Time>, receipt: Option<Token>,
    requestedAt: Option<Time>, finalPayment: Payment, finalReceipt: Option<Token>,
    confirmedAt: Option<Time>, confirmedBy: Option<AdminId>,
    origin: nat)

  datatype Entry = Entry(order: OrderId, previous: Option<Status>, status: Status, admin: Option<AdminId>)

  datatype EventName =
    | OrderCreated | OrderStatusChanged | CustomerSubmitted | TrackingAdded | LinkRotated
    | FinalPaymentRequested | FinalReceiptSubmitted | FinalPaymentConfirmed
    | Telemetry(name: string)

  datatype Event = Event(name: EventName, order: Option<OrderId>, key: Option<string>)

  datatype Db = Db(orders: map<OrderId, Order>, history: seq<Entry>, events: seq<Event>)

  datatype Reject = BadRequest | Forbidden | NotFound | Conflict | PaymentRequired | ServerError

  datatype Outcome<+T> = Done(value: T) | Rejected(reason: Reject)

  const NO_PAYMENT := Payment("", "", "")
  const NO_DETAILS := Details("", "", "", "", "")

  // ---------------------------------------------------------------- history and events

  /** The history of one order, oldest first. */
  function HistoryOf(history: seq<Entry>, id: OrderId): seq<Entry> {
    if history == [] then []
    else
      var last := |history| - 1;
      HistoryOf(history[..last], id) + (if history[last].order == id then [history[last]] else [])
  }

  lemma HistoryAppend(history: seq<Entry>, e: Entry, id: OrderId)
    ensures HistoryOf(history + [e], id) == HistoryOf(history, id) + (if e.order == id then [e] else [])
  {
    assert (history + [e])[..|history|] == history;
  }

  function CountEvents(events: seq<Event>, name: EventName, id: OrderId): nat {
    if events == [] then 0
    else
      var last := |events| - 1;
      CountEvents(events[..last], name, id)
          + (if events[last].name == name && events[last].order == Some(id) then 1 else 0)
  }

  lemma CountAppend(events: seq<Event>, e: Event, name: EventName, id: OrderId)
    ensures CountEvents(events + [e], name, id)
            == CountEvents(events, name, id) + (if e.name == name && e.order == Some(id) then 1 else 0)
  {
    assert (events + [e])[..|events|] == events;
  }

  /** recordPilotEvent: the partial unique index on (name, key) makes a keyed repeat a no-op. */
  function Record(events: seq<Event>, e: Event): seq<Event> {
    if e.key.Some? && exists i :: 0 <= i < |events| && events[i].name == e.name && events[i].key == e.key
    then events
    else events + [e]
  }

  function Notice(name: EventName, id: OrderId): Event {
    Event(name, Some(id), None)
  }

  // ---------------------------------------------------------------- creation

  /** Insert of a new row with its first history entry and its creation event. */
  function Insert(db: Db, id: OrderId, o: Order, admin: AdminId): Db {
    Db(db.orders[id := o],
       db.history + [Entry(id, None, o.status, Some(admin))],
       Record(db.events, Event(OrderCreated, Some(id), Some(o.createKey))))
  }

  predicate KeyTaken(db: Db, key: string) {
    exists id :: id in db.orders && db.orders[id].createKey == key
  }

  /** ON CONFLICT (create_key) DO NOTHING: None when the key is taken and nothing was written. */
  function TryInsert(db: Db, id: OrderId, o: Order, admin: AdminId): Option<Db> {
    if KeyTaken(db, o.createKey) then None else Some(Insert(db, id, o, admin))
  }

  // ---------------------------------------------------------------- customer submission

  function CheckSubmit(db: Db, id: OrderId, token: Token): Outcome<()> {
    if id !in db.orders || db.orders[id].token != token then Rejected(NotFound)
    else if db.orders[id].submittedAt.Some? || db.orders[id].status != WaitingInfo then Rejected(Conflict)
    else Done(())
  }

  function Submit(db: Db, id: OrderId, details: Details, receipt: Token, now: Time): Db
    requires id in db.orders
  {
    var o := db.orders[id];
    var row := o.(customer := details, submittedAt := Some(now), status := WaitingPayment, receipt := Some(receipt));
    Db(db.orders[id := row],
       db.history + [Entry(id, Some(o.status), WaitingPayment, None)],
       Record(Record(db.events, Notice(CustomerSubmitted, id)), Notice(OrderStatusChanged, id)))
  }

  // ---------------------------------------------------------------- updateOrder

  /** The request body after trimming and length checks; the customer fields are still raw. */
  datatype Patch = Patch(
    deliveryDate: Option<string>, status: Option<Status>, fullName: Option<string>, mobile: Option<string>,
    address: Option<string>, postalCode: Option<string>, customerNote: Option<string>, tracking: Option<string>,
    channel: Option<string>, reference: Option<string>, internalNote: Option<string>)

  predicate PatchesCustomer(p: Patch) {
    p.fullName.Some? || p.mobile.Some? || p.address.Some? || p.postalCode.Some? || p.customerNote.Some?
  }

  function MergeDetails(d: Details, p: Patch): Details {
    Details(if p.fullName.Some? then Trim(p.fullName.value) else d.fullName,
            if p.mobile.Some? then NormalizeMobile(p.mobile.value) else d.mobile,
            if p.address.Some? then Trim(p.address.value) else d.address,
            if p.postalCode.Some? then NormalizeDigits(p.postalCode.value) else d.postalCode,
            if p.customerNote.Some? then Trim(p.customerNote.value) else d.note)
  }

  function MergeRemarks(r: Remarks, p: Patch): Remarks {
    Remarks(p.deliveryDate.GetOr(r.deliveryDate), p.channel.GetOr(r.channel), p.reference.GetOr(r.reference),
            p.internalNote.GetOr(r.note), p.tracking.GetOr(r.tracking))
  }

  /** The updateOrder transaction; allowed says whether the admin has access to the order's shop. */
  function Update(db: Db, admin: AdminId, allowed: bool, id: OrderId, p: Patch): Outcome<Db> {
    if id !in db.orders || !allowed then Rejected(NotFound)
    else
      var o := db.orders[id];
      var details := MergeDetails(o.customer, p);
      var statusChanged := p.status.Some? && p.status.value != o.status;
      if PatchesCustomer(p) && o.submittedAt.None? then Rejected(Conflict)
      else if PatchesCustomer(p) && !ValidDetails(details) then Rejected(BadRequest)
      else if statusChanged && p.status.value == WaitingInfo && o.submittedAt.Some? then Rejected(Conflict)
      else if statusChanged && p.status.value == WaitingPayment && o.receipt.None? then Rejected(Conflict)
      else
        var status := p.status.GetOr(o.status);
        var row := o.(remarks := MergeRemarks(o.remarks, p), status := status,
                      customer := if PatchesCustomer(p) then details else o.customer);
        var entry := Entry(id, Some(o.status), status, Some(admin));
        var history := if statusChanged then db.history + [entry] else db.history;
        var events := if statusChanged then Record(db.events, Notice(OrderStatusChanged, id)) else db.events;
        var trackingAdded := p.tracking.Some? && o.remarks.tracking == "" && p.tracking.value != "";
        var noticed := if trackingAdded then Record(events, Notice(TrackingAdded, id)) else events;
        Done(Db(db.orders[id := row], history, noticed))
  }

  // ---------------------------------------------------------------- the final payment

  predicate PaidSeen(history: seq<Entry>, id: OrderId) {
    exists i :: 0 <= i < |history| && history[i].order == id && history[i].status == Paid
  }

  function RequestFinal(db: Db, allowed: bool, id: OrderId, payment: Payment, now: Time): Outcome<Db> {
    if id !in db.orders || !allowed then Rejected(NotFound)
    else
      var o := db.orders[id];
      if o.initialPayment.None? then Rejected(Conflict)
      else if o.requestedAt.Some? then Done(db)
      else if o.submittedAt.None? || o.receipt.None? then Rejected(Conflict)
      else if o.status != Paid && o.status != Preparing && o.status != Shipped then Rejected(Conflict)
      else if !PaidSeen(db.history, id) then Rejected(Conflict)
      else Done(db.(orders := db.orders[id := o.(requestedAt := Some(now), finalPayment := payment)],
                    events := Record(db.events, Notice(FinalPaymentRequested, id))))
  }

  function CheckFinal(db: Db, id: OrderId, token: Token): Outcome<()> {
    if id !in db.orders || db.orders[id].token != token then Rejected(NotFound)
    else
      var o := db.orders[id];
      if o.initialPayment.None? || o.requestedAt.None? || o.status == Cancelled then Rejected(Conflict)
      else if o.finalReceipt.Some? || o.confirmedAt.Some? then Rejected(Conflict)
      else Done(())
  }

  function SubmitFinal(db: Db, id: OrderId, receipt: Token): Db
    requires id in db.orders
  {
    db.(orders := db.orders[id := db.orders[id].(finalReceipt := Some(receipt))],
        events := Record(db.events, Notice(FinalReceiptSubmitted, id)))
  }

  function ConfirmFinal(db: Db, admin: AdminId, allowed: bool, id: OrderId, now: Time): Outcome<Db> {
    if id !in db.orders || !allowed then Rejected(NotFound)
    else
      var o := db.orders[id];
      if o.confirmedAt.Some? then Done(db)
      else if o.initialPayment.None? || o.requestedAt.None? || o.finalReceipt.None? || o.status == Cancelled
      then Rejected(Conflict)
      else Done(db.(orders := db.orders[id := o.(confirmedAt := Some(now), confirmedBy := Some(admin))],
                    events := Record(db.events, Notice(FinalPaymentConfirmed, id))))
  }

  function Rotate(db: Db, allowed: bool, id: OrderId, token: Token): Outcome<Db> {
    if id !in db.orders || !allowed then Rejected(NotFound)
    else Done(db.(orders := db.orders[id := db.orders[id].(token := token)],
                  events := Record(db.events, Notice(LinkRotated, id))))
  }

  // ---------------------------------------------------------------- the stale sweep

  predicate Stale(o: Order, cutoff: Time) {
    o.status == WaitingInfo && o.createdAt <= cutoff
  }

  function StaleIds(db: Db, cutoff: Time): set<OrderId> {
    set id | id in db.orders && Stale(db.orders[id], cutoff)
  }

  function CancelOne(db: Db, id: OrderId): Db
    requires id in db.orders
  {
    Db(db.orders[id := db.orders[id].(status := Cancelled)],
       db.history + [Entry(id, Some(WaitingInfo), Cancelled, None)],
       Record(db.events, Notice(OrderStatusChanged, id)))
  }

  /** The conditional updates of one sweep, in order: a row that no longer matches is skipped. */
  function CancelAll(db: Db, ids: seq<OrderId>, cutoff: Time): Db {
    if ids == [] then db
    else
      var before := CancelAll(db, ids[..|ids| - 1], cutoff);
      var id := ids[|ids| - 1];
      if id in before.orders && Stale(before.orders[id], cutoff) then CancelOne(before, id) else before
  }

  // ---------------------------------------------------------------- what every state satisfies

  /** Entries chain: the first has no previous status, each later one continues its predecessor. */
  predicate IsPath(path: seq<Entry>) {
    && path != []
    && path[0].previous == None
    && (forall i :: 0 < i < |path| ==>
          path[i].previous == Some(path[i - 1].status) && path[i].status != path[i - 1].status)
  }

  /** The order's history is a path that ends in the row's status. */
  predicate PathOk(history: seq<Entry>, id: OrderId, status: Status) {
    var path := HistoryOf(history, id);
    IsPath(path) && path[|path| - 1].status == status
  }

  ghost predicate HistoryOk(db: Db) {
    && (forall i :: 0 <= i < |db.history| ==> db.history[i].order in db.orders)
    && (forall id :: id in db.orders ==> PathOk(db.history, id, db.orders[id].status))
  }

  /** The two events the ledger itself depends on; all others are telemetry. */
  predicate Structural(name: EventName) {
    name == OrderCreated || name == OrderStatusChanged
  }

  predicate EventOk(db: Db, e: Event) {
    Structural(e.name) ==>
      && e.order.Some? && e.order.value in db.orders
      && (e.name == OrderCreated ==> e.key == Some(db.orders[e.order.value].createKey))
  }

  /** One creation event, and one status event per history entry after the first. */
  predicate CountsOk(db: Db, id: OrderId) {
    && CountEvents(db.events, OrderCreated, id) == 1
    && CountEvents(db.events, OrderStatusChanged, id) + 1 == |HistoryOf(db.history, id)|
  }

  ghost predicate EventsOk(db: Db) {
    && (forall i :: 0 <= i < |db.events| ==> EventOk(db, db.events[i]))
    && (forall id :: id in db.orders ==> CountsOk(db, id))
  }

  ghost predicate KeysOk(db: Db) {
    forall a, b :: a in db.orders && b in db.orders && db.orders[a].createKey == db.orders[b].createKey ==> a == b
  }

  function ItemsTotal(items: seq<Item>): int {
    if items == [] then 0
    else
      var last := items[|items| - 1];
      ItemsTotal(items[..|items| - 1]) + last.unitPrice * last.quantity
  }

  /** Money columns as the table's constraints demand them; a struck-through price is the exact
      total of the order's own items. */
  predicate AmountsOk(o: Order) {
    && o.amount > 0
    && (o.initialPayment.Some? ==> 0 < o.initialPayment.value < o.amount)
    && (o.originalAmount.Some? ==> o.originalAmount.value > o.amount && o.originalAmount.value == ItemsTotal(o.items))
  }

  /** The evidence ladder of one row. */
  predicate LadderOk(o: Order) {
    && (o.status == WaitingInfo ==> o.submittedAt.None?)
    && (o.status == WaitingPayment ==> o.receipt.Some?)
    && (o.receipt.Some? ==> o.submittedAt.Some?)
    && (o.submittedAt.Some? ==> ValidDetails(o.customer))
    && (o.requestedAt.Some? ==> o.initialPayment.Some? && o.submittedAt.Some? && o.receipt.Some?)
    && (o.finalReceipt.Some? ==> o.requestedAt.Some?)
    && (o.confirmedAt.Some? ==> o.finalReceipt.Some?)
    && (o.confirmedAt.Some? <==> o.confirmedBy.Some?)
  }

  ghost predicate RowOk(o: Order, history: seq<Entry>, id: OrderId) {
    AmountsOk(o) && LadderOk(o) && (o.requestedAt.Some? ==> PaidSeen(history, id))
  }

  ghost predicate RowsOk(db: Db) {
    forall id :: id in db.orders ==> RowOk(db.orders[id], db.history, id)
  }

  ghost predicate DbOk(db: Db) {
    HistoryOk(db) && EventsOk(db) && KeysOk(db) && RowsOk(db)
  }

  // ---------------------------------------------------------------- what no step undoes

  predicate Kept<T(==)>(before: Option<T>, after: Option<T>) {
    before.Some? ==> after == before
  }

  /** Columns that never change, and milestones that are written once. */
  predicate RowEvolves(o: Order, p: Order) {
    && p.createKey == o.createKey && p.fingerprint == o.fingerprint && p.shop == o.shop && p.createdAt == o.createdAt
    && p.amount == o.amount && p.originalAmount == o.originalAmount && p.initialPayment == o.initialPayment
    && p.items == o.items && p.payment == o.payment && p.origin == o.origin
    && Kept(o.submittedAt, p.submittedAt) && Kept(o.receipt, p.receipt)
    && Kept(o.requestedAt, p.requestedAt) && (o.requestedAt.Some? ==> p.finalPayment == o.finalPayment)
    && Kept(o.finalReceipt, p.finalReceipt)
    && Kept(o.confirmedAt, p.confirmedAt) && Kept(o.confirmedBy, p.confirmedBy)
  }

  ghost predicate DbEvolves(before: Db, after: Db) {
    && (forall id :: id in before.orders ==> id in after.orders && RowEvolves(before.orders[id], after.orders[id]))
    && before.history <= after.history
    && before.events <= after.events
  }

  lemma EvolvesTransitive(a: Db, b: Db, c: Db)
    requires DbEvolves(a, b) && DbEvolves(b, c)
    ensures DbEvolves(a, c)
  {
    forall id | id in a.orders ensures id in c.orders && RowEvolves(a.orders[id], c.orders[id]) {
      assert RowEvolves(a.orders[id], b.orders[id]) && RowEvolves(b.orders[id], c.orders[id]);
    }
    assert a.history == b.history[..|a.history|] == c.history[..|b.history|][..|a.history|];
    assert a.events == b.events[..|a.events|] == c.events[..|b.events|][..|a.events|];
  }

  // ---------------------------------------------------------------- proofs: insertion

  lemma {:induction false} HistoryOfStranger(history: seq<Entry>, id: OrderId)
    requires forall i :: 0 <= i < |history| ==> history[i].order != id
    ensures HistoryOf(history, id) == []
  {
    if history != [] {
      HistoryOfStranger(history[..|history| - 1], id);
    }
  }

  lemma {:induction false} EventsOfStranger(events: seq<Event>, name: EventName, id: OrderId)
    requires forall i :: 0 <= i < |events| && events[i].name == name ==> events[i].order != Some(id)
    ensures CountEvents(events, name, id) == 0
  {
    if events != [] {
      EventsOfStranger(events[..|events| - 1], name, id);
    }
  }

  lemma PaidStays(history: seq<Entry>, more: seq<Entry>, id: OrderId)
    requires PaidSeen(history, id) && history <= more
    ensures PaidSeen(more, id)
  {
    var i :| 0 <= i < |history| && history[i].order == id && history[i].status == Paid;
    assert more[i] == history[i];
  }

  /** A creation event is never swallowed by the unique index, since the key is new. */
  lemma CreationRecorded(db: Db, id: OrderId, o: Order)
    requires EventsOk(db) && !KeyTaken(db, o.createKey)
    ensures var e := Event(OrderCreated, Some(id), Some(o.createKey));
            Record(db.events, e) == db.events + [e]
  {
    forall i | 0 <= i < |db.events| && db.events[i].name == OrderCreated
      ensures db.events[i].key != Some(o.createKey)
    {
      assert EventOk(db, db.events[i]);
    }
  }

  /** A row as either creation path builds it. */
  predicate Fresh(o: Order) {
    && AmountsOk(o) && LadderOk(o)
    && o.requestedAt.None? && o.finalReceipt.None? && o.confirmedAt.None? && o.confirmedBy.None?
  }

  lemma InsertedHistory(db: Db, id: OrderId, o: Order, admin: AdminId, x: OrderId)
    requires HistoryOk(db) && id !in db.orders && x in Insert(db, id, o, admin).orders
    ensures HistoryOf(Insert(db, id, o, admin).history, x)
            == if x == id then [Entry(id, None, o.status, Some(admin))] else HistoryOf(db.history, x)
  {
    HistoryAppend(db.history, Entry(id, None, o.status, Some(admin)), x);
    if x == id {
      HistoryOfStranger(db.history, id);
    }
  }

  lemma InsertKeepsHistory(db: Db, id: OrderId, o: Order, admin: AdminId)
    requires HistoryOk(db) && id !in db.orders
    ensures HistoryOk(Insert(db, id, o, admin))
  {
    var after := Insert(db, id, o, admin);
    forall x | x in after.orders ensures PathOk(after.history, x, after.orders[x].status) {
      InsertedHistory(db, id, o, admin, x);
      assert x != id ==> PathOk(db.history, x, db.orders[x].status);
    }
  }

  lemma InsertedCounts(db: Db, id: OrderId, o: Order, admin: AdminId, x: OrderId)
    requires HistoryOk(db) && EventsOk(db) && id !in db.orders && !KeyTaken(db, o.createKey)
    requires x in Insert(db, id, o, admin).orders
    ensures CountsOk(Insert(db, id, o, admin), x)
  {
    var e := Event(OrderCreated, Some(id), Some(o.createKey));
    CreationRecorded(db, id, o);
    InsertedHistory(db, id, o, admin, x);
    CountAppend(db.events, e, OrderCreated, x);
    CountAppend(db.events, e, OrderStatusChanged, x);
    if x == id {
      forall i | 0 <= i < |db.events| && Structural(db.events[i].name) ensures db.events[i].order != Some(id) {
        assert EventOk(db, db.events[i]);
      }
      EventsOfStranger(db.events, OrderCreated, id);
      EventsOfStranger(db.events, OrderStatusChanged, id);
    } else {
      assert CountsOk(db, x);
    }
  }

  lemma InsertKeepsEvents(db: Db, id: OrderId, o: Order, admin: AdminId)
    requires HistoryOk(db) && EventsOk(db) && id !in db.orders && !KeyTaken(db, o.createKey)
    ensures EventsOk(Insert(db, id, o, admin))
  {
    var after := Insert(db, id, o, admin);
    CreationRecorded(db, id, o);
    forall i | 0 <= i < |after.events| ensures EventOk(after, after.events[i]) {
      assert i < |db.events| ==> EventOk(db, db.events[i]);
    }
    forall x | x in after.orders ensures CountsOk(after, x) {
      InsertedCounts(db, id, o, admin, x);
    }
  }

  lemma RowStays(o: Order, history: seq<Entry>, more: seq<Entry>, id: OrderId)
    requires RowOk(o, history, id) && history <= more
    ensures RowOk(o, more, id)
  {
    if o.requestedAt.Some? {
      PaidStays(history, more, id);
    }
  }

  lemma InsertKeepsRows(db: Db, id: OrderId, o: Order, admin: AdminId)
    requires RowsOk(db) && id !in db.orders && Fresh(o)
    ensures RowsOk(Insert(db, id, o, admin))
  {
    var after := Insert(db, id, o, admin);
    forall x | x in after.orders ensures RowOk(after.orders[x], after.history, x) {
      if x != id {
        RowStays(db.orders[x], db.history, after.history, x);
      }
    }
  }

  lemma InsertKeepsKeys(db: Db, id: OrderId, o: Order, admin: AdminId)
    requires KeysOk(db) && id !in db.orders && !KeyTaken(db, o.createKey)
    ensures KeysOk(Insert(db, id, o, admin))
  {
  }

  /** Inserting a fresh row under a new key keeps every table invariant. */
  lemma InsertKeeps(db: Db, id: OrderId, o: Order, admin: AdminId)
    requires DbOk(db) && id !in db.orders && !KeyTaken(db, o.createKey) && Fresh(o)
    ensures DbOk(Insert(db, id, o, admin)) && DbEvolves(db, Insert(db, id, o, admin))
  {
    InsertKeepsHistory(db, id, o, admin);
    InsertKeepsEvents(db, id, o, admin);
    InsertKeepsRows(db, id, o, admin);
    InsertKeepsKeys(db, id, o, admin);
    CreationRecorded(db, id, o);
    var after := Insert(db, id, o, admin);
    forall x | x in db.orders ensures x in after.orders && RowEvolves(db.orders[x], after.orders[x]) {
      assert after.orders[x] == db.orders[x];
    }
  }

  // ---------------------------------------------------------------- proofs: row updates

  /** The history of an update: one continuing entry exactly when the status moves. */
  ghost predicate HistoryStep(before: seq<Entry>, after: seq<Entry>, id: OrderId, from: Status, to: Status) {
    if from == to then after == before
    else exists who :: after == before + [Entry(id, Some(from), to, who)]
  }

  /** The events of an update: `changed`, and possibly one telemetry event before or after it. */
  ghost predicate EventsStep(before: seq<Event>, after: seq<Event>, changed: seq<Event>) {
    || after == before + changed
    || (exists e: Event :: !Structural(e.name) && (after == before + [e] + changed || after == before + changed + [e]))
  }

  function Changed(id: OrderId, from: Status, to: Status): seq<Event> {
    if from == to then [] else [Notice(OrderStatusChanged, id)]
  }

  /** The shape of every later transaction: one row rewritten, a history entry and a status event
      exactly when the status moves, and possibly one unrelated event. */
  ghost predicate RowUpdate(db: Db, after: Db, id: OrderId, row: Order) {
    && id in db.orders && after.orders == db.orders[id := row]
    && RowEvolves(db.orders[id], row)
    && HistoryStep(db.history, after.history, id, db.orders[id].status, row.status)
    && EventsStep(db.events, after.events, Changed(id, db.orders[id].status, row.status))
  }

  lemma StepPath(before: seq<Entry>, after: seq<Entry>, id: OrderId, from: Status, to: Status, x: OrderId,
      status: Status)
    requires HistoryStep(before, after, id, from, to) && PathOk(before, x, status)
    requires x == id ==> status == from
    ensures PathOk(after, x, if x == id then to else status)
    ensures |HistoryOf(after, x)| == |HistoryOf(before, x)| + (if x == id && from != to then 1 else 0)
    ensures before <= after
  {
    if from != to {
      var who :| after == before + [Entry(id, Some(from), to, who)];
      HistoryAppend(before, Entry(id, Some(from), to, who), x);
    }
  }

  lemma StepCounts(before: seq<Event>, after: seq<Event>, id: OrderId, from: Status, to: Status, x: OrderId)
    requires EventsStep(before, after, Changed(id, from, to))
    ensures CountEvents(after, OrderCreated, x) == CountEvents(before, OrderCreated, x)
    ensures CountEvents(after, OrderStatusChanged, x)
            == CountEvents(before, OrderStatusChanged, x) + (if x == id && from != to then 1 else 0)
  {
    var n := Notice(OrderStatusChanged, id);
    CountBoth(before, n, x);
    if from == to {
      if after != before {
        var e: Event :| !Structural(e.name) && after == before + [e];
        CountBoth(before, e, x);
      }
    } else if after != before + [n] {
      var e: Event :| !Structural(e.name) && (after == before + [e] + [n] || after == before + [n] + [e]);
      CountBoth(before, e, x);
      CountBoth(before + [e], n, x);
      CountBoth(before + [n], e, x);
    }
  }

  lemma CountBoth(events: seq<Event>, e: Event, x: OrderId)
    ensures CountEvents(events + [e], OrderCreated, x)
            == CountEvents(events, OrderCreated, x) + (if e.name == OrderCreated && e.order == Some(x) then 1 else 0)
    ensures CountEvents(events + [e], OrderStatusChanged, x)
            == CountEvents(events, OrderStatusChanged, x)
                + (if e.name == OrderStatusChanged && e.order == Some(x) then 1 else 0)
  {
    CountAppend(events, e, OrderCreated, x);
    CountAppend(events, e, OrderStatusChanged, x);
  }

  lemma StepEvents(before: seq<Event>, after: seq<Event>, id: OrderId, from: Status, to: Status, i: nat)
    requires EventsStep(before, after, Changed(id, from, to)) && i < |after|
    ensures before <= after
    ensures i < |before| ==> after[i] == before[i]
    ensures i >= |before| ==> after[i] == Notice(OrderStatusChanged, id) || !Structural(after[i].name)
  {
  }

  lemma RowUpdateKeepsHistory(db: Db, after: Db, id: OrderId, row: Order)
    requires HistoryOk(db) && RowUpdate(db, after, id, row)
    ensures HistoryOk(after)
  {
    forall x | x in after.orders ensures PathOk(after.history, x, after.orders[x].status) {
      StepPath(db.history, after.history, id, db.orders[id].status, row.status, x, db.orders[x].status);
    }
  }

  lemma RowUpdateKeepsEvents(db: Db, after: Db, id: OrderId, row: Order)
    requires HistoryOk(db) && EventsOk(db) && RowUpdate(db, after, id, row)
    ensures EventsOk(after)
  {
    var from := db.orders[id].status;
    forall i | 0 <= i < |after.events| ensures EventOk(after, after.events[i]) {
      StepEvents(db.events, after.events, id, from, row.status, i);
      assert i < |db.events| ==> EventOk(db, db.events[i]);
    }
    forall x | x in after.orders ensures CountsOk(after, x) {
      assert CountsOk(db, x) && PathOk(db.history, x, db.orders[x].status);
      StepCounts(db.events, after.events, id, from, row.status, x);
      StepPath(db.history, after.history, id, from, row.status, x, db.orders[x].status);
    }
  }

  lemma RowUpdateKeepsRows(db: Db, after: Db, id: OrderId, row: Order)
    requires RowsOk(db) && RowUpdate(db, after, id, row) && db.history <= after.history
    requires LadderOk(row) && (row.requestedAt.Some? ==> PaidSeen(db.history, id))
    ensures RowsOk(after)
  {
    assert RowOk(db.orders[id], db.history, id);
    assert AmountsOk(row);
    forall x | x in after.orders ensures RowOk(after.orders[x], after.history, x) {
      if x == id {
        RowStays(row, db.history, after.history, x);
      } else {
        RowStays(db.orders[x], db.history, after.history, x);
      }
    }
  }

  lemma RowUpdateKeepsKeys(db: Db, after: Db, id: OrderId, row: Order)
    requires KeysOk(db) && id in db.orders && after.orders == db.orders[id := row]
             && row.createKey == db.orders[id].createKey
    ensures KeysOk(after)
  {
    forall a, b | a in after.orders && b in after.orders && after.orders[a].createKey == after.orders[b].createKey
      ensures a == b
    {
      assert db.orders[a].createKey == db.orders[b].createKey;
    }
  }

  lemma RowUpdateEvolves(db: Db, after: Db, id: OrderId, row: Order)
    requires RowUpdate(db, after, id, row) && db.history <= after.history
    ensures DbEvolves(db, after)
  {
    assert db.events <= after.events;
    forall x | x in db.orders ensures x in after.orders && RowEvolves(db.orders[x], after.orders[x]) {
      assert x != id ==> after.orders[x] == db.orders[x];
    }
  }

  /** One row update keeps every table invariant, given the ladder holds of the new row. */
  lemma RowUpdateKeeps(db: Db, after: Db, id: OrderId, row: Order)
    requires DbOk(db) && RowUpdate(db, after, id, row)
    requires LadderOk(row) && (row.requestedAt.Some? ==> PaidSeen(db.history, id))
    ensures DbOk(after) && DbEvolves(db, after)
  {
    RowUpdateKeepsHistory(db, after, id, row);
    RowUpdateKeepsEvents(db, after, id, row);
    assert PathOk(db.history, id, db.orders[id].status);
    StepPath(db.history, after.history, id, db.orders[id].status, row.status, id, db.orders[id].status);
    RowUpdateKeepsRows(db, after, id, row);
    RowUpdateKeepsKeys(db, after, id, row);
    RowUpdateEvolves(db, after, id, row);
  }

  lemma SubmitKeeps(db: Db, id: OrderId, details: Details, receipt: Token, now: Time)
    requires id in db.orders && db.orders[id].submittedAt.None? && db.orders[id].status == WaitingInfo
    requires DbOk(db) && ValidDetails(details)
    ensures DbOk(Submit(db, id, details, receipt, now)) && DbEvolves(db, Submit(db, id, details, receipt, now))
  {
    hide AmountsOk, HistoryOk, EventsOk, KeysOk;
    var after := Submit(db, id, details, receipt, now);
    assert RowOk(db.orders[id], db.history, id);
    assert after.events == db.events + [Notice(CustomerSubmitted, id)] + [Notice(OrderStatusChanged, id)];
    RowUpdateKeeps(db, after, id, after.orders[id]);
  }

  lemma UpdateKeeps(db: Db, admin: AdminId, allowed: bool, id: OrderId, p: Patch)
    requires DbOk(db) && Update(db, admin, allowed, id, p).Done?
    ensures var after := Update(db, admin, allowed, id, p).value; DbOk(after) && DbEvolves(db, after)
  {
    hide AmountsOk, HistoryOk, EventsOk, KeysOk;
    var after := Update(db, admin, allowed, id, p).value;
    var o, row := db.orders[id], after.orders[id];
    assert RowOk(o, db.history, id) && LadderOk(row);
    var changed := if row.status == o.status then [] else [Notice(OrderStatusChanged, id)];
    assert after.events == db.events + changed || after.events == db.events + changed + [Notice(TrackingAdded, id)];
    if row.status != o.status {
      assert after.history == db.history + [Entry(id, Some(o.status), row.status, Some(admin))];
    }
    RowUpdateKeeps(db, after, id, row);
  }

  lemma RequestFinalKeeps(db: Db, allowed: bool, id: OrderId, payment: Payment, now: Time)
    requires DbOk(db) && RequestFinal(db, allowed, id, payment, now).Done?
    ensures var after := RequestFinal(db, allowed, id, payment, now).value; DbOk(after) && DbEvolves(db, after)
  {
    hide AmountsOk, HistoryOk, EventsOk, KeysOk;
    var after := RequestFinal(db, allowed, id, payment, now).value;
    assert RowOk(db.orders[id], db.history, id);
    if after != db {
      assert after.events == db.events + [Notice(FinalPaymentRequested, id)] + [];
      RowUpdateKeeps(db, after, id, after.orders[id]);
    }
  }

  lemma SubmitFinalKeeps(db: Db, id: OrderId, receipt: Token)
    requires id in db.orders && db.orders[id].requestedAt.Some? && db.orders[id].finalReceipt.None?
    requires DbOk(db)
    ensures DbOk(SubmitFinal(db, id, receipt)) && DbEvolves(db, SubmitFinal(db, id, receipt))
  {
    hide AmountsOk, HistoryOk, EventsOk, KeysOk;
    var after := SubmitFinal(db, id, receipt);
    assert RowOk(db.orders[id], db.history, id);
    assert after.events == db.events + [Notice(FinalReceiptSubmitted, id)] + [];
    RowUpdateKeeps(db, after, id, after.orders[id]);
  }

  lemma ConfirmFinalKeeps(db: Db, admin: AdminId, allowed: bool, id: OrderId, now: Time)
    requires DbOk(db) && ConfirmFinal(db, admin, allowed, id, now).Done?
    ensures var after := ConfirmFinal(db, admin, allowed, id, now).value; DbOk(after) && DbEvolves(db, after)
  {
    hide AmountsOk, HistoryOk, EventsOk, KeysOk;
    var after := ConfirmFinal(db, admin, allowed, id, now).value;
    assert RowOk(db.orders[id], db.history, id);
    if after != db {
      assert after.events == db.events + [Notice(FinalPaymentConfirmed, id)] + [];
      RowUpdateKeeps(db, after, id, after.orders[id]);
    }
  }

  lemma RotateKeeps(db: Db, allowed: bool, id: OrderId, token: Token)
    requires DbOk(db) && Rotate(db, allowed, id, token).Done?
    ensures var after := Rotate(db, allowed, id, token).value; DbOk(after) && DbEvolves(db, after)
  {
    hide AmountsOk, HistoryOk, EventsOk, KeysOk;
    var after := Rotate(db, allowed, id, token).value;
    assert RowOk(db.orders[id], db.history, id);
    assert after.events == db.events + [Notice(LinkRotated, id)] + [];
    RowUpdateKeeps(db, after, id, after.orders[id]);
  }

  lemma CancelOneKeeps(db: Db, id: OrderId)
    requires DbOk(db) && id in db.orders && db.orders[id].status == WaitingInfo
    ensures DbOk(CancelOne(db, id)) && DbEvolves(db, CancelOne(db, id))
  {
    hide AmountsOk, HistoryOk, EventsOk, KeysOk;
    var after := CancelOne(db, id);
    assert RowOk(db.orders[id], db.history, id);
    assert after.history == db.history + [Entry(id, Some(db.orders[id].status), Cancelled, None)];
    assert after.events == db.events + [Notice(OrderStatusChanged, id)];
    RowUpdateKeeps(db, after, id, after.orders[id]);
  }

  lemma {:induction false} CancelAllKeeps(db: Db, ids: seq<OrderId>, cutoff: Time)
    requires DbOk(db)
    ensures DbOk(CancelAll(db, ids, cutoff)) && DbEvolves(db, CancelAll(db, ids, cutoff))
  {
    if ids != [] {
      var before := CancelAll(db, ids[..|ids| - 1], cutoff);
      var id := ids[|ids| - 1];
      CancelAllKeeps(db, ids[..|ids| - 1], cutoff);
      if id in before.orders && Stale(before.orders[id], cutoff) {
        CancelOneKeeps(before, id);
        EvolvesTransitive(db, before, CancelOne(before, id));
      }
    }
  }

  /** Telemetry is appended or dropped, and touches nothing the invariants speak of. */
  lemma TelemetryKeeps(db: Db, e: Event)
    requires DbOk(db) && !Structural(e.name)
    ensures DbOk(db.(events := Record(db.events, e))) && DbEvolves(db, db.(events := Record(db.events, e)))
  {
    var after := db.(events := Record(db.events, e));
    if after.events != db.events {
      forall x | x in db.orders ensures CountsOk(after, x) {
        assert CountsOk(db, x);
        CountBoth(db.events, e, x);
      }
      forall i | 0 <= i < |after.events| ensures EventOk(after, after.events[i]) {
        assert i < |db.events| ==> EventOk(db, db.events[i]);
      }
    }
  }
}
