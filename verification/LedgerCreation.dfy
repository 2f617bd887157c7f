/** Who may create or import an order, what it is refused for, and what the new row holds: said from
    the request as it was sent and the catalog of the moment. */
module LedgerCreation {
  import opened Wrappers
  import opened Text
  import opened Pricing
  import opened Customers
  import opened Intake
  import opened Orders
  import opened Ledger
  import opened LedgerSafety

  // ---------------------------------------------------------------- the items asked for

  predicate OnSale(c: Catalog, shop: ShopId, p: nat) {
    p in c.products && c.products[p].shop == shop && c.products[p].active
  }

  predicate AllOnSale(c: Catalog, shop: ShopId, lines: seq<Line>) {
    forall i :: 0 <= i < |lines| ==> OnSale(c, shop, lines[i].product)
  }

  /** One item per line of the request, at the catalog's price. */
  function Asked(c: Catalog, lines: seq<Line>): seq<Item> {
    seq(|lines|, i requires 0 <= i < |lines| =>
      Item(lines[i].product, lines[i].quantity,
           if lines[i].product in c.products then c.products[lines[i].product].price else 0))
  }

  predicate OncePerProduct(items: seq<Item>) {
    forall i, j :: 0 <= i < j < |items| ==> items[i].product != items[j].product
  }

  lemma {:induction false} CountOnce(items: seq<Item>, x: Item)
    requires OncePerProduct(items)
    ensures multiset(items)[x] == if x in items then 1 else 0
  {
    if items != [] {
      var last := |items| - 1;
      CountOnce(items[..last], x);
      assert items == items[..last] + [items[last]];
    }
  }

  lemma SameItems(a: seq<Item>, b: seq<Item>)
    requires OncePerProduct(a) && OncePerProduct(b) && forall x :: x in a <==> x in b
    ensures multiset(a) == multiset(b)
  {
    forall x ensures multiset(a)[x] == multiset(b)[x] {
      CountOnce(a, x);
      CountOnce(b, x);
    }
  }

  lemma {:induction false} TotalWithout(items: seq<Item>, k: nat)
    requires k < |items|
    ensures ItemsTotal(items)
            == ItemsTotal(items[..k] + items[k + 1..]) + items[k].unitPrice * items[k].quantity
    decreases |items|
  {
    var last := |items| - 1;
    var rest := items[..k] + items[k + 1..];
    if k == last {
      assert rest == items[..last];
    } else {
      TotalWithout(items[..last], k);
      assert rest[..|rest| - 1] == items[..last][..k] + items[..last][k + 1..];
    }
  }

  lemma WithoutItem(items: seq<Item>, k: nat)
    requires k < |items|
    ensures multiset(items[..k] + items[k + 1..]) == multiset(items) - multiset{items[k]}
  {
    assert items == items[..k] + ([items[k]] + items[k + 1..]);
  }

  lemma {:induction false} TotalIsOfTheMultiset(a: seq<Item>, b: seq<Item>)
    requires multiset(a) == multiset(b)
    ensures ItemsTotal(a) == ItemsTotal(b)
    decreases |a|
  {
    assert |a| == |multiset(a)| == |multiset(b)| == |b|;
    if a != [] {
      var last := |a| - 1;
      assert a[last] in multiset(b);
      var k :| 0 <= k < |b| && b[k] == a[last];
      WithoutItem(a, last);
      assert a[..last] + a[last + 1..] == a[..last];
      WithoutItem(b, k);
      TotalWithout(b, k);
      TotalIsOfTheMultiset(a[..last], b[..k] + b[k + 1..]);
    }
  }

  lemma LineOfProduct(lines: seq<Line>, p: nat) returns (i: nat)
    requires p in Products(lines)
    ensures i < |lines| && lines[i].product == p
  {
    i :| 0 <= i < |lines| && lines[i].product == p;
  }

  lemma SameProducts(lines: seq<Line>, sent: seq<Line>)
    requires multiset(lines) == multiset(sent)
    ensures Products(lines) == Products(sent)
  {
    forall i | 0 <= i < |lines| ensures lines[i].product in Products(sent) {
      assert lines[i] in multiset(sent);
    }
    forall i | 0 <= i < |sent| ensures sent[i].product in Products(lines) {
      assert sent[i] in multiset(lines);
    }
  }

  /** The query loads a row for every line exactly when every product is on sale in the shop. */
  lemma LoadedAll(c: Catalog, lines: seq<Line>, sent: seq<Line>, shop: ShopId, rows: seq<Product>)
    requires Loaded(c, lines, shop, rows) && AcceptableLines(lines) && multiset(lines) == multiset(sent)
    ensures |rows| == |lines| <==> AllOnSale(c, shop, sent)
    ensures |rows| == |lines| ==> Ids(rows) == Products(sent)
  {
    LoadedIsRequested(c, lines, shop, rows);
    EqualCountsLoadEverything(lines, rows);
    SameProducts(lines, sent);
    if |rows| == |lines| {
      forall i | 0 <= i < |sent| ensures OnSale(c, shop, sent[i].product) {
        assert sent[i].product in Products(sent);
        var k :| 0 <= k < |rows| && rows[k].id == sent[i].product;
        assert Wanted(c, lines, shop, rows[k].id);
      }
    }
    if AllOnSale(c, shop, sent) {
      forall p | p in Products(sent) ensures p in Ids(rows) {
        var i := LineOfProduct(sent, p);
        assert Wanted(c, lines, shop, p);
      }
    }
  }

  lemma LineInBoth(lines: seq<Line>, sent: seq<Line>, i: nat)
    requires AcceptableLines(lines) && multiset(lines) == multiset(sent) && i < |sent|
    ensures sent[i] in lines && sent[i].product in Quantities(lines)
    ensures Quantities(lines)[sent[i].product] == sent[i].quantity
  {
    assert sent[i] in multiset(lines);
    var k :| 0 <= k < |lines| && lines[k] == sent[i];
    QuantitiesExact(lines);
  }

  /** The stored items are the lines of the request, each once, at the prices just read. */
  lemma ItemsAreAsked(c: Catalog, lines: seq<Line>, sent: seq<Line>, shop: ShopId, rows: seq<Product>)
    requires Loaded(c, lines, shop, rows) && AcceptableLines(lines) && PricesOk(c)
    requires multiset(lines) == multiset(sent) && DistinctProducts(sent) && |rows| == |lines|
    ensures multiset(ItemsOf(rows, lines)) == multiset(Asked(c, sent))
    ensures ItemsTotal(ItemsOf(rows, lines)) == ItemsTotal(Asked(c, sent))
  {
    LoadedAll(c, lines, sent, shop, rows);
    var items, asked := ItemsOf(rows, lines), Asked(c, sent);
    assert OncePerProduct(items) && OncePerProduct(asked);
    forall k | 0 <= k < |items| ensures items[k] in asked {
      assert rows[k].id in Ids(rows);
      var i := LineOfProduct(sent, rows[k].id);
      LineInBoth(lines, sent, i);
      assert rows[k] == c.products[rows[k].id];
      assert items[k] == asked[i];
    }
    forall i | 0 <= i < |asked| ensures asked[i] in items {
      assert sent[i].product in Products(sent);
      var k :| 0 <= k < |rows| && rows[k].id == sent[i].product;
      LineInBoth(lines, sent, i);
      assert rows[k] == c.products[rows[k].id];
      assert items[k] == asked[i];
    }
    SameItems(items, asked);
    TotalIsOfTheMultiset(items, asked);
  }

  // ---------------------------------------------------------------- the row a normal creation inserts

  predicate KeyInUse(db: Db, key: string) {
    exists id :: id in db.orders && db.orders[id].createKey == key
  }

  /** One new row with its first history entry and its creation event; nothing else changes. */
  ghost predicate OneOrderAdded(db: Db, after: Db, id: OrderId, admin: AdminId, status: Status, key: string) {
    && id !in db.orders && id in after.orders
    && after.orders == db.orders[id := after.orders[id]]
    && after.history == db.history + [Entry(id, None, status, Some(admin))]
    && after.events == db.events + [Event(OrderCreated, Some(id), Some(key))]
  }

  /** The reference a request gives, or the Instagram handle an older page sends instead. */
  predicate ReferenceIs(stored: string, reference: string, handle: string) {
    stored == if Trim(reference) != "" then Trim(reference) else Trim(TrimPrefix(Trim(handle), "@"))
  }

  predicate ChannelIs(stored: string, channel: string) {
    stored == if Trim(channel) == "" then "instagram" else Trim(channel)
  }

  /** Nothing has happened to the order since it was inserted. */
  predicate NoFinalPayment(o: Order) {
    && o.requestedAt == None && o.finalPayment == NO_PAYMENT && o.finalReceipt == None
    && o.confirmedAt == None && o.confirmedBy == None
  }

  /** The columns of a row created by a normal request f, column by column. */
  predicate HoldsNormal(o: Order, r: ReqId, f: NormalForm, c: Catalog, now: Time) {
    && o.createKey == Trim(f.createKey) && o.token == r && o.origin == r
    && o.shop == f.shopId && f.shopId in c.shops && o.payment == c.shops[f.shopId].payment
    && o.createdAt == now && o.amount == f.amount && o.initialPayment == f.initialPayment
    && multiset(o.items) == multiset(Asked(c, f.items))
    && (var total := ItemsTotal(Asked(c, f.items)); o.originalAmount == if f.amount < total then Some(total) else None)
    && o.remarks.deliveryDate == Trim(f.deliveryDate) && o.remarks.tracking == ""
    && ChannelIs(o.remarks.channel, f.salesChannel)
    && ReferenceIs(o.remarks.reference, f.conversationReference, f.instagramUsername)
    && o.remarks.note == Trim(f.internalNote)
    && o.status == WaitingInfo && o.customer == NO_DETAILS && o.submittedAt == None && o.receipt == None
    && NoFinalPayment(o)
  }

  /** How createOrder's transaction ends: 404 without access to an active shop, 402 when the shop's
      period has ended, 404 unless every product is on sale there, 400 when the total does not fit 64
      bits, a lost race when the key is in use, and otherwise one new order. */
  ghost predicate CreationEnds(s: State, t: State, r: ReqId, id: OrderId, now: Time)
    requires r in s.requests && s.requests[r].job.Create? && r in t.requests
  {
    var Create(admin, f) := s.requests[r].job;
    var c, phase := s.catalog, t.requests[r].phase;
    if (admin, f.shopId) !in c.access || f.shopId !in c.shops || !c.shops[f.shopId].active
    then phase == Closing(Refused(NotFound)) && t.db == s.db
    else if !c.shops[f.shopId].writable then phase == Closing(Refused(PaymentRequired)) && t.db == s.db
    else if !AllOnSale(c, f.shopId, f.items) then phase == Closing(Refused(NotFound)) && t.db == s.db
    else if ItemsTotal(Asked(c, f.items)) > MAX_INT64 then phase == Closing(Refused(BadRequest)) && t.db == s.db
    else if KeyInUse(s.db, Trim(f.createKey)) then phase == Lost && t.db == s.db
    else
      && OneOrderAdded(s.db, t.db, id, admin, WaitingInfo, Trim(f.createKey))
      && HoldsNormal(t.db.orders[id], r, f, c, now)
      && phase == Closing(Created(id, t.db.orders[id].fingerprint))
  }

  lemma FormFacts(f: NormalForm)
    requires AcceptsNormal(CleanNormal(f), true)
    ensures var lines := CleanNormal(f).items;
            AcceptableLines(lines) && multiset(lines) == multiset(f.items) && DistinctProducts(f.items)
  {
    AcceptedItemsDistinct(f, true);
    SortLinesCorrect(f.items);
  }

  lemma CleanCreation(f: NormalForm)
    ensures var c := CleanNormal(f);
            && c.createKey == Trim(f.createKey) && c.shopId == f.shopId && c.amount == f.amount
            && c.initialPayment == f.initialPayment
            && c.deliveryDate == Trim(f.deliveryDate) && c.internalNote == Trim(f.internalNote)
            && ChannelIs(c.salesChannel, f.salesChannel)
            && ReferenceIs(c.conversationReference, f.conversationReference, f.instagramUsername)
  {
    NothingTrimmed();
    hide Trim, TrimPrefix, SortLines;
  }

  lemma NewNormalRow(r: ReqId, job: Job, c: Catalog, rows: seq<Product>, original: Option<int>, now: Time)
    requires job.Create? && JobOk(job) && PricesOk(c) && job.normal.shopId in c.shops
    requires Loaded(c, LinesOf(job), ShopOf(job), rows) && |rows| == |LinesOf(job)|
    requires var total := ItemsTotal(ItemsOf(rows, LinesOf(job)));
             original == if job.normal.amount < total then Some(total) else None
    ensures HoldsNormal(NewRow(r, job, c.shops[job.normal.shopId].payment, rows, original, now), r, job.normal, c, now)
  {
    FormFacts(job.normal);
    ItemsAreAsked(c, LinesOf(job), job.normal.items, ShopOf(job), rows);
    CleanCreation(job.normal);
    hide Loaded, AcceptsNormal, AcceptableLines, DistinctProducts, SortLines, Asked, ItemsOf, ItemsTotal, Trim;
    hide PricesOk, PrintOf, CleanNormal, ChannelIs, ReferenceIs;
  }

  /** The row the transaction goes for. */
  ghost function RowFor(r: ReqId, job: Job, c: Catalog, rows: seq<Product>, now: Time): Order
    requires job.Create? && JobOk(job) && job.normal.shopId in c.shops
  {
    var total := ItemsTotal(ItemsOf(rows, LinesOf(job)));
    var original := if job.normal.amount < total then Some(total) else None;
    NewRow(r, job, c.shops[job.normal.shopId].payment, rows, original, now)
  }

  lemma TransactionCases(db: Db, c: Catalog, r: ReqId, job: Job, id: OrderId, rows: seq<Product>, now: Time)
    requires job.Create? && JobOk(job) && Loaded(c, LinesOf(job), ShopOf(job), rows)
    ensures var shop, end := job.normal.shopId, CreateTransaction(db, c, r, job, id, rows, now);
            if (job.admin, shop) !in c.access || shop !in c.shops || !c.shops[shop].active
            then end == Declined(NotFound)
            else if !c.shops[shop].writable then end == Declined(PaymentRequired)
            else if |rows| != |LinesOf(job)| then end == Declined(NotFound)
            else if ItemsTotal(ItemsOf(rows, LinesOf(job))) > MAX_INT64 then end == Declined(BadRequest)
            else if KeyTaken(db, Trim(job.normal.createKey)) then end == KeyLost
            else end == Inserted(Insert(db, id, RowFor(r, job, c, rows, now), job.admin))
    ensures var shop := job.normal.shopId; shop in c.shops ==>
            RowFor(r, job, c, rows, now).createKey == Trim(job.normal.createKey)
  {
    LoadedIsRequested(c, LinesOf(job), ShopOf(job), rows);
    ItemsCarryTotal(rows, LinesOf(job));
    hide Loaded, AcceptsNormal, SortLines, ItemsOf, ItemsTotal, Trim, NormalFingerprint, Insert;
  }

  lemma InsertAdds(db: Db, id: OrderId, o: Order, admin: AdminId)
    requires EventsOk(db) && id !in db.orders && !KeyTaken(db, o.createKey)
    ensures OneOrderAdded(db, Insert(db, id, o, admin), id, admin, o.status, o.createKey)
    ensures Insert(db, id, o, admin).orders[id] == o
  {
    CreationRecorded(db, id, o);
  }

  /** createOrder's transaction, said from the request as sent. */
  lemma CreationDecided(db: Db, c: Catalog, r: ReqId, job: Job, id: OrderId, rows: seq<Product>, now: Time)
    requires job.Create? && JobOk(job) && PricesOk(c) && id !in db.orders
    requires Loaded(c, LinesOf(job), ShopOf(job), rows)
    ensures var shop, end := job.normal.shopId, CreateTransaction(db, c, r, job, id, rows, now);
            if (job.admin, shop) !in c.access || shop !in c.shops || !c.shops[shop].active
            then end == Declined(NotFound)
            else if !c.shops[shop].writable then end == Declined(PaymentRequired)
            else if !AllOnSale(c, shop, job.normal.items) then end == Declined(NotFound)
            else if ItemsTotal(Asked(c, job.normal.items)) > MAX_INT64 then end == Declined(BadRequest)
            else if KeyInUse(db, Trim(job.normal.createKey)) then end == KeyLost
            else end.Inserted? && id in end.db.orders && HoldsNormal(end.db.orders[id], r, job.normal, c, now)
                 && (EventsOk(db) ==>
                       OneOrderAdded(db, end.db, id, job.admin, WaitingInfo, Trim(job.normal.createKey)))
  {
    var lines, sent, shop := LinesOf(job), job.normal.items, job.normal.shopId;
    FormFacts(job.normal);
    LoadedAll(c, lines, sent, ShopOf(job), rows);
    TransactionCases(db, c, r, job, id, rows, now);
    if shop in c.shops && |rows| == |lines| {
      ItemsAreAsked(c, lines, sent, ShopOf(job), rows);
      var row := RowFor(r, job, c, rows, now);
      NewNormalRow(r, job, c, rows, row.originalAmount, now);
      if EventsOk(db) && !KeyTaken(db, row.createKey) { InsertAdds(db, id, row, job.admin); }
    }
    hide Loaded, AcceptsNormal, AcceptableLines, DistinctProducts, SortLines, Asked, ItemsOf, ItemsTotal, Trim;
    hide NormalFingerprint, PricesOk, Record, EventsOk, CreateTransaction, OneOrderAdded;
  }

  lemma CreateAnswers(s: State, r: ReqId, id: OrderId, rows: seq<Product>, now: Time)
    requires Enabled(s, CreateTx(r, id, rows, now)) && EventsOk(s.db) && PricesOk(s.catalog)
    ensures r in s.requests && s.requests[r].job.Create? && r in Next(s, CreateTx(r, id, rows, now)).requests
    ensures CreationEnds(s, Next(s, CreateTx(r, id, rows, now)), r, id, now)
  {
    CreationDecided(s.db, s.catalog, r, s.requests[r].job, id, rows, now);
    if CreateTransaction(s.db, s.catalog, r, s.requests[r].job, id, rows, now).Inserted? {
      InsertedPrint(s.db, s.catalog, r, s.requests[r].job, id, rows, now);
    }
    hide Loaded, JobOk, AllOnSale, Asked, ItemsTotal, Trim, PrintOf, LinesOf, ShopOf, KeyOf;
    hide PricesOk, EventsOk, CreateTransaction, OneOrderAdded, HoldsNormal, KeyInUse;
  }

  lemma InsertedPrint(db: Db, c: Catalog, r: ReqId, job: Job, id: OrderId, rows: seq<Product>, now: Time)
    requires job.Create? && JobOk(job) && Loaded(c, LinesOf(job), ShopOf(job), rows)
    requires CreateTransaction(db, c, r, job, id, rows, now).Inserted?
    ensures var after := CreateTransaction(db, c, r, job, id, rows, now).db;
            id in after.orders && after.orders[id].fingerprint == PrintOf(job)
  {
    hide Loaded, AcceptsNormal, SortLines, ItemsOf, Trim, NormalFingerprint, PrintOf, Record;
  }

  // ---------------------------------------------------------------- the import's two halves

  /** The check in front of an import: the refusals of createOrder without the total, or the shop's
      payment columns of the moment and the rows of all products asked for. */
  ghost predicate ImportChecks(s: State, t: State, r: ReqId, rows: seq<Product>)
    requires r in s.requests && s.requests[r].job.Import? && r in t.requests
  {
    var Import(admin, f, _) := s.requests[r].job;
    var c, phase := s.catalog, t.requests[r].phase;
    && t.db == s.db
    && if (admin, f.shopId) !in c.access || f.shopId !in c.shops || !c.shops[f.shopId].active
       then phase == Closing(Refused(NotFound))
       else if !c.shops[f.shopId].writable then phase == Closing(Refused(PaymentRequired))
       else if !AllOnSale(c, f.shopId, f.items) then phase == Closing(Refused(NotFound))
       else phase == Checked(c.shops[f.shopId].payment, rows) && Ids(rows) == Products(f.items)
  }

  lemma ImportFacts(f: HistoricalForm, hasReceipt: bool)
    requires AcceptsHistorical(CleanHistorical(f), hasReceipt, true)
    ensures var lines := CleanHistorical(f).items;
            AcceptableLines(lines) && multiset(lines) == multiset(f.items) && DistinctProducts(f.items)
    ensures ParseStatus(Trim(f.status)).Some? && ParseStatus(Trim(f.status)).value != WaitingInfo
  {
    hide NormalizeMobile, NormalizeDigits, ValidDetails, Trim, ByteLength;
    DistinctBackwards(f.items);
    SortLinesCorrect(f.items);
  }

  lemma BeginAnswers(s: State, r: ReqId, rows: seq<Product>)
    requires Enabled(s, BeginImport(r, rows)) && JobOk(s.requests[r].job)
    ensures r in s.requests && s.requests[r].job.Import? && r in Next(s, BeginImport(r, rows)).requests
    ensures ImportChecks(s, Next(s, BeginImport(r, rows)), r, rows)
  {
    BeginChecks(s, r, rows);
    hide Loaded, JobOk, ImportChecks, LinesOf, ShopOf, LockedActiveShop;
  }

  lemma BeginChecks(s: State, r: ReqId, rows: seq<Product>)
    requires r in s.requests && s.requests[r].job.Import? && JobOk(s.requests[r].job)
    requires Loaded(s.catalog, LinesOf(s.requests[r].job), ShopOf(s.requests[r].job), rows)
    ensures r in DoBeginImport(s, r, rows).requests && ImportChecks(s, DoBeginImport(s, r, rows), r, rows)
  {
    var job := s.requests[r].job;
    ImportFacts(job.historical, job.file.Some?);
    LoadedAll(s.catalog, LinesOf(job), job.historical.items, ShopOf(job), rows);
    hide Loaded, AcceptsHistorical, AcceptableLines, DistinctProducts, SortLines, Trim, NormalizeMobile,
        NormalizeDigits;
  }

  /** The columns of an imported row, against the catalog c that its check saw. */
  predicate HoldsImport(o: Order, r: ReqId, f: HistoricalForm, hasReceipt: bool, c: Catalog, now: Time) {
    && o.createKey == Trim(f.createKey) && o.token == r && o.origin == r
    && o.shop == f.shopId && f.shopId in c.shops && o.payment == c.shops[f.shopId].payment
    && o.createdAt == now && o.amount == f.amount && o.initialPayment == None && o.originalAmount == None
    && multiset(o.items) == multiset(Asked(c, f.items))
    && o.remarks.deliveryDate == Trim(f.deliveryDate) && o.remarks.tracking == ""
    && ChannelIs(o.remarks.channel, f.salesChannel)
    && ReferenceIs(o.remarks.reference, f.conversationReference, f.instagramUsername)
    && o.remarks.note == Trim(f.internalNote)
    && ParseStatus(Trim(f.status)) == Some(o.status)
    && o.customer == Details(Trim(f.customer.fullName), NormalizeMobile(f.customer.mobile), Trim(f.customer.address),
                             NormalizeDigits(f.customer.postalCode), "")
    && o.submittedAt == Some(now) && o.receipt == (if hasReceipt then Some(r) else None)
    && NoFinalPayment(o)
  }

  lemma CleanImport(f: HistoricalForm)
    ensures var c := CleanHistorical(f);
            && c.createKey == Trim(f.createKey) && c.shopId == f.shopId && c.amount == f.amount
            && c.deliveryDate == Trim(f.deliveryDate) && c.internalNote == Trim(f.internalNote)
            && c.status == Trim(f.status) && ChannelIs(c.salesChannel, f.salesChannel)
            && ReferenceIs(c.conversationReference, f.conversationReference, f.instagramUsername)
            && c.customer == Details(Trim(f.customer.fullName), NormalizeMobile(f.customer.mobile),
                                     Trim(f.customer.address), NormalizeDigits(f.customer.postalCode), "")
  {
    hide Trim, TrimPrefix, SortLines, NormalizeMobile, NormalizeDigits;
  }

  lemma NewImportRow(r: ReqId, job: Job, c: Catalog, rows: seq<Product>, now: Time)
    requires job.Import? && JobOk(job) && PricesOk(c) && job.historical.shopId in c.shops
    requires Loaded(c, LinesOf(job), ShopOf(job), rows) && |rows| == |LinesOf(job)|
    ensures HoldsImport(NewRow(r, job, c.shops[job.historical.shopId].payment, rows, None, now), r, job.historical,
                        job.file.Some?, c, now)
  {
    ImportFacts(job.historical, job.file.Some?);
    ItemsAreAsked(c, LinesOf(job), job.historical.items, ShopOf(job), rows);
    CleanImport(job.historical);
    hide Loaded, AcceptsHistorical, AcceptableLines, DistinctProducts, SortLines, Asked, ItemsOf, ItemsTotal, Trim;
    hide NormalizeMobile, NormalizeDigits, PricesOk, ParseStatus, PrintOf, CleanHistorical, ChannelIs, ReferenceIs;
  }

  /** Phase Checked holds what a check against the catalog c found. */
  ghost predicate CheckedAgainst(q: Request, c: Catalog) {
    && q.job.Import? && q.phase.Checked?
    && (q.job.admin, q.job.historical.shopId) in c.access && q.job.historical.shopId in c.shops
    && c.shops[q.job.historical.shopId].active && c.shops[q.job.historical.shopId].writable
    && q.phase.payment == c.shops[q.job.historical.shopId].payment
    && Loaded(c, LinesOf(q.job), ShopOf(q.job), q.phase.rows) && |q.phase.rows| == |LinesOf(q.job)|
  }

  /** The second half: the race is lost when the key is in use by now, and otherwise one row is added,
      with the items, prices and payment columns of the check. */
  lemma ImportAnswers(s: State, r: ReqId, id: OrderId, now: Time, c: Catalog)
    requires Enabled(s, InsertImport(r, id, now)) && EventsOk(s.db) && PricesOk(c) && CheckedAgainst(s.requests[r], c)
    ensures var t := Next(s, InsertImport(r, id, now));
            var Import(admin, f, file) := s.requests[r].job;
            && r in t.requests && ParseStatus(Trim(f.status)).Some?
            && if KeyInUse(s.db, Trim(f.createKey)) then t.requests[r].phase == Lost && t.db == s.db
               else
                 && OneOrderAdded(s.db, t.db, id, admin, ParseStatus(Trim(f.status)).value, Trim(f.createKey))
                 && HoldsImport(t.db.orders[id], r, f, file.Some?, c, now)
                 && t.requests[r].phase == Closing(Created(id, t.db.orders[id].fingerprint))
  {
    var q := s.requests[r];
    var row := NewRow(r, q.job, q.phase.payment, q.phase.rows, None, now);
    ImportFacts(q.job.historical, q.job.file.Some?);
    NewImportRow(r, q.job, c, q.phase.rows, now);
    if !KeyTaken(s.db, row.createKey) { InsertAdds(s.db, id, row, q.job.admin); }
    hide Loaded, AcceptsHistorical, AcceptableLines, DistinctProducts, SortLines, Asked, ItemsOf, ItemsTotal, Trim;
    hide NormalizeMobile, NormalizeDigits, PricesOk, Record, EventsOk, Insert, OneOrderAdded, ParseStatus;
  }
}
