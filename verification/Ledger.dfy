/** The order ledger as a transition system: the tables, the receipt directory, the row locks and
    any number of requests in flight, each advancing through its own steps in any order.

    A locked read-check-write is one step when the whole transaction is database work. The two
    receipt submissions and the import rename a file inside their transaction, and the sweep locks
    one row after another, so those transactions are several steps between lock and commit. */
module Ledger {
  import opened Wrappers
  import opened Pricing
  import opened Customers
  import opened Intake
  import opened Orders

  // ---------------------------------------------------------------- state

  type ReqId = nat

  /** Files of the receipt directory: the upload and the stored name of one request. */
  datatype FileName = Temporary(req: ReqId) | Stored(req: ReqId)

  datatype Shop = Shop(payment: Payment, active: bool, writable: bool)

  datatype Catalog = Catalog(shops: map<ShopId, Shop>, products: map<nat, Product>, access: set<(AdminId, ShopId)>)

  datatype Job =
    | Create(admin: AdminId, normal: NormalForm)
    | Import(admin: AdminId, historical: HistoricalForm, file: Option<string>)
    | SubmitDetails(token: Token, details: Details)
    | SubmitFinalReceipt(token: Token)
    | Sweep(cutoff: Time)

  datatype Reply =
    | Created(id: OrderId, fingerprint: Fingerprint)   // 201
    | Accepted                                   // 200
    | Swept(count: nat)
    | Refused(reason: Reject)

  datatype Phase =
    | Started
    | Missing                                        // the first lookup found no visible order
    | Opened(id: OrderId)                            // the public order was found
    | Checked(payment: Payment, rows: seq<Product>)  // inside the import transaction
    | Locked(id: OrderId)                            // the row is locked and passed its checks
    | Lost                                           // the insert met an existing key
    | Marking(todo: seq<OrderId>, marked: seq<OrderId>)
    | Closing(reply: Reply)

  /** Which file of a pendingImage exists: none, the upload, or the renamed one. */
  datatype Image = NoImage | Pending | Renamed

  datatype Request = Request(job: Job, phase: Phase, image: Image)

  datatype Response = Response(req: ReqId, job: Job, reply: Reply)

  datatype State = State(
    db: Db, catalog: Catalog, files: set<FileName>, requests: map<ReqId, Request>, locks: map<OrderId, ReqId>,
    replies: seq<Response>, orphans: set<FileName>, nextReq: ReqId)

  predicate PricesOk(c: Catalog) {
    forall p :: p in c.products ==> c.products[p].id == p && 1 <= c.products[p].price <= MAX_SAFE_INTEGER
  }

  function Init(catalog: Catalog): State {
    State(Db(map[], [], []), catalog, {}, map[], map[], [], {}, 1)
  }

  // ---------------------------------------------------------------- requests

  predicate Creates(job: Job) { job.Create? || job.Import? }

  function Form(job: Job): NormalForm
    requires job.Create?
  {
    CleanNormal(job.normal)
  }

  function ImportForm(job: Job): HistoricalForm
    requires job.Import?
  {
    CleanHistorical(job.historical)
  }

  function KeyOf(job: Job): string
    requires Creates(job)
  {
    if job.Create? then Form(job).createKey else ImportForm(job).createKey
  }

  function PrintOf(job: Job): Fingerprint
    requires Creates(job)
  {
    if job.Create? then NormalFingerprint(Form(job)) else HistoricalFingerprint(ImportForm(job), job.file)
  }

  function ShopOf(job: Job): ShopId
    requires Creates(job)
  {
    if job.Create? then Form(job).shopId else ImportForm(job).shopId
  }

  function LinesOf(job: Job): seq<Line>
    requires Creates(job)
  {
    if job.Create? then Form(job).items else ImportForm(job).items
  }

  /** What the handlers check before they touch anything shared. */
  predicate JobOk(job: Job) {
    match job
    case Create(_, _) => AcceptsNormal(Form(job), true)
    case Import(_, _, file) => AcceptsHistorical(ImportForm(job), file.Some?, true)
    case SubmitDetails(_, details) => ValidDetails(details)
    case _ => true
  }

  predicate NeedsFile(job: Job) {
    job.SubmitDetails? || job.SubmitFinalReceipt? || (job.Import? && job.file.Some?)
  }

  /** lockedActiveShop */
  function LockedActiveShop(c: Catalog, admin: AdminId, shop: ShopId): Outcome<Shop> {
    if shop !in c.shops || !c.shops[shop].active || (admin, shop) !in c.access then Rejected(NotFound)
    else if !c.shops[shop].writable then Rejected(PaymentRequired)
    else Done(c.shops[shop])
  }

  predicate Wanted(c: Catalog, lines: seq<Line>, shop: ShopId, p: nat) {
    p in Products(lines) && p in c.products && c.products[p].shop == shop && c.products[p].active
  }

  /** The rows of the product query, in whatever order the database returned them. */
  ghost predicate Loaded(c: Catalog, lines: seq<Line>, shop: ShopId, rows: seq<Product>) {
    && DistinctIds(rows)
    && (forall i :: 0 <= i < |rows| ==> Wanted(c, lines, shop, rows[i].id) && rows[i] == c.products[rows[i].id])
    && (forall p :: Wanted(c, lines, shop, p) ==> p in Ids(rows))
  }

  /** One item per loaded row, with the requested quantity (zero for a missing key, as Go reads it). */
  function ItemsOf(rows: seq<Product>, lines: seq<Line>): seq<Item> {
    var q := Quantities(lines);
    seq(|rows|, i requires 0 <= i < |rows| =>
      Item(rows[i].id, if rows[i].id in q then q[rows[i].id] else 0, rows[i].price))
  }

  /** The row a creation request inserts. */
  function NewRow(r: ReqId, job: Job, payment: Payment, rows: seq<Product>, original: Option<int>, now: Time): Order
    requires Creates(job) && JobOk(job)
  {
    match job
    case Create(_, _) =>
      var f := Form(job);
      Order(f.createKey, PrintOf(job), r, f.shopId, now,
            f.amount, original, f.initialPayment, ItemsOf(rows, f.items), payment,
            Remarks(f.deliveryDate, f.salesChannel, f.conversationReference, f.internalNote, ""),
            NO_DETAILS, WaitingInfo,
            None, None, None, NO_PAYMENT, None, None, None, r)
    case Import(_, _, file) =>
      var f := ImportForm(job);
      Order(f.createKey, PrintOf(job), r, f.shopId, now, f.amount, None, None, ItemsOf(rows, f.items), payment,
            Remarks(f.deliveryDate, f.salesChannel, f.conversationReference, f.internalNote, ""),
            f.customer, ParseStatus(f.status).value,
            Some(now), if file.Some? then Some(r) else None, None, NO_PAYMENT, None, None, None, r)
  }

  /** The order with a create key, if the admin may see it. */
  ghost function Visible(db: Db, c: Catalog, admin: AdminId, key: string): Option<OrderId> {
    if exists id :: id in db.orders && db.orders[id].createKey == key && (admin, db.orders[id].shop) in c.access
    then
      var id :| id in db.orders && db.orders[id].createKey == key && (admin, db.orders[id].shop) in c.access;
      Some(id)
    else None
  }

  /** respondExisting */
  function RespondExisting(db: Db, id: OrderId, job: Job): Reply
    requires id in db.orders && Creates(job)
  {
    if db.orders[id].fingerprint == PrintOf(job) then Created(id, db.orders[id].fingerprint) else Refused(Conflict)
  }

  ghost function PublicOrder(db: Db, token: Token): Option<OrderId> {
    if exists id :: id in db.orders && db.orders[id].token == token
    then var id :| id in db.orders && db.orders[id].token == token; Some(id)
    else None
  }

  // ---------------------------------------------------------------- steps

  datatype Step =
    | Arrive(job: Job)
    | Lookup(r: ReqId)
    | Prepare(r: ReqId)
    | CreateTx(r: ReqId, id: OrderId, rows: seq<Product>, now: Time)
    | BeginImport(r: ReqId, rows: seq<Product>)
    | Rename(r: ReqId)
    | InsertImport(r: ReqId, id: OrderId, now: Time)
    | SecondLookup(r: ReqId)
    | LockRow(r: ReqId)
    | CommitRow(r: ReqId, now: Time)
    | ListStale(r: ReqId, ids: seq<OrderId>)
    | MarkNext(r: ReqId)
    | CommitSweep(r: ReqId)
    | Fail(r: ReqId, reason: Reject)
    | Close(r: ReqId)
    | PatchOrder(admin: AdminId, id: OrderId, patch: Patch)
    | RequestFinalPayment(admin: AdminId, id: OrderId, now: Time)
    | ConfirmFinalPayment(admin: AdminId, id: OrderId, now: Time)
    | RotateLink(admin: AdminId, id: OrderId)
    | Observe(event: Event)
    | Change(catalog: Catalog)
    | Crash

  /** Move request r to a phase. */
  function Go(s: State, r: ReqId, phase: Phase): State
    requires r in s.requests
  {
    s.(requests := s.requests[r := s.requests[r].(phase := phase)])
  }

  /** End the transaction of r, if any, and leave with a reply. */
  function Finish(s: State, r: ReqId, reply: Reply): State
    requires r in s.requests
  {
    Go(s, r, Closing(reply)).(locks := map id | id in s.locks && s.locks[id] != r :: s.locks[id])
  }

  /** Commit: the tables change, the locks go, and the stored file is no longer the request's to discard. */
  function Commit(s: State, r: ReqId, db: Db, reply: Reply): State
    requires r in s.requests
  {
    var t := Finish(s, r, reply);
    t.(db := db, requests := t.requests[r := t.requests[r].(image := NoImage)])
  }

  predicate In(s: State, r: ReqId) { r in s.requests }

  function DoArrive(s: State, job: Job): State {
    s.(requests := s.requests[s.nextReq := Request(job, Started, NoImage)], nextReq := s.nextReq + 1)
  }

  ghost function DoLookup(s: State, r: ReqId): State
    requires In(s, r)
  {
    var job := s.requests[r].job;
    match job
    case Sweep(_) => s
    case SubmitDetails(token, _) =>
      (match PublicOrder(s.db, token)
       case None => Finish(s, r, Refused(NotFound))
       case Some(id) =>
         if id in s.db.orders && s.db.orders[id].submittedAt.Some? then Finish(s, r, Refused(Conflict))
         else Go(s, r, Opened(id)))
    case SubmitFinalReceipt(token) =>
      (match PublicOrder(s.db, token)
       case None => Finish(s, r, Refused(NotFound))
       case Some(id) => Go(s, r, Opened(id)))
    case _ =>
      (match Visible(s.db, s.catalog, job.admin, KeyOf(job))
       case None => Go(s, r, Missing)
       case Some(id) => Finish(s, r, RespondExisting(s.db, id, job)))
  }

  function DoPrepare(s: State, r: ReqId): State
    requires In(s, r)
  {
    s.(requests := s.requests[r := s.requests[r].(image := Pending)], files := s.files + {Temporary(r)})
  }

  lemma LoadedIsRequested(c: Catalog, lines: seq<Line>, shop: ShopId, rows: seq<Product>)
    requires Loaded(c, lines, shop, rows)
    ensures Ids(rows) <= Products(lines) && Ids(rows) <= Quantities(lines).Keys
  {
    QuantitiesKeys(lines);
  }

  /** How the creation transaction ends. */
  datatype Creation = Inserted(db: Db) | KeyLost | Declined(reason: Reject)

  /** The transaction of createOrder: shop and products locked, total checked, insert or lose. */
  ghost function CreateTransaction(db: Db, c: Catalog, r: ReqId, job: Job, id: OrderId, rows: seq<Product>,
      now: Time): Creation
    requires job.Create? && JobOk(job) && Loaded(c, LinesOf(job), ShopOf(job), rows)
  {
    var quantities := Quantities(LinesOf(job));
    LoadedIsRequested(c, LinesOf(job), ShopOf(job), rows);
    match LockedActiveShop(c, job.admin, ShopOf(job))
    case Rejected(reason) => Declined(reason)
    case Done(shop) =>
      if |rows| != |LinesOf(job)| then Declined(NotFound)
      else match CheckedTotal(rows, quantities)
        case None => Declined(BadRequest)
        case Some(total) =>
          var row := NewRow(r, job, shop.payment, rows, StoredOriginal(Form(job).amount, total), now);
          match TryInsert(db, id, row, job.admin)
          case None => KeyLost
          case Some(after) => Inserted(after)
  }

  ghost function DoCreate(s: State, r: ReqId, id: OrderId, rows: seq<Product>, now: Time): State
    requires In(s, r) && s.requests[r].job.Create? && JobOk(s.requests[r].job)
    requires Loaded(s.catalog, LinesOf(s.requests[r].job), ShopOf(s.requests[r].job), rows)
  {
    var job := s.requests[r].job;
    match CreateTransaction(s.db, s.catalog, r, job, id, rows, now)
    case Declined(reason) => Finish(s, r, Refused(reason))
    case KeyLost => Go(s, r, Lost)
    case Inserted(db) => Commit(s, r, db, Created(id, PrintOf(job)))
  }

  function DoBeginImport(s: State, r: ReqId, rows: seq<Product>): State
    requires In(s, r) && s.requests[r].job.Import?
  {
    var job := s.requests[r].job;
    match LockedActiveShop(s.catalog, job.admin, ShopOf(job))
    case Rejected(reason) => Finish(s, r, Refused(reason))
    case Done(shop) =>
      if |rows| != |LinesOf(job)| then Finish(s, r, Refused(NotFound)) else Go(s, r, Checked(shop.payment, rows))
  }

  function DoRename(s: State, r: ReqId): State
    requires In(s, r)
  {
    s.(requests := s.requests[r := s.requests[r].(image := Renamed)], files := s.files - {Temporary(r)} + {Stored(r)})
  }

  function DoInsertImport(s: State, r: ReqId, id: OrderId, now: Time): State
    requires In(s, r) && s.requests[r].job.Import? && JobOk(s.requests[r].job) && s.requests[r].phase.Checked?
  {
    var job := s.requests[r].job;
    var row := NewRow(r, job, s.requests[r].phase.payment, s.requests[r].phase.rows, None, now);
    match TryInsert(s.db, id, row, job.admin)
    case None => Go(s, r, Lost)
    case Some(db) => Commit(s, r, db, Created(id, PrintOf(job)))
  }

  ghost function DoSecondLookup(s: State, r: ReqId): State
    requires In(s, r) && Creates(s.requests[r].job)
  {
    var job := s.requests[r].job;
    match Visible(s.db, s.catalog, job.admin, KeyOf(job))
    case None => Finish(s, r, Refused(Conflict))
    case Some(id) => Finish(s, r, RespondExisting(s.db, id, job))
  }

  function CheckRow(db: Db, job: Job, id: OrderId): Outcome<()> {
    match job
    case SubmitDetails(token, _) => CheckSubmit(db, id, token)
    case SubmitFinalReceipt(token) => CheckFinal(db, id, token)
    case _ => Rejected(NotFound)
  }

  function DoLockRow(s: State, r: ReqId): State
    requires In(s, r) && s.requests[r].phase.Opened?
  {
    var id := s.requests[r].phase.id;
    match CheckRow(s.db, s.requests[r].job, id)
    case Rejected(reason) => Finish(s, r, Refused(reason))
    case Done(_) => Go(s, r, Locked(id)).(locks := s.locks[id := r])
  }

  /** The final write. The details submission repeats its condition in the UPDATE and gives up when
      no row matches it. */
  function DoCommitRow(s: State, r: ReqId, now: Time): State
    requires In(s, r) && s.requests[r].phase.Locked?
  {
    var id := s.requests[r].phase.id;
    if id !in s.db.orders then Finish(s, r, Refused(ServerError))
    else match s.requests[r].job
      case SubmitDetails(_, details) =>
        if s.db.orders[id].submittedAt.Some? || s.db.orders[id].status != WaitingInfo
        then Finish(s, r, Refused(Conflict))
        else Commit(s, r, Submit(s.db, id, details, r, now), Accepted)
      case SubmitFinalReceipt(_) => Commit(s, r, SubmitFinal(s.db, id, r), Accepted)
      case _ => s
  }

  function DoMarkNext(s: State, r: ReqId): State
    requires In(s, r) && s.requests[r].job.Sweep? && s.requests[r].phase.Marking? && s.requests[r].phase.todo != []
  {
    var Marking(todo, marked) := s.requests[r].phase;
    var id := todo[0];
    if id in s.db.orders && Stale(s.db.orders[id], s.requests[r].job.cutoff)
    then Go(s, r, Marking(todo[1..], marked + [id])).(locks := s.locks[id := r])
    else Go(s, r, Marking(todo[1..], marked))
  }

  function DoCommitSweep(s: State, r: ReqId): State
    requires In(s, r) && s.requests[r].job.Sweep? && s.requests[r].phase.Marking?
  {
    var marked := s.requests[r].phase.marked;
    Commit(s, r, CancelAll(s.db, marked, s.requests[r].job.cutoff), Swept(|marked|))
  }

  /** The handler returns: the deferred discard removes what the request still owns, then the reply goes out. */
  function DoClose(s: State, r: ReqId): State
    requires In(s, r) && s.requests[r].phase.Closing?
  {
    var q := s.requests[r];
    s.(requests := map x | x in s.requests && x != r :: s.requests[x],
       files := if q.image == NoImage then s.files else s.files - {Temporary(r), Stored(r)},
       replies := s.replies + [Response(r, q.job, q.phase.reply)])
  }

  function Write(s: State, outcome: Outcome<Db>): State {
    match outcome
    case Rejected(_) => s
    case Done(db) => s.(db := db)
  }

  function Allowed(s: State, admin: AdminId, id: OrderId): bool {
    id in s.db.orders && (admin, s.db.orders[id].shop) in s.catalog.access
  }

  function DoRequestFinal(s: State, admin: AdminId, id: OrderId, now: Time): State {
    if id in s.db.orders && s.db.orders[id].shop in s.catalog.shops
    then Write(s, RequestFinal(s.db, Allowed(s, admin, id), id, s.catalog.shops[s.db.orders[id].shop].payment, now))
    else s
  }

  predicate OwnsFile(s: State, f: FileName) {
    f.req in s.requests && s.requests[f.req].image == if f.Temporary? then Pending else Renamed
  }

  /** The process stops: transactions roll back, locks go, no deferred discard happens. */
  function DoCrash(s: State): State {
    s.(requests := map[], locks := map[], orphans := s.orphans + set f | f in s.files && OwnsFile(s, f))
  }

  /** When a step can be taken; a step that waits for a lock is simply not enabled. */
  ghost predicate Enabled(s: State, step: Step) {
    match step
    case Arrive(job) => JobOk(job)
    case Lookup(r) => In(s, r) && s.requests[r].phase.Started? && !s.requests[r].job.Sweep?
    case Prepare(r) => In(s, r) && s.requests[r].image == NoImage && NeedsFile(s.requests[r].job)
                       && (s.requests[r].phase.Opened? || s.requests[r].phase.Missing?)
    case CreateTx(r, id, rows, _) => In(s, r) && s.requests[r].job.Create? && s.requests[r].phase.Missing?
                       && JobOk(s.requests[r].job) && id !in s.db.orders
                       && Loaded(s.catalog, LinesOf(s.requests[r].job), ShopOf(s.requests[r].job), rows)
    case BeginImport(r, rows) => In(s, r) && s.requests[r].job.Import? && s.requests[r].phase.Missing?
                       && (NeedsFile(s.requests[r].job) ==> s.requests[r].image == Pending)
                       && Loaded(s.catalog, LinesOf(s.requests[r].job), ShopOf(s.requests[r].job), rows)
    case Rename(r) => In(s, r) && s.requests[r].image == Pending
        && (s.requests[r].phase.Checked? || s.requests[r].phase.Locked?)
    case InsertImport(r, id, _) => In(s, r) && s.requests[r].job.Import? && s.requests[r].phase.Checked?
                       && JobOk(s.requests[r].job) && id !in s.db.orders
                       && (NeedsFile(s.requests[r].job) ==> s.requests[r].image == Renamed)
    case SecondLookup(r) => In(s, r) && Creates(s.requests[r].job) && s.requests[r].phase.Lost?
    case LockRow(r) => In(s, r) && s.requests[r].phase.Opened? && s.requests[r].image == Pending
        && s.requests[r].phase.id !in s.locks
    case CommitRow(r, _) => In(s, r) && s.requests[r].phase.Locked? && s.requests[r].image == Renamed
    case ListStale(r, ids) => In(s, r) && s.requests[r].job.Sweep? && s.requests[r].phase.Started?
                       && (forall i, j :: 0 <= i < j < |ids| ==> ids[i] != ids[j])
                       && (set i | 0 <= i < |ids| :: ids[i]) == StaleIds(s.db, s.requests[r].job.cutoff)
    case MarkNext(r) => In(s, r) && s.requests[r].job.Sweep? && s.requests[r].phase.Marking?
        && s.requests[r].phase.todo != []
                       && s.requests[r].phase.todo[0] !in s.locks
    case CommitSweep(r) => In(s, r) && s.requests[r].job.Sweep? && s.requests[r].phase.Marking?
        && s.requests[r].phase.todo == []
    case Fail(r, _) => In(s, r) && !s.requests[r].phase.Closing?
    case Close(r) => In(s, r) && s.requests[r].phase.Closing?
    case PatchOrder(_, id, _) => id !in s.locks
    case RequestFinalPayment(_, id, _) => id !in s.locks
    case ConfirmFinalPayment(_, id, _) => id !in s.locks
    case RotateLink(_, id) => id !in s.locks
    case Observe(event) => !Structural(event.name)
    case Change(catalog) => PricesOk(catalog)
    case Crash => true
  }

  ghost function Next(s: State, step: Step): State {
    if !Enabled(s, step) then s
    else match step
      case Arrive(job) => DoArrive(s, job)
      case Lookup(r) => DoLookup(s, r)
      case Prepare(r) => DoPrepare(s, r)
      case CreateTx(r, id, rows, now) => DoCreate(s, r, id, rows, now)
      case BeginImport(r, rows) => DoBeginImport(s, r, rows)
      case Rename(r) => DoRename(s, r)
      case InsertImport(r, id, now) => DoInsertImport(s, r, id, now)
      case SecondLookup(r) => DoSecondLookup(s, r)
      case LockRow(r) => DoLockRow(s, r)
      case CommitRow(r, now) => DoCommitRow(s, r, now)
      case ListStale(r, ids) => Go(s, r, Marking(ids, []))
      case MarkNext(r) => DoMarkNext(s, r)
      case CommitSweep(r) => DoCommitSweep(s, r)
      case Fail(r, reason) => Finish(s, r, Refused(reason))
      case Close(r) => DoClose(s, r)
      case PatchOrder(admin, id, patch) => Write(s, Update(s.db, admin, Allowed(s, admin, id), id, patch))
      case RequestFinalPayment(admin, id, now) => DoRequestFinal(s, admin, id, now)
      case ConfirmFinalPayment(admin, id, now) => Write(s, ConfirmFinal(s.db, admin, Allowed(s, admin, id), id, now))
      case RotateLink(admin, id) =>
        Write(s, Rotate(s.db, Allowed(s, admin, id), id, s.nextReq)).(nextReq := s.nextReq + 1)
      case Observe(event) => s.(db := s.db.(events := Record(s.db.events, event)))
      case Change(catalog) => s.(catalog := catalog)
      case Crash => DoCrash(s)
  }

  /** The state after a run; a step that is not enabled waits, and changes nothing. */
  ghost function Run(catalog: Catalog, steps: seq<Step>): State {
    if steps == [] then Init(catalog)
    else Next(Run(catalog, steps[..|steps| - 1]), steps[|steps| - 1])
  }
}
