/** Each transaction of the ledger keeps the invariant, hence so does every run. */
module LedgerSafety {
  import opened Wrappers
  import opened Pricing
  import opened Customers
  import opened Intake
  import opened Orders
  import opened Ledger
  import opened LedgerInvariant
  import opened LedgerSteps

  // ---------------------------------------------------------------- lookups

  /** What a commit needs to know of the state it starts from. */
  lemma InvParts(s: State, r: ReqId)
    requires r in s.requests && Inv(s)
    ensures DbOk(s.db) && RefsUnique(s.db) && NamesOld(s) && ReqOk(s, r)
  {
  }

  lemma VisibleFacts(db: Db, c: Catalog, admin: AdminId, key: string)
    ensures Visible(db, c, admin, key).Some? ==>
              var id := Visible(db, c, admin, key).value;
              id in db.orders && db.orders[id].createKey == key && (admin, db.orders[id].shop) in c.access
    ensures Visible(db, c, admin, key).None? ==>
              forall id :: id in db.orders && db.orders[id].createKey == key ==>
                  (admin, db.orders[id].shop) !in c.access
  {
  }

  lemma RespondExistingOk(db: Db, id: OrderId, job: Job)
    requires id in db.orders && Creates(job) && db.orders[id].createKey == KeyOf(job)
    ensures CreatedOk(db, job, RespondExisting(db, id, job))
  {
  }

  lemma LookupKeeps(s: State, r: ReqId)
    requires r in s.requests && s.requests[r].phase.Started? && !s.requests[r].job.Sweep? && Inv(s)
    ensures Inv(DoLookup(s, r))
  {
    var job := s.requests[r].job;
    if Creates(job) {
      VisibleFacts(s.db, s.catalog, job.admin, KeyOf(job));
      match Visible(s.db, s.catalog, job.admin, KeyOf(job))
      case None => GoKeeps(s, r, Missing);
      case Some(id) =>
        RespondExistingOk(s.db, id, job);
        FinishKeeps(s, r, RespondExisting(s.db, id, job));
    } else {
      match PublicOrder(s.db, job.token)
      case None => FinishKeeps(s, r, Refused(NotFound));
      case Some(id) =>
        if job.SubmitDetails? && id in s.db.orders && s.db.orders[id].submittedAt.Some? {
          FinishKeeps(s, r, Refused(Conflict));
        } else {
          GoKeeps(s, r, Opened(id));
        }
    }
  }

  lemma SecondLookupKeeps(s: State, r: ReqId)
    requires r in s.requests && s.requests[r].phase.Lost? && Creates(s.requests[r].job) && Inv(s)
    ensures Inv(DoSecondLookup(s, r))
  {
    var job := s.requests[r].job;
    VisibleFacts(s.db, s.catalog, job.admin, KeyOf(job));
    match Visible(s.db, s.catalog, job.admin, KeyOf(job))
    case None => FinishKeeps(s, r, Refused(Conflict));
    case Some(id) =>
      RespondExistingOk(s.db, id, job);
      FinishKeeps(s, r, RespondExisting(s.db, id, job));
  }

  // ---------------------------------------------------------------- insertion

  /** The items carry the total that was checked. */
  lemma {:induction false} ItemsCarryTotal(rows: seq<Product>, lines: seq<Line>)
    requires Ids(rows) <= Quantities(lines).Keys
    ensures ItemsTotal(ItemsOf(rows, lines)) == ExactTotal(rows, Quantities(lines))
  {
    if rows != [] {
      var last := |rows| - 1;
      IdsOfPart(rows, last);
      assert rows[last].id in Ids(rows);
      ItemsCarryTotal(rows[..last], lines);
      assert ItemsOf(rows, lines)[..last] == ItemsOf(rows[..last], lines);
    }
  }

  /** The row a request inserts is fresh: amounts within the constraints, the ladder's lower rungs. */
  lemma NewRowFresh(r: ReqId, job: Job, payment: Payment, rows: seq<Product>, original: Option<int>, now: Time)
    requires Creates(job) && JobOk(job)
    requires job.Create? && original.Some? ==>
               original.value > Form(job).amount && original.value == ItemsTotal(ItemsOf(rows, LinesOf(job)))
    ensures var o := NewRow(r, job, payment, rows, original, now);
            && Fresh(o) && o.createKey == KeyOf(job) && o.fingerprint == PrintOf(job) && o.origin == r
            && o.receipt == (if NeedsFile(job) then Some(r) else None)
  {
  }

  lemma InsertNames(db: Db, id: OrderId, o: Order, admin: AdminId, r: ReqId)
    requires id !in db.orders && o.origin == r && o.finalReceipt.None? && (o.receipt == None || o.receipt == Some(r))
    requires RefsUnique(db) && Untouched(db, r) && DbEvolves(db, Insert(db, id, o, admin))
    ensures DbFrame(db, Insert(db, id, o, admin), r) && RefsUnique(Insert(db, id, o, admin))
    ensures Referenced(Insert(db, id, o, admin), r) <==> o.receipt.Some?
  {
    var after := Insert(db, id, o, admin);
    assert SlotGains(db, after, Slot(id, false), o.receipt) by {
      forall slot | slot != Slot(id, false) ensures SlotRef(after, slot) == SlotRef(db, slot) {
      }
    }
    SlotGainsFrame(db, after, Slot(id, false), r);
  }

  lemma InsertNamesOld(s: State, id: OrderId, o: Order, admin: AdminId, r: ReqId)
    requires NamesOld(s) && r < s.nextReq && id !in s.db.orders
    requires o.origin == r && o.finalReceipt.None? && (o.receipt == None || o.receipt == Some(r))
    ensures NamesOld(s.(db := Insert(s.db, id, o, admin)))
  {
    var after := Insert(s.db, id, o, admin);
    forall slot | SlotRef(after, slot).Some? ensures SlotRef(after, slot).value < s.nextReq {
      assert slot.id != id ==> SlotRef(after, slot) == SlotRef(s.db, slot);
    }
  }

  lemma InsertedRequestOnly(db: Db, id: OrderId, o: Order, admin: AdminId, r: ReqId, f: Fingerprint)
    requires Untouched(db, r)
    ensures InsertsOnly(Insert(db, id, o, admin), r, Created(id, f))
  {
  }

  /** A row locked by someone is not the row inserted. */
  lemma InsertSparesLocked(s: State, r: ReqId, id: OrderId, o: Order, admin: AdminId)
    requires id !in s.db.orders
    ensures forall x :: x in s.locks && s.locks[x] != r && x in s.db.orders ==>
              x in Insert(s.db, id, o, admin).orders && Insert(s.db, id, o, admin).orders[x] == s.db.orders[x]
  {
  }

  lemma InsertedReplyOk(db: Db, id: OrderId, o: Order, job: Job)
    requires Creates(job) && o.createKey == KeyOf(job) && o.fingerprint == PrintOf(job)
    ensures CreatedOk(Insert(db, id, o, job.admin), job, Created(id, PrintOf(job)))
  {
  }

  lemma InsertCommitOk(s: State, r: ReqId, id: OrderId, o: Order)
    requires r in s.requests && r < s.nextReq && Creates(s.requests[r].job) && Untouched(s.db, r)
    requires id !in s.db.orders && o.finalReceipt.None? && o.origin == r
    requires o.createKey == KeyOf(s.requests[r].job) && o.fingerprint == PrintOf(s.requests[r].job)
    requires s.requests[r].image == (if NeedsFile(s.requests[r].job) then Renamed else NoImage)
    requires o.receipt == (if NeedsFile(s.requests[r].job) then Some(r) else None)
    requires DbOk(Insert(s.db, id, o, s.requests[r].job.admin))
             && DbEvolves(s.db, Insert(s.db, id, o, s.requests[r].job.admin))
    requires RefsUnique(s.db) && NamesOld(s)
    ensures var job := s.requests[r].job;
            CommitOk(s, r, Insert(s.db, id, o, job.admin), Created(id, PrintOf(job)))
  {
    hide DbOk, DbEvolves;
    var job := s.requests[r].job;
    InsertSparesLocked(s, r, id, o, job.admin);
    InsertedReplyOk(s.db, id, o, job);
    InsertedRequestOnly(s.db, id, o, job.admin, r, PrintOf(job));
    hide PrintOf, KeyOf, CreatedOk, InsertsOnly;
    InsertNames(s.db, id, o, job.admin, r);
    InsertNamesOld(s, id, o, job.admin, r);
    hide Insert, DbFrame, RefsUnique, NamesOld, Untouched, Referenced;
  }

  /** Insert-or-lose, common to both creation paths. */
  lemma TryInsertKeeps(s: State, r: ReqId, id: OrderId, o: Order)
    requires r in s.requests && Creates(s.requests[r].job) && !s.requests[r].phase.Closing?
    requires s.requests[r].phase.Missing? || s.requests[r].phase.Checked?
    requires id !in s.db.orders && Fresh(o) && o.origin == r
    requires o.createKey == KeyOf(s.requests[r].job) && o.fingerprint == PrintOf(s.requests[r].job)
    requires s.requests[r].image == (if NeedsFile(s.requests[r].job) then Renamed else NoImage)
    requires o.receipt == (if NeedsFile(s.requests[r].job) then Some(r) else None)
    requires Inv(s)
    ensures match TryInsert(s.db, id, o, s.requests[r].job.admin)
            case None => Inv(Go(s, r, Lost))
            case Some(db) => Inv(Commit(s, r, db, Created(id, PrintOf(s.requests[r].job))))
  {
    assert ReqOk(s, r);
    if KeyTaken(s.db, o.createKey) {
      GoKeeps(s, r, Lost);
    } else {
      var job := s.requests[r].job;
      InsertKeeps(s.db, id, o, job.admin);
      InsertCommitOk(s, r, id, o);
      CommitKeeps(s, r, Insert(s.db, id, o, job.admin), Created(id, PrintOf(job)));
    }
  }

  lemma CreateKeeps(s: State, r: ReqId, id: OrderId, rows: seq<Product>, now: Time)
    requires r in s.requests && s.requests[r].job.Create? && s.requests[r].phase.Missing? && JobOk(s.requests[r].job)
    requires Loaded(s.catalog, LinesOf(s.requests[r].job), ShopOf(s.requests[r].job), rows)
    requires id !in s.db.orders && Inv(s)
    ensures Inv(DoCreate(s, r, id, rows, now))
  {
    hide Inv;
    var job := s.requests[r].job;
    assert s.requests[r].image == NoImage by {
      InvParts(s, r);
    }
    hide Fresh, DbOk;
    LoadedIsRequested(s.catalog, LinesOf(job), ShopOf(job), rows);
    match LockedActiveShop(s.catalog, job.admin, ShopOf(job))
    case Rejected(reason) => FinishKeeps(s, r, Refused(reason));
    case Done(shop) =>
      if |rows| != |LinesOf(job)| {
        FinishKeeps(s, r, Refused(NotFound));
      } else {
        match CheckedTotal(rows, Quantities(LinesOf(job)))
        case None => FinishKeeps(s, r, Refused(BadRequest));
        case Some(total) =>
          var original := StoredOriginal(Form(job).amount, total);
          ItemsCarryTotal(rows, LinesOf(job));
          NewRowFresh(r, job, shop.payment, rows, original, now);
          TryInsertKeeps(s, r, id, NewRow(r, job, shop.payment, rows, original, now));
      }
  }

  lemma BeginImportKeeps(s: State, r: ReqId, rows: seq<Product>)
    requires r in s.requests && s.requests[r].job.Import? && s.requests[r].phase.Missing? && Inv(s)
    ensures Inv(DoBeginImport(s, r, rows))
  {
    var job := s.requests[r].job;
    match LockedActiveShop(s.catalog, job.admin, ShopOf(job))
    case Rejected(reason) => FinishKeeps(s, r, Refused(reason));
    case Done(shop) =>
      if |rows| != |LinesOf(job)| {
        FinishKeeps(s, r, Refused(NotFound));
      } else {
        GoKeeps(s, r, Checked(shop.payment, rows));
      }
  }

  lemma InsertImportKeeps(s: State, r: ReqId, id: OrderId, now: Time)
    requires r in s.requests && s.requests[r].job.Import? && s.requests[r].phase.Checked? && JobOk(s.requests[r].job)
    requires NeedsFile(s.requests[r].job) ==> s.requests[r].image == Renamed
    requires id !in s.db.orders && Inv(s)
    ensures Inv(DoInsertImport(s, r, id, now))
  {
    var q := s.requests[r];
    assert ReqOk(s, r);
    NewRowFresh(r, q.job, q.phase.payment, q.phase.rows, None, now);
    TryInsertKeeps(s, r, id, NewRow(r, q.job, q.phase.payment, q.phase.rows, None, now));
  }

  // ---------------------------------------------------------------- locked submissions

  lemma LockRowKeeps(s: State, r: ReqId)
    requires r in s.requests && s.requests[r].phase.Opened? && s.requests[r].phase.id !in s.locks && Inv(s)
    ensures Inv(DoLockRow(s, r))
  {
    var q := s.requests[r];
    var id := q.phase.id;
    assert ReqOk(s, r);
    match CheckRow(s.db, q.job, id)
    case Rejected(reason) => FinishKeeps(s, r, Refused(reason));
    case Done(_) => LockKeeps(s, r, Locked(id), id);
  }

  lemma SubmissionNamesOld(s: State, r: ReqId, id: OrderId, db: Db, slot: Slot)
    requires NamesOld(s) && r < s.nextReq && SlotGains(s.db, db, slot, Some(r))
    requires db.orders.Keys == s.db.orders.Keys
    requires forall x :: x in s.db.orders ==> db.orders[x].origin == s.db.orders[x].origin
    ensures NamesOld(s.(db := db))
    ensures Untouched(s.db, r) ==> InsertsOnly(db, r, Accepted)
  {
    forall other | SlotRef(db, other).Some? ensures SlotRef(db, other).value < s.nextReq {
      assert other != slot ==> SlotRef(db, other) == SlotRef(s.db, other);
    }
  }

  /** The receipt column a locked submission fills is still empty when it commits. */
  lemma SubmissionNames(s: State, r: ReqId, id: OrderId, db: Db, slot: Slot)
    requires r in s.requests && s.requests[r].phase == Locked(id) && s.requests[r].image == Renamed
    requires id in s.db.orders && slot.id == id && SlotGains(s.db, db, slot, Some(r))
    requires DbOk(db) && DbEvolves(s.db, db) && db.orders.Keys == s.db.orders.Keys
    requires forall x :: x in s.db.orders && x != id ==> db.orders[x] == s.db.orders[x]
    requires RefsUnique(s.db) && NamesOld(s) && ReqOk(s, r)
    ensures CommitOk(s, r, db, Accepted)
  {
    hide DbOk;
    assert Holds(s.requests[r], id);
    SlotGainsFrame(s.db, db, slot, r);
    forall x | x in s.db.orders ensures db.orders[x].origin == s.db.orders[x].origin {
      assert RowEvolves(s.db.orders[x], db.orders[x]);
    }
    SubmissionNamesOld(s, r, id, db, slot);
  }

  lemma SubmitSlot(s: State, r: ReqId, id: OrderId, details: Details, now: Time)
    requires id in s.db.orders && s.db.orders[id].submittedAt.None? && RowsOk(s.db)
    ensures SlotGains(s.db, Submit(s.db, id, details, r, now), Slot(id, false), Some(r))
  {
    assert RowOk(s.db.orders[id], s.db.history, id);
  }

  lemma LockedIsSecured(s: State, r: ReqId)
    requires r in s.requests && s.requests[r].phase.Locked? && ReqOk(s, r)
    ensures Secured(s.db, s.requests[r], s.requests[r].phase.id)
  {
    assert Holds(s.requests[r], s.requests[r].phase.id);
  }

  lemma SubmitCommitKeeps(s: State, r: ReqId, details: Details, now: Time)
    requires r in s.requests && s.requests[r].phase.Locked? && s.requests[r].image == Renamed
    requires s.requests[r].job.SubmitDetails? && s.requests[r].job.details == details && Inv(s)
    ensures var id := s.requests[r].phase.id;
            && id in s.db.orders && s.db.orders[id].submittedAt.None? && s.db.orders[id].status == WaitingInfo
            && Inv(Commit(s, r, Submit(s.db, id, details, r, now), Accepted))
  {
    hide Inv, DbOk;
    var id := s.requests[r].phase.id;
    InvParts(s, r);
    LockedIsSecured(s, r);
    SubmitKeeps(s.db, id, details, r, now);
    SubmitSlot(s, r, id, details, now);
    SubmissionNames(s, r, id, Submit(s.db, id, details, r, now), Slot(id, false));
    CommitKeeps(s, r, Submit(s.db, id, details, r, now), Accepted);
  }

  lemma SubmitFinalSlot(s: State, r: ReqId, id: OrderId)
    requires id in s.db.orders && s.db.orders[id].finalReceipt.None?
    ensures SlotGains(s.db, SubmitFinal(s.db, id, r), Slot(id, true), Some(r))
  {
  }

  lemma FinalCommitKeeps(s: State, r: ReqId)
    requires r in s.requests && s.requests[r].phase.Locked? && s.requests[r].image == Renamed
    requires s.requests[r].job.SubmitFinalReceipt? && Inv(s)
    ensures var id := s.requests[r].phase.id;
            id in s.db.orders && Inv(Commit(s, r, SubmitFinal(s.db, id, r), Accepted))
  {
    hide Inv, DbOk;
    var id := s.requests[r].phase.id;
    InvParts(s, r);
    LockedIsSecured(s, r);
    SubmitFinalKeeps(s.db, id, r);
    SubmitFinalSlot(s, r, id);
    SubmissionNames(s, r, id, SubmitFinal(s.db, id, r), Slot(id, true));
    CommitKeeps(s, r, SubmitFinal(s.db, id, r), Accepted);
  }

  lemma CommitRowKeeps(s: State, r: ReqId, now: Time)
    requires r in s.requests && s.requests[r].phase.Locked? && s.requests[r].image == Renamed && Inv(s)
    ensures Inv(DoCommitRow(s, r, now))
  {
    hide Commit, Submit, SubmitFinal, JobOk, Secured, DbOk;
    assert ReqOk(s, r);
    match s.requests[r].job
    case SubmitDetails(_, details) => SubmitCommitKeeps(s, r, details, now);
    case SubmitFinalReceipt(_) => FinalCommitKeeps(s, r);
  }

  /** The details submission never meets its own RowsAffected check: under the lock the condition it
      repeats in the UPDATE still holds, so a submission that reaches its commit succeeds. */
  lemma LockedCommitSucceeds(s: State, r: ReqId, now: Time)
    requires r in s.requests && s.requests[r].phase.Locked? && s.requests[r].image == Renamed && Inv(s)
    ensures DoCommitRow(s, r, now).requests[r].phase == Closing(Accepted)
    ensures SlotRef(DoCommitRow(s, r, now).db, Slot(s.requests[r].phase.id, s.requests[r].job.SubmitFinalReceipt?))
            == Some(r)
  {
    var q := s.requests[r];
    assert ReqOk(s, r);
    assert Holds(q, q.phase.id) && Secured(s.db, q, q.phase.id);
  }

  // ---------------------------------------------------------------- the sweep

  lemma MarkingHolds(q: Request, id: OrderId)
    requires q.phase.Marking? && q.phase.todo != [] && Distinct(q.phase.marked) && id !in q.phase.marked
    ensures Distinct(q.phase.marked + [id])
    ensures forall x :: Holds(q.(phase := Marking(q.phase.todo[1..], q.phase.marked + [id])), x) <==>
            x == id || Holds(q, x)
    ensures forall x :: Holds(q.(phase := Marking(q.phase.todo[1..], q.phase.marked)), x) <==> Holds(q, x)
  {
  }

  lemma MarkedAreLocked(s: State, r: ReqId)
    requires r in s.requests && s.requests[r].phase.Marking? && ReqOk(s, r)
    ensures forall x :: x in s.requests[r].phase.marked ==> x in s.locks
    ensures Distinct(s.requests[r].phase.marked)
  {
    assert forall x :: x in s.requests[r].phase.marked ==> Holds(s.requests[r], x);
  }

  lemma MarkNextKeeps(s: State, r: ReqId)
    requires r in s.requests && s.requests[r].job.Sweep? && s.requests[r].phase.Marking?
             && s.requests[r].phase.todo != []
    requires s.requests[r].phase.todo[0] !in s.locks && Inv(s)
    ensures Inv(DoMarkNext(s, r))
  {
    var q := s.requests[r];
    var Marking(todo, marked) := q.phase;
    var id := todo[0];
    hide Inv;
    InvParts(s, r);
    MarkedAreLocked(s, r);
    hide ReqOk, DbOk;
    MarkingHolds(q, id);
    if id in s.db.orders && Stale(s.db.orders[id], q.job.cutoff) {
      LockKeeps(s, r, Marking(todo[1..], marked + [id]), id);
    } else {
      GoKeeps(s, r, Marking(todo[1..], marked));
    }
  }

  lemma {:induction false} CancelAllElsewhere(db: Db, ids: seq<OrderId>, cutoff: Time)
    ensures var after := CancelAll(db, ids, cutoff);
            && SlotsSame(db, after)
            && (forall id :: id in db.orders && id !in ids ==> after.orders[id] == db.orders[id])
  {
    if ids != [] {
      CancelAllElsewhere(db, ids[..|ids| - 1], cutoff);
    }
  }

  lemma SameSlotsNamesOld(s: State, db: Db)
    requires NamesOld(s) && SlotsSame(s.db, db)
    ensures NamesOld(s.(db := db))
  {
    assert forall slot :: SlotRef(db, slot) == SlotRef(s.db, slot);
  }

  lemma SweepCommitOk(s: State, r: ReqId)
    requires r in s.requests && s.requests[r].job.Sweep? && s.requests[r].phase.Marking?
    requires DbOk(s.db) && RefsUnique(s.db) && NamesOld(s) && ReqOk(s, r)
    ensures var q := s.requests[r];
            CommitOk(s, r, CancelAll(s.db, q.phase.marked, q.job.cutoff), Swept(|q.phase.marked|))
  {
    hide DbOk;
    var q := s.requests[r];
    var marked := q.phase.marked;
    var db := CancelAll(s.db, marked, q.job.cutoff);
    CancelAllKeeps(s.db, marked, q.job.cutoff);
    CancelAllElsewhere(s.db, marked, q.job.cutoff);
    SlotsSameFrame(s.db, db, r);
    SameSlotsNamesOld(s, db);
    assert forall id :: id in marked ==> Holds(q, id);
  }

  lemma CommitSweepKeeps(s: State, r: ReqId)
    requires r in s.requests && s.requests[r].job.Sweep? && s.requests[r].phase.Marking? && Inv(s)
    ensures Inv(DoCommitSweep(s, r))
  {
    var q := s.requests[r];
    assert ReqOk(s, r);
    SweepCommitOk(s, r);
    CommitKeeps(s, r, CancelAll(s.db, q.phase.marked, q.job.cutoff), Swept(|q.phase.marked|));
  }

  // ---------------------------------------------------------------- single-step transactions

  /** Only row id may differ, and not in its receipt columns. */
  ghost predicate OnlyRow(before: Db, after: Db, id: OrderId) {
    SlotsSame(before, after) && forall x :: x in before.orders && x != id ==> after.orders[x] == before.orders[x]
  }

  lemma WriteOutcomeKeeps(s: State, outcome: Outcome<Db>, id: OrderId)
    requires id !in s.locks
    requires outcome.Done? ==> DbOk(outcome.value) && DbEvolves(s.db, outcome.value) && OnlyRow(s.db, outcome.value, id)
    requires Inv(s)
    ensures Inv(Write(s, outcome))
  {
    if outcome.Done? {
      WriteKeeps(s, outcome.value, s.nextReq);
    }
  }

  lemma UpdateOnlyRow(db: Db, admin: AdminId, allowed: bool, id: OrderId, patch: Patch)
    requires Update(db, admin, allowed, id, patch).Done?
    ensures OnlyRow(db, Update(db, admin, allowed, id, patch).value, id)
  {
  }

  lemma PatchKeeps(s: State, admin: AdminId, id: OrderId, patch: Patch)
    requires id !in s.locks && Inv(s)
    ensures Inv(Write(s, Update(s.db, admin, Allowed(s, admin, id), id, patch)))
  {
    var allowed := Allowed(s, admin, id);
    if Update(s.db, admin, allowed, id, patch).Done? {
      UpdateKeeps(s.db, admin, allowed, id, patch);
      UpdateOnlyRow(s.db, admin, allowed, id, patch);
    }
    WriteOutcomeKeeps(s, Update(s.db, admin, allowed, id, patch), id);
  }

  lemma RequestFinalOnlyRow(db: Db, allowed: bool, id: OrderId, payment: Payment, now: Time)
    requires RequestFinal(db, allowed, id, payment, now).Done?
    ensures OnlyRow(db, RequestFinal(db, allowed, id, payment, now).value, id)
  {
  }

  lemma RequestFinalPaymentKeeps(s: State, admin: AdminId, id: OrderId, now: Time)
    requires id !in s.locks && Inv(s)
    ensures Inv(DoRequestFinal(s, admin, id, now))
  {
    if id in s.db.orders && s.db.orders[id].shop in s.catalog.shops {
      var payment := s.catalog.shops[s.db.orders[id].shop].payment;
      var allowed := Allowed(s, admin, id);
      if RequestFinal(s.db, allowed, id, payment, now).Done? {
        RequestFinalKeeps(s.db, allowed, id, payment, now);
        RequestFinalOnlyRow(s.db, allowed, id, payment, now);
      }
      WriteOutcomeKeeps(s, RequestFinal(s.db, allowed, id, payment, now), id);
    }
  }

  lemma ConfirmFinalOnlyRow(db: Db, admin: AdminId, allowed: bool, id: OrderId, now: Time)
    requires ConfirmFinal(db, admin, allowed, id, now).Done?
    ensures OnlyRow(db, ConfirmFinal(db, admin, allowed, id, now).value, id)
  {
  }

  lemma ConfirmFinalPaymentKeeps(s: State, admin: AdminId, id: OrderId, now: Time)
    requires id !in s.locks && Inv(s)
    ensures Inv(Write(s, ConfirmFinal(s.db, admin, Allowed(s, admin, id), id, now)))
  {
    var allowed := Allowed(s, admin, id);
    if ConfirmFinal(s.db, admin, allowed, id, now).Done? {
      ConfirmFinalKeeps(s.db, admin, allowed, id, now);
      ConfirmFinalOnlyRow(s.db, admin, allowed, id, now);
    }
    WriteOutcomeKeeps(s, ConfirmFinal(s.db, admin, allowed, id, now), id);
  }

  lemma RotateOnlyRow(db: Db, allowed: bool, id: OrderId, token: Token)
    requires Rotate(db, allowed, id, token).Done?
    ensures OnlyRow(db, Rotate(db, allowed, id, token).value, id)
  {
  }

  lemma RotateLinkKeeps(s: State, admin: AdminId, id: OrderId)
    requires id !in s.locks && Inv(s)
    ensures Inv(Write(s, Rotate(s.db, Allowed(s, admin, id), id, s.nextReq)).(nextReq := s.nextReq + 1))
  {
    var allowed := Allowed(s, admin, id);
    var t := Write(s, Rotate(s.db, allowed, id, s.nextReq));
    if Rotate(s.db, allowed, id, s.nextReq).Done? {
      RotateKeeps(s.db, allowed, id, s.nextReq);
      RotateOnlyRow(s.db, allowed, id, s.nextReq);
    }
    WriteOutcomeKeeps(s, Rotate(s.db, allowed, id, s.nextReq), id);
    SameDbFrame(t.db, s.nextReq);
    WriteKeeps(t, t.db, s.nextReq + 1);
  }

  lemma ObserveKeeps(s: State, event: Event)
    requires !Structural(event.name) && Inv(s)
    ensures Inv(s.(db := s.db.(events := Record(s.db.events, event))))
  {
    TelemetryKeeps(s.db, event);
    WriteKeeps(s, s.db.(events := Record(s.db.events, event)), s.nextReq);
  }

  lemma ChangeKeeps(s: State, catalog: Catalog)
    requires PricesOk(catalog) && Inv(s)
    ensures Inv(s.(catalog := catalog))
  {
    var t := s.(catalog := catalog);
    var r := s.nextReq;
    RequestsBelow(s);
    NoReplyYet(s, r);
    SameDbFrame(s.db, r);
    AllLockedRowsExist(s);
    assert LocksFrame(s, t, r);
    forall f: FileName | f.req == r ensures f in t.files <==> Accounted(t, f) {
      assert f in s.files <==> Accounted(s, f);
      assert OwnsFile(t, f) <==> OwnsFile(s, f);
    }
    FrameRule(s, t, r);
  }

  // ---------------------------------------------------------------- every step, every run

  /** Steps of a request on its own behalf that create an order, or that any request takes. */
  predicate Creating(step: Step) {
    match step
    case Arrive(_) => true
    case Lookup(_) => true
    case CreateTx(_, _, _, _) => true
    case BeginImport(_, _) => true
    case InsertImport(_, _, _) => true
    case SecondLookup(_) => true
    case Fail(_, _) => true
    case Close(_) => true
    case _ => false
  }

  /** Steps that move a receipt file, or hold row locks across several steps. */
  predicate Holding(step: Step) {
    match step
    case Prepare(_) => true
    case Rename(_) => true
    case LockRow(_) => true
    case CommitRow(_, _) => true
    case ListStale(_, _) => true
    case MarkNext(_) => true
    case CommitSweep(_) => true
    case _ => false
  }

  lemma CreatingStepKeeps(s: State, step: Step)
    requires Creating(step) && Enabled(s, step) && Inv(s)
    ensures Inv(Next(s, step))
  {
    hide Inv;
    match step
    case Arrive(job) => ArriveKeeps(s, job);
    case Lookup(r) => LookupKeeps(s, r);
    case CreateTx(r, id, rows, now) => CreateKeeps(s, r, id, rows, now);
    case BeginImport(r, rows) => BeginImportKeeps(s, r, rows);
    case InsertImport(r, id, now) => InsertImportKeeps(s, r, id, now);
    case SecondLookup(r) => SecondLookupKeeps(s, r);
    case Fail(r, reason) => FinishKeeps(s, r, Refused(reason));
    case Close(r) => CloseKeeps(s, r);
  }

  lemma HoldingStepKeeps(s: State, step: Step)
    requires Holding(step) && Enabled(s, step) && Inv(s)
    ensures Inv(Next(s, step))
  {
    hide Inv;
    match step
    case Prepare(r) => PrepareKeeps(s, r);
    case Rename(r) => RenameKeeps(s, r);
    case LockRow(r) => LockRowKeeps(s, r);
    case CommitRow(r, now) => CommitRowKeeps(s, r, now);
    case ListStale(r, ids) => GoKeeps(s, r, Marking(ids, []));
    case MarkNext(r) => MarkNextKeeps(s, r);
    case CommitSweep(r) => CommitSweepKeeps(s, r);
  }

  lemma OtherStepKeeps(s: State, step: Step)
    requires !Creating(step) && !Holding(step) && Enabled(s, step) && Inv(s)
    ensures Inv(Next(s, step))
  {
    hide Inv;
    match step
    case PatchOrder(admin, id, patch) => PatchKeeps(s, admin, id, patch);
    case RequestFinalPayment(admin, id, now) => RequestFinalPaymentKeeps(s, admin, id, now);
    case ConfirmFinalPayment(admin, id, now) => ConfirmFinalPaymentKeeps(s, admin, id, now);
    case RotateLink(admin, id) => RotateLinkKeeps(s, admin, id);
    case Observe(event) => ObserveKeeps(s, event);
    case Change(catalog) => ChangeKeeps(s, catalog);
    case Crash => CrashKeeps(s);
  }

  /** Every step of every request, the catalog and the process keeps the invariant. */
  lemma StepKeeps(s: State, step: Step)
    requires Inv(s)
    ensures Inv(Next(s, step))
  {
    hide Inv;
    if Enabled(s, step) {
      if Creating(step) { CreatingStepKeeps(s, step); }
      else if Holding(step) { HoldingStepKeeps(s, step); }
      else { OtherStepKeeps(s, step); }
    }
  }

  lemma {:induction false} RunKeeps(catalog: Catalog, steps: seq<Step>)
    requires PricesOk(catalog)
    ensures Inv(Run(catalog, steps))
  {
    if steps == [] {
      InitInv(catalog);
    } else {
      RunKeeps(catalog, steps[..|steps| - 1]);
      StepKeeps(Run(catalog, steps[..|steps| - 1]), steps[|steps| - 1]);
    }
  }
}
