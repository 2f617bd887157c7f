/** What the ledger guarantees in every run, under every interleaving of its requests. */
module LedgerTheorems {
  import opened Wrappers
  import opened Pricing
  import opened Customers
  import opened Intake
  import opened Orders
  import opened Ledger
  import opened LedgerInvariant
  import opened LedgerSteps
  import opened LedgerSafety

  // ---------------------------------------------------------------- idempotent creation

  /** At most one order exists per create key. */
  lemma OneOrderPerKey(catalog: Catalog, steps: seq<Step>, a: OrderId, b: OrderId)
    requires PricesOk(catalog)
    requires var db := Run(catalog, steps).db;
             a in db.orders && b in db.orders && db.orders[a].createKey == db.orders[b].createKey
    ensures a == b
  {
    RunKeeps(catalog, steps);
  }

  /** Every 201 response names an order that carries its request's key and fingerprint, and two of
      them name the same order exactly when their requests have the same key. */
  lemma CreatedResponsesAgree(catalog: Catalog, steps: seq<Step>, i: nat, j: nat)
    requires PricesOk(catalog)
    requires var replies := Run(catalog, steps).replies;
             i < |replies| && j < |replies| && replies[i].reply.Created? && replies[j].reply.Created?
    ensures var s := Run(catalog, steps);
            var p, q := s.replies[i], s.replies[j];
            && Creates(p.job) && Creates(q.job) && p.reply.id in s.db.orders
            && s.db.orders[p.reply.id].createKey == KeyOf(p.job)
            && s.db.orders[p.reply.id].fingerprint == p.reply.fingerprint == PrintOf(p.job)
            && (KeyOf(p.job) == KeyOf(q.job) <==> p.reply.id == q.reply.id)
            && (KeyOf(p.job) == KeyOf(q.job) ==> PrintOf(p.job) == PrintOf(q.job))
  {
    RunKeeps(catalog, steps);
    hide Run, JobOk, KeyOf, PrintOf;
    var s := Run(catalog, steps);
    assert ResponseOk(s, s.replies[i]) && ResponseOk(s, s.replies[j]);
  }

  /** The request behind a response had passed its handler's own checks. */
  lemma AnsweredJobsWereChecked(catalog: Catalog, steps: seq<Step>, i: nat)
    requires PricesOk(catalog) && i < |Run(catalog, steps).replies|
    ensures JobOk(Run(catalog, steps).replies[i].job)
  {
    RunKeeps(catalog, steps);
    hide Run, JobOk;
    assert ResponseOk(Run(catalog, steps), Run(catalog, steps).replies[i]);
  }

  lemma SamePrintSameRequest(p: Job, q: Job)
    requires JobOk(p) && Creates(p) && Creates(q) && PrintOf(p) == PrintOf(q)
    ensures || (p.Create? && q.Create? && SameNormal(p.normal, q.normal))
            || (p.Import? && q.Import? && SameHistorical(p.historical, p.file, q.historical, q.file))
  {
    if p.Create? && q.Create? {
      AcceptedItemsDistinct(p.normal, true);
      NormalFingerprintIff(p.normal, q.normal);
    } else if p.Create? {
      KindsNeverCoincide(Form(p), ImportForm(q), q.file);
    } else if q.Create? {
      KindsNeverCoincide(Form(q), ImportForm(p), p.file);
    } else {
      DistinctBackwards(p.historical.items);
      HistoricalFingerprintIff(p.historical, p.file, q.historical, q.file);
    }
  }

  /** Two 201 responses for one key answered requests for the same order: both normal with the same
      normalised fields up to item order, or both imports with the same fields and receipt. */
  lemma CreatedRequestsAgree(catalog: Catalog, steps: seq<Step>, i: nat, j: nat)
    requires PricesOk(catalog)
    requires var replies := Run(catalog, steps).replies;
             i < |replies| && j < |replies| && replies[i].reply.Created? && replies[j].reply.Created?
    ensures var p, q := Run(catalog, steps).replies[i].job, Run(catalog, steps).replies[j].job;
            && Creates(p) && Creates(q)
            && (KeyOf(p) == KeyOf(q) ==>
                  || (p.Create? && q.Create? && SameNormal(p.normal, q.normal))
                  || (p.Import? && q.Import? && SameHistorical(p.historical, p.file, q.historical, q.file)))
  {
    CreatedResponsesAgree(catalog, steps, i, j);
    AnsweredJobsWereChecked(catalog, steps, i);
    hide Run, JobOk, KeyOf, PrintOf, SameNormal, SameHistorical;
    var p, q := Run(catalog, steps).replies[i].job, Run(catalog, steps).replies[j].job;
    if KeyOf(p) == KeyOf(q) {
      SamePrintSameRequest(p, q);
    }
  }

  /** A request refused for whatever reason, or answered with another request's order, leaves no row
      behind (hence no item, history entry or creation event), and no file no row names. */
  lemma LosersLeaveNothing(catalog: Catalog, steps: seq<Step>, i: nat)
    requires PricesOk(catalog) && i < |Run(catalog, steps).replies|
    ensures var s := Run(catalog, steps);
            var p := s.replies[i];
            && (forall id :: id in s.db.orders && s.db.orders[id].origin == p.req ==>
                  p.reply.Created? && p.reply.id == id)
            && (forall f :: f in s.files && f.req == p.req ==> f.Stored? && Referenced(s.db, p.req))
  {
    RunKeeps(catalog, steps);
    var s := Run(catalog, steps);
    assert ResponseOk(s, s.replies[i]);
  }

  lemma SecondLookupAnswer(s: State, r: ReqId, id: OrderId)
    requires r in s.requests && Creates(s.requests[r].job) && KeysOk(s.db)
    requires id in s.db.orders && s.db.orders[id].createKey == KeyOf(s.requests[r].job)
    ensures var job := s.requests[r].job;
            DoSecondLookup(s, r).requests[r].phase
            == Closing(if (job.admin, s.db.orders[id].shop) in s.catalog.access
                && s.db.orders[id].fingerprint == PrintOf(job)
                       then Created(id, PrintOf(job)) else Refused(Conflict))
  {
    var job := s.requests[r].job;
    var found := Visible(s.db, s.catalog, job.admin, KeyOf(job));
    VisibleFacts(s.db, s.catalog, job.admin, KeyOf(job));
    assert found.Some? ==> found.value == id;
  }

  /** The loser of the insert race: an order with its key exists, and the second lookup answers 201
      for that order exactly when the admin may see it and it carries the loser's fingerprint, and
      409 otherwise. */
  lemma LoserIsAnswered(catalog: Catalog, steps: seq<Step>, r: ReqId)
    requires PricesOk(catalog)
    requires var s := Run(catalog, steps); r in s.requests && s.requests[r].phase.Lost? && Creates(s.requests[r].job)
    ensures var s := Run(catalog, steps);
            var job := s.requests[r].job;
            exists id ::
              && id in s.db.orders && s.db.orders[id].createKey == KeyOf(job) && s.db.orders[id].origin != r
              && DoSecondLookup(s, r).requests[r].phase
                 == Closing(if (job.admin, s.db.orders[id].shop) in s.catalog.access
                     && s.db.orders[id].fingerprint == PrintOf(job)
                            then Created(id, PrintOf(job)) else Refused(Conflict))
  {
    RunKeeps(catalog, steps);
    hide Run;
    var s := Run(catalog, steps);
    InvParts(s, r);
    hide Inv;
    var id :| id in s.db.orders && s.db.orders[id].createKey == KeyOf(s.requests[r].job);
    SecondLookupAnswer(s, r, id);
  }

  // ---------------------------------------------------------------- receipt files

  /** At every step, crashes included, every receipt name in the tables is an existing file, and no
      name is referred to twice. */
  lemma ReceiptsExist(catalog: Catalog, steps: seq<Step>, slot: Slot)
    requires PricesOk(catalog) && SlotRef(Run(catalog, steps).db, slot).Some?
    ensures var s := Run(catalog, steps);
            && Stored(SlotRef(s.db, slot).value) in s.files
            && (forall other :: SlotRef(s.db, other) == SlotRef(s.db, slot) ==> other == slot)
  {
    RunKeeps(catalog, steps);
    var s := Run(catalog, steps);
    assert Accounted(s, Stored(SlotRef(s.db, slot).value));
  }

  lemma CreatingKeepsOrphans(s: State, step: Step)
    requires Creating(step)
    ensures Next(s, step).orphans == s.orphans
  {
    hide Loaded, Visible, JobOk;
  }

  lemma HoldingKeepsOrphans(s: State, step: Step)
    requires Holding(step)
    ensures Next(s, step).orphans == s.orphans
  {
    hide Loaded, StaleIds;
  }

  lemma OnlyCrashesOrphan(s: State, step: Step)
    requires step != Crash
    ensures Next(s, step).orphans == s.orphans
  {
    hide Loaded, Update, RequestFinal, ConfirmFinal, Rotate;
    if Creating(step) { CreatingKeepsOrphans(s, step); }
    else if Holding(step) { HoldingKeepsOrphans(s, step); }
  }

  lemma {:induction false} NoCrashNoOrphans(catalog: Catalog, steps: seq<Step>)
    requires forall i :: 0 <= i < |steps| ==> steps[i] != Crash
    ensures Run(catalog, steps).orphans == {}
  {
    hide Next;
    if steps != [] {
      NoCrashNoOrphans(catalog, steps[..|steps| - 1]);
      OnlyCrashesOrphan(Run(catalog, steps[..|steps| - 1]), steps[|steps| - 1]);
    }
  }

  /** Without crashes, once no request is in flight the directory holds exactly the names in the tables. */
  lemma QuietDirectoryIsExact(catalog: Catalog, steps: seq<Step>)
    requires PricesOk(catalog) && Run(catalog, steps).requests == map[]
    requires forall i :: 0 <= i < |steps| ==> steps[i] != Crash
    ensures var s := Run(catalog, steps);
            forall f :: f in s.files <==> f.Stored? && Referenced(s.db, f.req)
  {
    RunKeeps(catalog, steps);
    NoCrashNoOrphans(catalog, steps);
    var s := Run(catalog, steps);
    forall f: FileName ensures f in s.files <==> f.Stored? && Referenced(s.db, f.req) {
      assert f in s.files <==> Accounted(s, f);
    }
  }

  // ---------------------------------------------------------------- the evidence ladder

  /** In every reachable state every order stands on its evidence. */
  lemma EvidenceLadder(catalog: Catalog, steps: seq<Step>, id: OrderId)
    requires PricesOk(catalog) && id in Run(catalog, steps).db.orders
    ensures var db := Run(catalog, steps).db;
            var o := db.orders[id];
            && (o.status == WaitingInfo ==> o.submittedAt.None?)
            && (o.status == WaitingPayment ==> o.receipt.Some?)
            && (o.receipt.Some? ==> o.submittedAt.Some?)
            && (o.submittedAt.Some? ==> ValidDetails(o.customer))
            && (o.confirmedAt.Some? ==> o.finalReceipt.Some?)
            && (o.finalReceipt.Some? ==> o.requestedAt.Some?)
            && (o.requestedAt.Some? ==> o.initialPayment.Some? && 0 < o.initialPayment.value < o.amount
                                        && o.submittedAt.Some? && o.receipt.Some? && PaidSeen(db.history, id))
            && (o.originalAmount.Some? ==> o.originalAmount.value == ItemsTotal(o.items) > o.amount)
  {
    RunKeeps(catalog, steps);
    var db := Run(catalog, steps).db;
    assert RowOk(db.orders[id], db.history, id);
  }

  /** A 64-bit total is what a normal creation compares with the asked amount: the struck-through
      price is stored exactly when the exact item total exceeds the amount, and the creation is
      refused exactly when that total does not fit. */
  lemma CreationPricing(s: State, r: ReqId, id: OrderId, rows: seq<Product>, now: Time)
    requires r in s.requests && s.requests[r].job.Create? && s.requests[r].phase.Missing? && JobOk(s.requests[r].job)
    requires Loaded(s.catalog, LinesOf(s.requests[r].job), ShopOf(s.requests[r].job), rows)
    requires id !in s.db.orders
    requires LockedActiveShop(s.catalog, s.requests[r].job.admin, ShopOf(s.requests[r].job)).Done?
    requires |rows| == |LinesOf(s.requests[r].job)|
    ensures var job := s.requests[r].job;
            var t := DoCreate(s, r, id, rows, now);
            var total := ItemsTotal(ItemsOf(rows, LinesOf(job)));
            && Ids(rows) == Products(LinesOf(job))
            && (total > MAX_INT64 <==> t.requests[r].phase == Closing(Refused(BadRequest)))
            && (id in t.db.orders ==>
                  && ItemsTotal(t.db.orders[id].items) == total
                  && t.db.orders[id].originalAmount == (if total > Form(job).amount then Some(total) else None))
  {
    var job := s.requests[r].job;
    LoadedIsRequested(s.catalog, LinesOf(job), ShopOf(job), rows);
    EqualCountsLoadEverything(LinesOf(job), rows);
    ItemsCarryTotal(rows, LinesOf(job));
  }

  // ---------------------------------------------------------------- write-once columns

  lemma CommitEvolves(s: State, r: ReqId, now: Time)
    requires r in s.requests && s.requests[r].phase.Locked? && s.requests[r].image == Renamed && Inv(s)
    ensures DbEvolves(s.db, DoCommitRow(s, r, now).db)
  {
    hide Inv;
    InvParts(s, r);
    LockedIsSecured(s, r);
    var id := s.requests[r].phase.id;
    match s.requests[r].job
    case SubmitDetails(_, details) => SubmitKeeps(s.db, id, details, r, now);
    case SubmitFinalReceipt(_) => SubmitFinalKeeps(s.db, id, r);
  }

  lemma CreateEvolves(s: State, r: ReqId, id: OrderId, rows: seq<Product>, now: Time)
    requires r in s.requests && s.requests[r].job.Create? && JobOk(s.requests[r].job)
    requires Loaded(s.catalog, LinesOf(s.requests[r].job), ShopOf(s.requests[r].job), rows)
    requires id !in s.db.orders && DbOk(s.db)
    ensures DbEvolves(s.db, DoCreate(s, r, id, rows, now).db)
  {
    hide DbOk, Fresh, Loaded;
    var job := s.requests[r].job;
    var lines := LinesOf(job);
    LoadedIsRequested(s.catalog, lines, ShopOf(job), rows);
    SameDbFrame(s.db, r);
    match LockedActiveShop(s.catalog, job.admin, ShopOf(job))
    case Rejected(_) =>
    case Done(shop) =>
      match CheckedTotal(rows, Quantities(lines))
      case None =>
      case Some(total) =>
        var original := StoredOriginal(Form(job).amount, total);
        var row := NewRow(r, job, shop.payment, rows, original, now);
        ItemsCarryTotal(rows, lines);
        NewRowFresh(r, job, shop.payment, rows, original, now);
        hide NewRow;
        if !KeyTaken(s.db, row.createKey) { InsertKeeps(s.db, id, row, job.admin); }
  }

  lemma InsertImportEvolves(s: State, r: ReqId, id: OrderId, now: Time)
    requires r in s.requests && s.requests[r].job.Import? && s.requests[r].phase.Checked? && JobOk(s.requests[r].job)
    requires id !in s.db.orders && DbOk(s.db)
    ensures DbEvolves(s.db, DoInsertImport(s, r, id, now).db)
  {
    SameDbFrame(s.db, r);
    var q := s.requests[r];
    var row := NewRow(r, q.job, q.phase.payment, q.phase.rows, None, now);
    if !KeyTaken(s.db, row.createKey) {
      NewRowFresh(r, q.job, q.phase.payment, q.phase.rows, None, now);
      InsertKeeps(s.db, id, row, q.job.admin);
    }
  }

  lemma WritesEvolve(s: State, step: Step)
    requires step.PatchOrder? || step.RequestFinalPayment? || step.ConfirmFinalPayment? || step.RotateLink?
             || step.Observe?
    requires DbOk(s.db) && Enabled(s, step)
    ensures DbEvolves(s.db, Next(s, step).db)
  {
    SameDbFrame(s.db, 0);
    if Next(s, step).db != s.db {
      hide DbOk, DbEvolves, Update, RequestFinal, ConfirmFinal, Rotate, Record;
      match step
      case PatchOrder(admin, id, patch) => UpdateKeeps(s.db, admin, Allowed(s, admin, id), id, patch);
      case RequestFinalPayment(admin, id, now) =>
        RequestFinalKeeps(s.db, Allowed(s, admin, id), id, s.catalog.shops[s.db.orders[id].shop].payment, now);
      case ConfirmFinalPayment(admin, id, now) => ConfirmFinalKeeps(s.db, admin, Allowed(s, admin, id), id, now);
      case RotateLink(admin, id) => RotateKeeps(s.db, Allowed(s, admin, id), id, s.nextReq);
      case Observe(event) => TelemetryKeeps(s.db, event);
    }
  }

  /** The steps that write to the tables. */
  predicate Writes(step: Step) {
    step.CreateTx? || step.InsertImport? || step.CommitRow? || step.CommitSweep? || step.PatchOrder?
    || step.RequestFinalPayment? || step.ConfirmFinalPayment? || step.RotateLink? || step.Observe?
  }

  lemma OthersOnlyRead(s: State, step: Step)
    requires !Writes(step)
    ensures Next(s, step).db == s.db
  {
    hide Loaded;
  }

  lemma RequestWritesEvolve(s: State, step: Step)
    requires step.CreateTx? || step.InsertImport? || step.CommitRow? || step.CommitSweep?
    requires Enabled(s, step) && Inv(s)
    ensures DbEvolves(s.db, Next(s, step).db)
  {
    hide DbOk, DbEvolves, Loaded, JobOk, DoCreate, DoInsertImport, DoCommitRow, CancelAll, ReqOk, ResponseOk, Accounted;
    assert DbOk(s.db);
    match step
    case CreateTx(r, id, rows, now) => CreateEvolves(s, r, id, rows, now);
    case InsertImport(r, id, now) => InsertImportEvolves(s, r, id, now);
    case CommitRow(r, now) => CommitEvolves(s, r, now);
    case CommitSweep(r) => CancelAllKeeps(s.db, s.requests[r].phase.marked, s.requests[r].job.cutoff);
  }

  /** No step rewrites a fixed column, undoes a milestone, or drops a history entry or an event. */
  lemma StepEvolves(s: State, step: Step)
    requires Inv(s)
    ensures DbEvolves(s.db, Next(s, step).db)
  {
    assert DbOk(s.db);
    SameDbFrame(s.db, 0);
    hide Inv, DbOk, DbEvolves;
    if !Writes(step) {
      OthersOnlyRead(s, step);
    } else if !Enabled(s, step) {
      assert Next(s, step) == s;
    } else {
      hide Enabled, Next;
      if step.CreateTx? || step.InsertImport? || step.CommitRow? || step.CommitSweep? {
        RequestWritesEvolve(s, step);
      } else {
        WritesEvolve(s, step);
      }
    }
  }

  /** Between any two moments of a run: amounts, items, both payment snapshots once taken, and every
      milestone stay as they are, and history and events only grow. */
  lemma {:induction false} MilestonesAreWriteOnce(catalog: Catalog, steps: seq<Step>, n: nat)
    requires PricesOk(catalog) && n <= |steps|
    ensures DbEvolves(Run(catalog, steps[..n]).db, Run(catalog, steps).db)
    decreases |steps|
  {
    if n == |steps| {
      assert steps[..n] == steps;
      SameDbFrame(Run(catalog, steps).db, 0);
    } else {
      var before := steps[..|steps| - 1];
      assert before[..n] == steps[..n];
      MilestonesAreWriteOnce(catalog, before, n);
      RunKeeps(catalog, before);
      StepEvolves(Run(catalog, before), steps[|steps| - 1]);
      EvolvesTransitive(Run(catalog, steps[..n]).db, Run(catalog, before).db, Run(catalog, steps).db);
    }
  }

  // ---------------------------------------------------------------- history and events

  /** Every order's history is a path from nothing to its current status, with one creation event
      and one status event per later entry. */
  lemma HistoryIsAPath(catalog: Catalog, steps: seq<Step>, id: OrderId)
    requires PricesOk(catalog) && id in Run(catalog, steps).db.orders
    ensures var db := Run(catalog, steps).db;
            var path := HistoryOf(db.history, id);
            && path != [] && path[0].previous == None && path[|path| - 1].status == db.orders[id].status
            && (forall i :: 0 < i < |path| ==>
                  path[i].previous == Some(path[i - 1].status) && path[i].status != path[i - 1].status)
            && CountEvents(db.events, OrderCreated, id) == 1
            && CountEvents(db.events, OrderStatusChanged, id) == |path| - 1
  {
    RunKeeps(catalog, steps);
    var db := Run(catalog, steps).db;
    assert PathOk(db.history, id, db.orders[id].status) && CountsOk(db, id);
  }

  // ---------------------------------------------------------------- the sweep against submissions

  lemma {:induction false} CancelAllExact(db: Db, ids: seq<OrderId>, cutoff: Time)
    requires Distinct(ids) && forall i :: 0 <= i < |ids| ==> ids[i] in db.orders && Stale(db.orders[ids[i]], cutoff)
    ensures var after := CancelAll(db, ids, cutoff);
            && after.orders.Keys == db.orders.Keys
            && (forall id :: id in db.orders ==>
                  after.orders[id] == if id in ids then db.orders[id].(status := Cancelled) else db.orders[id])
            && |after.history| == |db.history| + |ids|
  {
    if ids != [] {
      var front := ids[..|ids| - 1];
      CancelAllExact(db, front, cutoff);
      assert ids[|ids| - 1] !in front;
    }
  }

  lemma MarkedAreUnsubmitted(s: State, r: ReqId)
    requires r in s.requests && s.requests[r].job.Sweep? && s.requests[r].phase.Marking? && ReqOk(s, r) && RowsOk(s.db)
    ensures Distinct(s.requests[r].phase.marked)
    ensures forall id :: id in s.requests[r].phase.marked ==>
              id in s.db.orders && Stale(s.db.orders[id], s.requests[r].job.cutoff) && s.db.orders[id].submittedAt.None?
  {
    var q := s.requests[r];
    forall id | id in q.phase.marked ensures Secured(s.db, q, id) && LadderOk(s.db.orders[id]) {
      assert Holds(q, id);
      assert RowOk(s.db.orders[id], s.db.history, id);
    }
  }

  /** A sweep's commit cancels exactly the rows it marked, each of them waiting for information and
      never submitted, reports their number, and touches nothing else. */
  lemma SweepNeverCancelsASubmittedOrder(catalog: Catalog, steps: seq<Step>, r: ReqId)
    requires PricesOk(catalog)
    requires var s := Run(catalog, steps); r in s.requests && s.requests[r].job.Sweep? && s.requests[r].phase.Marking?
    ensures var s := Run(catalog, steps);
            var t := DoCommitSweep(s, r);
            var marked := s.requests[r].phase.marked;
            && (forall id :: id in marked ==>
                  && id in s.db.orders && s.db.orders[id].submittedAt.None? && s.db.orders[id].status == WaitingInfo
                  && s.db.orders[id].createdAt <= s.requests[r].job.cutoff
                  && id in t.db.orders && t.db.orders[id] == s.db.orders[id].(status := Cancelled))
            && (forall id :: id in s.db.orders && id !in marked ==>
                  id in t.db.orders && t.db.orders[id] == s.db.orders[id])
            && t.requests[r].phase == Closing(Swept(|marked|))
            && |t.db.history| == |s.db.history| + |marked|
  {
    hide Run, JobOk, RowOk;
    RunKeeps(catalog, steps);
    var s := Run(catalog, steps);
    assert RowsOk(s.db);
    InvParts(s, r);
    hide Inv, DbOk, RefsUnique, NamesOld, RowsOk;
    MarkedAreUnsubmitted(s, r);
    hide ReqOk, CancelAll;
    CancelAllExact(s.db, s.requests[r].phase.marked, s.requests[r].job.cutoff);
  }
}
