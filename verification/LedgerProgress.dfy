/** No request gets stuck: each has a step of its own to take or waits for a row lock, and with one
    sweep at a time, as the server runs it, the requests in flight are never all waiting. */
module LedgerProgress {
  import opened Wrappers
  import opened Pricing
  import opened Orders
  import opened Ledger
  import opened LedgerInvariant
  import opened LedgerSafety
  import opened LedgerLosers

  // ---------------------------------------------------------------- uploads fit phases

  predicate Apart(todo: seq<OrderId>, marked: seq<OrderId>) {
    && (forall i, j :: 0 <= i < j < |todo| ==> todo[i] != todo[j])
    && (forall i, j :: 0 <= i < |todo| && 0 <= j < |marked| ==> todo[i] != marked[j])
  }

  /** The upload a request has in each phase, and the rows a sweep has still to look at. */
  predicate UploadFits(q: Request) {
    match q.phase
    case Started => q.image == NoImage
    case Missing => q.image == NoImage || (q.image == Pending && NeedsFile(q.job))
    case Opened(_) => q.image == NoImage || q.image == Pending
    case Checked(_, _) => if NeedsFile(q.job) then q.image != NoImage else q.image == NoImage
    case Locked(_) => q.image != NoImage
    case Marking(todo, marked) => Apart(todo, marked)
    case _ => true
  }

  ghost predicate AllFit(s: State) {
    forall r :: r in s.requests ==> UploadFits(s.requests[r])
  }

  lemma LookupFits(s: State, step: Step, r: ReqId)
    requires (step.Lookup? || step.SecondLookup?) && (r in s.requests ==> UploadFits(s.requests[r]))
    requires r in Next(s, step).requests
    ensures UploadFits(Next(s, step).requests[r])
  {
    hide Visible, PublicOrder, PrintOf, KeyOf;
  }

  lemma InsertFits(s: State, step: Step, r: ReqId)
    requires step.CreateTx? || step.InsertImport?
    requires (r in s.requests ==> UploadFits(s.requests[r])) && r in Next(s, step).requests
    ensures UploadFits(Next(s, step).requests[r])
  {
    hide Loaded, JobOk, CreateTransaction, TryInsert, PrintOf, NewRow, LinesOf, ShopOf, KeyOf;
  }

  lemma CreatingFits(s: State, step: Step, r: ReqId)
    requires step.Arrive? || step.BeginImport? || step.Fail? || step.Close?
    requires (r in s.requests ==> UploadFits(s.requests[r])) && r in Next(s, step).requests
    ensures UploadFits(Next(s, step).requests[r])
  {
    hide Loaded, JobOk, LockedActiveShop, LinesOf, ShopOf;
  }

  lemma HoldingFits(s: State, step: Step, r: ReqId)
    requires Holding(step) && PhaseFitsAll(s)
    requires (r in s.requests ==> UploadFits(s.requests[r])) && r in Next(s, step).requests
    ensures UploadFits(Next(s, step).requests[r])
  {
    hide Loaded, StaleIds, JobOk, CancelAll, CheckRow, Submit, SubmitFinal, Stale;
  }

  ghost predicate PhaseFitsAll(s: State) {
    forall r :: r in s.requests ==> PhaseFits(s.requests[r])
  }

  lemma OthersFit(s: State, step: Step, r: ReqId)
    requires !Creating(step) && !Holding(step)
    requires (r in s.requests ==> UploadFits(s.requests[r])) && r in Next(s, step).requests
    ensures UploadFits(Next(s, step).requests[r])
  {
    hide Loaded, JobOk, Update, RequestFinal, ConfirmFinal, Rotate, Record;
  }

  lemma PhasesFit(s: State)
    requires ReqsOk(s)
    ensures PhaseFitsAll(s)
  {
    forall r | r in s.requests ensures PhaseFits(s.requests[r]) {
      assert ReqOk(s, r);
    }
  }

  lemma StepKeepsFit(s: State, step: Step)
    requires Inv(s) && AllFit(s)
    ensures AllFit(Next(s, step))
  {
    PhasesFit(s);
    hide Inv, Next, UploadFits, PhaseFitsAll;
    forall r | r in Next(s, step).requests ensures UploadFits(Next(s, step).requests[r]) {
      if step.Lookup? || step.SecondLookup? { LookupFits(s, step, r); }
      else if step.CreateTx? || step.InsertImport? { InsertFits(s, step, r); }
      else if Creating(step) { CreatingFits(s, step, r); }
      else if Holding(step) { HoldingFits(s, step, r); }
      else { OthersFit(s, step, r); }
    }
  }

  lemma {:induction false} RunKeepsFit(catalog: Catalog, steps: seq<Step>)
    requires PricesOk(catalog)
    ensures AllFit(Run(catalog, steps))
  {
    if steps != [] {
      var before := steps[..|steps| - 1];
      RunKeepsFit(catalog, before);
      RunKeeps(catalog, before);
      hide Inv, Next, AllFit;
      StepKeepsFit(Run(catalog, before), steps[|steps| - 1]);
    }
  }

  // ---------------------------------------------------------------- what the database can always offer

  lemma UnusedId(db: Db) returns (id: OrderId)
    ensures id !in db.orders
  {
    id := Above(db.orders.Keys);
  }

  lemma Above(ids: set<OrderId>) returns (id: OrderId)
    ensures forall x :: x in ids ==> x < id
  {
    if ids == {} {
      id := 0;
    } else {
      var y :| y in ids;
      var rest := Above(ids - {y});
      id := if y < rest then rest else y + 1;
      assert forall x :: x in ids ==> x == y || x in ids - {y};
    }
  }

  /** The rows of a set of products, in some order. */
  lemma Enumerate(c: Catalog, wanted: set<nat>) returns (rows: seq<Product>)
    requires PricesOk(c) && wanted <= c.products.Keys
    ensures DistinctIds(rows)
    ensures forall i :: 0 <= i < |rows| ==> rows[i].id in wanted && rows[i] == c.products[rows[i].id]
    ensures forall p :: p in wanted ==> c.products[p] in rows
  {
    rows := [];
    if wanted != {} {
      var p :| p in wanted;
      var rest := Enumerate(c, wanted - {p});
      rows := rest + [c.products[p]];
    }
  }

  lemma SomeRows(c: Catalog, job: Job) returns (rows: seq<Product>)
    requires PricesOk(c) && Creates(job)
    ensures Loaded(c, LinesOf(job), ShopOf(job), rows)
  {
    var lines, shop := LinesOf(job), ShopOf(job);
    rows := Enumerate(c, set p | p in c.products && Wanted(c, lines, shop, p));
    forall p: nat | Wanted(c, lines, shop, p) ensures p in Ids(rows) {
      assert c.products[p] in rows;
      var i :| 0 <= i < |rows| && rows[i] == c.products[p];
      assert rows[i].id in Ids(rows);
    }
  }

  /** Some enumeration of a set. */
  lemma List(ids: set<OrderId>) returns (list: seq<OrderId>)
    ensures forall i, j :: 0 <= i < j < |list| ==> list[i] != list[j]
    ensures forall x :: x in list <==> x in ids
  {
    list := [];
    if ids != {} {
      var x :| x in ids;
      var rest := List(ids - {x});
      list := rest + [x];
      assert forall i :: 0 <= i < |rest| ==> rest[i] in rest;
    }
  }

  // ---------------------------------------------------------------- moving or waiting

  /** Request r has a step to take that is not a failure. */
  ghost predicate CanMove(s: State, r: ReqId) {
    exists step :: RequestOf(step) == Some(r) && !step.Fail? && Enabled(s, step)
  }

  lemma MovesBy(s: State, r: ReqId, step: Step)
    requires RequestOf(step) == Some(r) && !step.Fail? && Enabled(s, step)
    ensures CanMove(s, r)
  {
  }

  lemma CreateMoves(s: State, r: ReqId, rows: seq<Product>, id: OrderId)
    requires r in s.requests && s.requests[r].phase.Missing? && s.requests[r].job.Create? && JobOk(s.requests[r].job)
    requires id !in s.db.orders && Loaded(s.catalog, LinesOf(s.requests[r].job), ShopOf(s.requests[r].job), rows)
    ensures CanMove(s, r)
  {
    hide JobOk, Loaded, LinesOf, ShopOf, CanMove;
    MovesBy(s, r, CreateTx(r, id, rows, 0));
  }

  lemma ImportMoves(s: State, r: ReqId, rows: seq<Product>)
    requires r in s.requests && s.requests[r].phase.Missing? && s.requests[r].job.Import? && UploadFits(s.requests[r])
    requires Loaded(s.catalog, LinesOf(s.requests[r].job), ShopOf(s.requests[r].job), rows)
    ensures CanMove(s, r)
  {
    hide JobOk, Loaded, LinesOf, ShopOf, CanMove;
    var q := s.requests[r];
    if NeedsFile(q.job) && q.image == NoImage {
      MovesBy(s, r, Prepare(r));
    } else {
      MovesBy(s, r, BeginImport(r, rows));
    }
  }

  lemma MissingMoves(s: State, r: ReqId)
    requires Inv(s) && r in s.requests && UploadFits(s.requests[r]) && s.requests[r].phase.Missing?
    ensures CanMove(s, r)
  {
    assert ReqOk(s, r) && PricesOk(s.catalog);
    assert JobOk(s.requests[r].job) && Creates(s.requests[r].job);
    hide Inv, ReqOk, JobOk, Loaded, CanMove, PricesOk, UploadFits;
    var rows := SomeRows(s.catalog, s.requests[r].job);
    var id := UnusedId(s.db);
    if s.requests[r].job.Create? { CreateMoves(s, r, rows, id); } else { ImportMoves(s, r, rows); }
  }

  lemma CheckedMoves(s: State, r: ReqId)
    requires Inv(s) && r in s.requests && UploadFits(s.requests[r]) && s.requests[r].phase.Checked?
    ensures CanMove(s, r)
  {
    var q := s.requests[r];
    assert ReqOk(s, r);
    var id := UnusedId(s.db);
    hide Inv, JobOk, Loaded, CanMove;
    if q.image == Pending { MovesBy(s, r, Rename(r)); } else { MovesBy(s, r, InsertImport(r, id, 0)); }
  }

  lemma LockedMoves(s: State, r: ReqId)
    requires r in s.requests && UploadFits(s.requests[r]) && s.requests[r].phase.Locked?
    ensures CanMove(s, r)
  {
    hide JobOk, Loaded, CanMove;
    if s.requests[r].image == Pending { MovesBy(s, r, Rename(r)); } else { MovesBy(s, r, CommitRow(r, 0)); }
  }

  lemma StartedMoves(s: State, r: ReqId)
    requires r in s.requests && s.requests[r].phase.Started?
    ensures CanMove(s, r)
  {
    if s.requests[r].job.Sweep? {
      var stale := StaleIds(s.db, s.requests[r].job.cutoff);
      var ids := List(stale);
      assert (set i | 0 <= i < |ids| :: ids[i]) == stale;
      hide JobOk, Loaded, CanMove, StaleIds;
      MovesBy(s, r, ListStale(r, ids));
    } else {
      hide JobOk, Loaded, CanMove;
      MovesBy(s, r, Lookup(r));
    }
  }

  /** The row whose lock a request needs next. */
  function WaitsFor(q: Request): Option<OrderId> {
    match q.phase
    case Opened(id) => if q.image == Pending then Some(id) else None
    case Marking(todo, _) => if todo != [] then Some(todo[0]) else None
    case _ => None
  }

  predicate Free(s: State, q: Request) {
    WaitsFor(q).Some? ==> WaitsFor(q).value !in s.locks
  }

  lemma OpenedMoves(s: State, r: ReqId)
    requires r in s.requests && UploadFits(s.requests[r]) && PhaseFits(s.requests[r]) && Free(s, s.requests[r])
    requires s.requests[r].phase.Opened?
    ensures CanMove(s, r)
  {
    hide JobOk, Loaded, CanMove;
    if s.requests[r].image == Pending { MovesBy(s, r, LockRow(r)); } else { MovesBy(s, r, Prepare(r)); }
  }

  lemma MarkingMoves(s: State, r: ReqId)
    requires r in s.requests && PhaseFits(s.requests[r]) && Free(s, s.requests[r]) && s.requests[r].phase.Marking?
    ensures CanMove(s, r)
  {
    hide JobOk, Loaded, CanMove;
    if s.requests[r].phase.todo == [] { MovesBy(s, r, CommitSweep(r)); } else { MovesBy(s, r, MarkNext(r)); }
  }

  lemma EndingMoves(s: State, r: ReqId)
    requires r in s.requests && PhaseFits(s.requests[r]) && (s.requests[r].phase.Lost? || s.requests[r].phase.Closing?)
    ensures CanMove(s, r)
  {
    hide JobOk, Loaded, CanMove;
    if s.requests[r].phase.Lost? { MovesBy(s, r, SecondLookup(r)); } else { MovesBy(s, r, Close(r)); }
  }

  lemma MovesOrWaits(s: State, r: ReqId)
    requires Inv(s) && AllFit(s) && r in s.requests
    ensures CanMove(s, r) || (WaitsFor(s.requests[r]).Some? && WaitsFor(s.requests[r]).value in s.locks)
  {
    PhasesFit(s);
    hide Inv, CanMove, PhaseFits, UploadFits;
    if Free(s, s.requests[r]) {
      match s.requests[r].phase
      case Started => StartedMoves(s, r);
      case Missing => MissingMoves(s, r);
      case Checked(_, _) => CheckedMoves(s, r);
      case Locked(_) => LockedMoves(s, r);
      case Opened(_) => OpenedMoves(s, r);
      case Marking(_, _) => MarkingMoves(s, r);
      case Lost => EndingMoves(s, r);
      case Closing(_) => EndingMoves(s, r);
    }
  }

  // ---------------------------------------------------------------- the theorems

  /** In every run, a request in flight has a step of its own to take, or needs the lock of a row that a
      submission, which can take its next step, or a sweep holds. */
  lemma NobodyIsStuck(catalog: Catalog, steps: seq<Step>, r: ReqId)
    requires PricesOk(catalog) && r in Run(catalog, steps).requests
    ensures var s := Run(catalog, steps);
            || CanMove(s, r)
            || (WaitsFor(s.requests[r]).Some? && WaitsFor(s.requests[r]).value in s.locks
                && var h := s.locks[WaitsFor(s.requests[r]).value];
                   h in s.requests && h != r && (CanMove(s, h) || s.requests[h].job.Sweep?))
  {
    RunKeeps(catalog, steps);
    RunKeepsFit(catalog, steps);
    var s := Run(catalog, steps);
    hide Run;
    MovesOrWaits(s, r);
    hide CanMove;
    if !CanMove(s, r) {
      HolderOf(s, r);
    }
  }

  lemma HolderOf(s: State, r: ReqId)
    requires Inv(s) && AllFit(s) && r in s.requests
    requires WaitsFor(s.requests[r]).Some? && WaitsFor(s.requests[r]).value in s.locks
    ensures var h := s.locks[WaitsFor(s.requests[r]).value];
            h in s.requests && h != r && (CanMove(s, h) || (s.requests[h].job.Sweep? && s.requests[h].phase.Marking?))
  {
    var id := WaitsFor(s.requests[r]).value;
    var h := s.locks[id];
    assert LocksOk(s);
    assert h in s.requests && Holds(s.requests[h], id);
    assert UploadFits(s.requests[r]) && UploadFits(s.requests[h]);
    PhasesFit(s);
    hide Inv, CanMove, AllFit, LocksOk;
    if s.requests[h].phase.Locked? { LockedMoves(s, h); }
  }

  /** With at most one sweep in flight, in every run some request in flight can go on: there is no deadlock. */
  lemma NoDeadlock(catalog: Catalog, steps: seq<Step>)
    requires PricesOk(catalog) && Run(catalog, steps).requests != map[]
    requires var s := Run(catalog, steps);
             forall a, b :: a in s.requests && b in s.requests && s.requests[a].job.Sweep? && s.requests[b].job.Sweep?
                 ==> a == b
    ensures var s := Run(catalog, steps); exists r :: r in s.requests && CanMove(s, r)
  {
    RunKeeps(catalog, steps);
    RunKeepsFit(catalog, steps);
    var s := Run(catalog, steps);
    hide Run, Inv, AllFit, CanMove;
    var r :| r in s.requests;
    MovesOrWaits(s, r);
    if !CanMove(s, r) {
      HolderOf(s, r);
      var h := s.locks[WaitsFor(s.requests[r]).value];
      MovesOrWaits(s, h);
      if !CanMove(s, h) { HolderOf(s, h); }
    }
  }

  /** Steps of its own that a request can still take. */
  function StepsLeft(q: Request): nat {
    match q.phase
    case Started => 7
    case Missing => if q.image == NoImage then 6 else 5
    case Opened(_) => if q.image == NoImage then 6 else 5
    case Checked(_, _) => if q.image == Pending then 4 else 3
    case Locked(_) => if q.image == Pending then 4 else 3
    case Lost => 2
    case Marking(todo, _) => |todo| + 2
    case Closing(_) => 1
  }

  lemma LookupShortens(s: State, step: Step, r: ReqId)
    requires (step.Lookup? || step.SecondLookup?) && RequestOf(step) == Some(r) && Enabled(s, step)
    ensures r in Next(s, step).requests ==> StepsLeft(Next(s, step).requests[r]) < StepsLeft(s.requests[r])
  {
    hide Visible, PublicOrder, PrintOf, KeyOf;
  }

  lemma InsertShortens(s: State, step: Step, r: ReqId)
    requires (step.CreateTx? || step.InsertImport?) && RequestOf(step) == Some(r) && Enabled(s, step)
    requires UploadFits(s.requests[r])
    ensures r in Next(s, step).requests ==> StepsLeft(Next(s, step).requests[r]) < StepsLeft(s.requests[r])
  {
    hide Loaded, JobOk, CreateTransaction, TryInsert, PrintOf, NewRow, LinesOf, ShopOf, KeyOf;
  }

  lemma CreatingShortens(s: State, step: Step, r: ReqId)
    requires (step.BeginImport? || step.Fail? || step.Close?) && RequestOf(step) == Some(r) && Enabled(s, step)
    requires UploadFits(s.requests[r])
    ensures r in Next(s, step).requests ==> StepsLeft(Next(s, step).requests[r]) < StepsLeft(s.requests[r])
  {
    hide Loaded, JobOk, LockedActiveShop, LinesOf, ShopOf;
  }

  lemma HoldingShortens(s: State, step: Step, r: ReqId)
    requires Holding(step) && !step.ListStale? && RequestOf(step) == Some(r) && Enabled(s, step)
    requires UploadFits(s.requests[r]) && PhaseFits(s.requests[r])
    ensures r in Next(s, step).requests ==> StepsLeft(Next(s, step).requests[r]) < StepsLeft(s.requests[r])
  {
    hide Loaded, StaleIds, JobOk, CancelAll, CheckRow, Submit, SubmitFinal, Stale;
  }

  /** In every run each step of a request brings it nearer to its response: seven steps at most for a
      creation, import or submission, and for a sweep two more than the rows on its list. */
  lemma EveryStepCounts(catalog: Catalog, steps: seq<Step>, step: Step, r: ReqId)
    requires PricesOk(catalog) && RequestOf(step) == Some(r) && Enabled(Run(catalog, steps), step)
    requires r in Run(catalog, steps).requests && !step.ListStale?
    ensures var s := Run(catalog, steps);
            var t := Next(s, step);
            && (r in t.requests ==> StepsLeft(t.requests[r]) < StepsLeft(s.requests[r]))
            && (!s.requests[r].job.Sweep? ==> StepsLeft(s.requests[r]) <= 7)
  {
    RunKeeps(catalog, steps);
    RunKeepsFit(catalog, steps);
    PhasesFit(Run(catalog, steps));
    hide Run, Inv, Enabled, Next, UploadFits, PhaseFits;
    StepShortens(Run(catalog, steps), step, r);
  }

  lemma StepShortens(s: State, step: Step, r: ReqId)
    requires r in s.requests && UploadFits(s.requests[r]) && PhaseFits(s.requests[r])
    requires RequestOf(step) == Some(r) && Enabled(s, step) && !step.ListStale?
    ensures r in Next(s, step).requests ==> StepsLeft(Next(s, step).requests[r]) < StepsLeft(s.requests[r])
    ensures !s.requests[r].job.Sweep? ==> StepsLeft(s.requests[r]) <= 7
  {
    assert !s.requests[r].job.Sweep? ==> StepsLeft(s.requests[r]) <= 7;
    hide Enabled, Next, UploadFits, PhaseFits, StepsLeft;
    if step.Lookup? || step.SecondLookup? { LookupShortens(s, step, r); }
    else if step.CreateTx? || step.InsertImport? { InsertShortens(s, step, r); }
    else if Creating(step) { CreatingShortens(s, step, r); }
    else { HoldingShortens(s, step, r); }
  }
}
