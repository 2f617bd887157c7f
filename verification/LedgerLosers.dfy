/** A request that ends without a success of its own never wrote to the tables. */
module LedgerLosers {
  import opened Wrappers
  import opened Orders
  import opened Ledger
  import opened LedgerInvariant
  import opened LedgerSafety
  import opened LedgerTheorems
  import opened LedgerSubmissions

  /** The request whose step it is, if any. */
  function RequestOf(step: Step): Option<ReqId> {
    match step
    case Lookup(r) => Some(r)
    case Prepare(r) => Some(r)
    case CreateTx(r, _, _, _) => Some(r)
    case BeginImport(r, _) => Some(r)
    case Rename(r) => Some(r)
    case InsertImport(r, _, _) => Some(r)
    case SecondLookup(r) => Some(r)
    case LockRow(r) => Some(r)
    case CommitRow(r, _) => Some(r)
    case ListStale(r, _) => Some(r)
    case MarkNext(r) => Some(r)
    case CommitSweep(r) => Some(r)
    case Fail(r, _) => Some(r)
    case Close(r) => Some(r)
    case _ => None
  }

  /** The requests one of whose steps changed a row, the history or the events. */
  ghost function Writers(catalog: Catalog, steps: seq<Step>): set<ReqId> {
    if steps == [] then {}
    else
      var most, step := steps[..|steps| - 1], steps[|steps| - 1];
      var before := Run(catalog, most);
      Writers(catalog, most)
      + (if RequestOf(step).Some? && Next(before, step).db != before.db then {RequestOf(step).value} else {})
  }

  /** A reply that reports the request's own success: for a creation, the row it inserted itself. */
  predicate OwnSuccess(db: Db, r: ReqId, reply: Reply) {
    match reply
    case Refused(_) => false
    case Created(id, _) => id in db.orders && db.orders[id].origin == r
    case _ => true
  }

  // ---------------------------------------------------------------- writing ends in success

  lemma CreateWrites(s: State, step: Step)
    requires step.CreateTx? && Next(s, step).db != s.db
    ensures step.r in Next(s, step).requests && Next(s, step).requests[step.r].phase.Closing?
    ensures OwnSuccess(Next(s, step).db, step.r, Next(s, step).requests[step.r].phase.reply)
  {
    hide Loaded, JobOk, PrintOf, LinesOf, ShopOf, KeyOf;
  }

  lemma ImportWrites(s: State, step: Step)
    requires step.InsertImport? && Next(s, step).db != s.db
    ensures step.r in Next(s, step).requests && Next(s, step).requests[step.r].phase.Closing?
    ensures OwnSuccess(Next(s, step).db, step.r, Next(s, step).requests[step.r].phase.reply)
  {
    hide JobOk, PrintOf;
  }

  lemma CommitWrites(s: State, step: Step)
    requires (step.CommitRow? || step.CommitSweep?) && Next(s, step).db != s.db
    ensures step.r in Next(s, step).requests && Next(s, step).requests[step.r].phase.Closing?
    ensures OwnSuccess(Next(s, step).db, step.r, Next(s, step).requests[step.r].phase.reply)
  {
    hide CancelAll, Submit, SubmitFinal;
  }

  lemma WritingSucceeds(s: State, step: Step)
    requires RequestOf(step).Some? && Next(s, step).db != s.db
    ensures var r := RequestOf(step).value;
            && r in Next(s, step).requests && Next(s, step).requests[r].phase.Closing?
            && OwnSuccess(Next(s, step).db, r, Next(s, step).requests[r].phase.reply)
  {
    hide Next;
    if !Writes(step) { OthersOnlyRead(s, step); }
    else if step.CreateTx? { CreateWrites(s, step); }
    else if step.InsertImport? { ImportWrites(s, step); }
    else { CommitWrites(s, step); }
  }

  // ---------------------------------------------------------------- what is decided stays decided

  /** A closing request stays as it is until it is gone, and a request that is gone does not come back. */
  ghost predicate Decided(s: State, r: ReqId) {
    r < s.nextReq && (r in s.requests ==> s.requests[r].phase.Closing?)
  }

  ghost predicate StaysDecided(s: State, t: State, r: ReqId) {
    s.nextReq <= t.nextReq && (r in t.requests ==> r in s.requests && t.requests[r] == s.requests[r])
  }

  lemma LookupsStay(s: State, step: Step, r: ReqId)
    requires (step.Lookup? || step.SecondLookup?) && Decided(s, r)
    ensures StaysDecided(s, Next(s, step), r)
  {
    hide Visible, PublicOrder, PrintOf, KeyOf;
  }

  lemma InsertsStay(s: State, step: Step, r: ReqId)
    requires (step.CreateTx? || step.InsertImport?) && Decided(s, r)
    ensures StaysDecided(s, Next(s, step), r)
  {
    hide Loaded, JobOk, TryInsert, CreateTransaction, PrintOf, NewRow, LinesOf, ShopOf, KeyOf;
  }

  lemma CreatingStays(s: State, step: Step, r: ReqId)
    requires Creating(step) && !step.Lookup? && !step.SecondLookup? && !step.CreateTx? && !step.InsertImport?
             && Decided(s, r)
    ensures StaysDecided(s, Next(s, step), r)
  {
    hide Loaded, JobOk, LockedActiveShop, LinesOf, ShopOf;
  }

  lemma HoldingStays(s: State, step: Step, r: ReqId)
    requires Holding(step) && Decided(s, r)
    ensures StaysDecided(s, Next(s, step), r)
  {
    hide Loaded, StaleIds, JobOk, CancelAll, CheckRow, Submit, SubmitFinal;
  }

  lemma OthersStay(s: State, step: Step, r: ReqId)
    requires !Creating(step) && !Holding(step) && Decided(s, r)
    ensures StaysDecided(s, Next(s, step), r)
  {
    hide Loaded, JobOk, Update, RequestFinal, ConfirmFinal, Rotate, Record;
  }

  lemma DecidedStays(s: State, step: Step, r: ReqId)
    requires Decided(s, r)
    ensures Decided(Next(s, step), r) && StaysDecided(s, Next(s, step), r)
  {
    assert r < s.nextReq;
    hide Next;
    if step.Lookup? || step.SecondLookup? { LookupsStay(s, step, r); }
    else if step.CreateTx? || step.InsertImport? { InsertsStay(s, step, r); }
    else if Creating(step) { CreatingStays(s, step, r); }
    else if Holding(step) { HoldingStays(s, step, r); }
    else { OthersStay(s, step, r); }
  }

  lemma OwnSuccessStays(before: Db, after: Db, r: ReqId, reply: Reply)
    requires OwnSuccess(before, r, reply) && DbEvolves(before, after)
    ensures OwnSuccess(after, r, reply)
  {
    if reply.Created? { assert RowEvolves(before.orders[reply.id], after.orders[reply.id]); }
  }

  // ---------------------------------------------------------------- over runs

  /** Request r has written and is about to report it, or is gone. */
  ghost predicate WriterOk(s: State, r: ReqId) {
    Decided(s, r) && (r in s.requests ==> OwnSuccess(s.db, r, s.requests[r].phase.reply))
  }

  ghost predicate WrittenReplies(s: State, writers: set<ReqId>) {
    forall i :: 0 <= i < |s.replies| && s.replies[i].req in writers ==>
        OwnSuccess(s.db, s.replies[i].req, s.replies[i].reply)
  }

  lemma WriterStaysOk(s: State, step: Step, r: ReqId)
    requires Inv(s) && WriterOk(s, r)
    ensures WriterOk(Next(s, step), r)
  {
    DecidedStays(s, step, r);
    StepEvolves(s, step);
    hide Inv, Next, DbEvolves;
    if r in Next(s, step).requests {
      OwnSuccessStays(s.db, Next(s, step).db, r, s.requests[r].phase.reply);
    }
  }

  lemma NewWriterOk(s: State, step: Step)
    requires Inv(s) && RequestOf(step).Some? && Next(s, step).db != s.db
    ensures WriterOk(Next(s, step), RequestOf(step).value)
    ensures forall i :: 0 <= i < |Next(s, step).replies| ==> Next(s, step).replies[i].req != RequestOf(step).value
  {
    var r := RequestOf(step).value;
    WritingSucceeds(s, step);
    OnlyCloseReplies(s, step);
    StepKeeps(s, step);
    InvParts(Next(s, step), r);
    NotAnsweredYet(Next(s, step), r);
    hide Inv, Next;
  }

  lemma RepliesStayWritten(s: State, step: Step, writers: set<ReqId>)
    requires Inv(s) && WrittenReplies(s, writers) && forall r :: r in writers ==> WriterOk(s, r)
    ensures WrittenReplies(Next(s, step), writers)
  {
    StepEvolves(s, step);
    OnlyCloseReplies(s, step);
    hide Inv, Next, DbEvolves, OwnSuccess;
    var t := Next(s, step);
    forall i | 0 <= i < |t.replies| && t.replies[i].req in writers
      ensures OwnSuccess(t.db, t.replies[i].req, t.replies[i].reply)
    {
      if i < |s.replies| {
        assert t.replies[i] == s.replies[i];
        OwnSuccessStays(s.db, t.db, s.replies[i].req, s.replies[i].reply);
      } else {
        assert WriterOk(s, step.r);
        OwnSuccessStays(s.db, t.db, step.r, s.requests[step.r].phase.reply);
      }
    }
  }

  lemma {:induction false} RunWriters(catalog: Catalog, steps: seq<Step>)
    requires PricesOk(catalog)
    ensures forall r :: r in Writers(catalog, steps) ==> WriterOk(Run(catalog, steps), r)
    ensures WrittenReplies(Run(catalog, steps), Writers(catalog, steps))
  {
    if steps != [] {
      var most, step := steps[..|steps| - 1], steps[|steps| - 1];
      var s := Run(catalog, most);
      RunWriters(catalog, most);
      RunKeeps(catalog, most);
      hide Inv, Next, WriterOk, OwnSuccess;
      forall r | r in Writers(catalog, most) ensures WriterOk(Next(s, step), r) {
        WriterStaysOk(s, step, r);
      }
      RepliesStayWritten(s, step, Writers(catalog, most));
      if RequestOf(step).Some? && Next(s, step).db != s.db {
        NewWriterOk(s, step);
      }
    }
  }

  /** In every run, a request whose response does not report its own success, be it refused or answered
      with another request's order, never changed a row, an item, a history entry or an event. */
  lemma LosersWroteNothing(catalog: Catalog, steps: seq<Step>, i: nat)
    requires PricesOk(catalog) && i < |Run(catalog, steps).replies|
    requires var s := Run(catalog, steps); !OwnSuccess(s.db, s.replies[i].req, s.replies[i].reply)
    ensures Run(catalog, steps).replies[i].req !in Writers(catalog, steps)
  {
    RunWriters(catalog, steps);
  }
}
