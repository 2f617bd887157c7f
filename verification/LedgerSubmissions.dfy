/** Submissions are accepted exactly once: accepted responses and receipts correspond. */
module LedgerSubmissions {
  import opened Wrappers
  import opened Orders
  import opened Ledger
  import opened LedgerInvariant
  import opened LedgerSteps
  import opened LedgerSafety
  import opened LedgerTheorems

  /** The receipt column a submission fills. */
  function Column(job: Job, id: OrderId): Slot {
    Slot(id, job.SubmitFinalReceipt?)
  }

  predicate Submits(job: Job) { job.SubmitDetails? || job.SubmitFinalReceipt? }

  /** Some order's receipt column of the right kind holds the file of request r. */
  ghost predicate Filled(db: Db, job: Job, r: ReqId) {
    Submits(job) && exists id :: SlotRef(db, Column(job, id)) == Some(r)
  }

  predicate IsAccepted(q: Request) { q.phase == Closing(Accepted) }

  ghost predicate RepliesFilled(db: Db, replies: seq<Response>) {
    forall i :: 0 <= i < |replies| && replies[i].reply == Accepted ==> Filled(db, replies[i].job, replies[i].req)
  }

  /** No request is answered twice. */
  predicate AnsweredOnce(replies: seq<Response>) {
    forall i, j :: 0 <= i < j < |replies| ==> replies[i].req != replies[j].req
  }

  ghost predicate AcceptedOk(s: State) {
    && (forall r :: r in s.requests && IsAccepted(s.requests[r]) ==> Filled(s.db, s.requests[r].job, r))
    && RepliesFilled(s.db, s.replies) && AnsweredOnce(s.replies)
  }

  lemma FilledStays(before: Db, after: Db, job: Job, r: ReqId)
    requires Filled(before, job, r) && DbEvolves(before, after)
    ensures Filled(after, job, r)
  {
    var id :| SlotRef(before, Column(job, id)) == Some(r);
    assert RowEvolves(before.orders[id], after.orders[id]);
    assert SlotRef(after, Column(job, id)) == Some(r);
  }

  /** Only a commit of a locked submission makes a request accepted. */
  lemma LookupsAcceptNone(s: State, step: Step, r: ReqId)
    requires step.Lookup? || step.SecondLookup?
    requires r in Next(s, step).requests && IsAccepted(Next(s, step).requests[r])
    ensures r in s.requests && s.requests[r] == Next(s, step).requests[r]
  {
    hide Visible, PublicOrder, PrintOf, KeyOf;
  }

  lemma CreateAcceptsNone(s: State, step: Step, r: ReqId)
    requires step.CreateTx?
    requires r in Next(s, step).requests && IsAccepted(Next(s, step).requests[r])
    ensures r in s.requests && s.requests[r] == Next(s, step).requests[r]
  {
    hide Loaded, JobOk, CreateTransaction, PrintOf, LinesOf, ShopOf, KeyOf;
  }

  lemma ImportAcceptsNone(s: State, step: Step, r: ReqId)
    requires step.InsertImport?
    requires r in Next(s, step).requests && IsAccepted(Next(s, step).requests[r])
    ensures r in s.requests && s.requests[r] == Next(s, step).requests[r]
  {
    hide Loaded, JobOk, TryInsert, PrintOf, NewRow;
  }

  lemma CreatingAcceptsNone(s: State, step: Step, r: ReqId)
    requires Creating(step) && !step.Lookup? && !step.SecondLookup? && !step.CreateTx? && !step.InsertImport?
    requires r in Next(s, step).requests && IsAccepted(Next(s, step).requests[r])
    ensures r in s.requests && s.requests[r] == Next(s, step).requests[r]
  {
    hide Loaded, JobOk, LockedActiveShop;
  }

  lemma HoldingAcceptsByCommit(s: State, step: Step, r: ReqId)
    requires Holding(step) && !step.CommitRow?
    requires r in Next(s, step).requests && IsAccepted(Next(s, step).requests[r])
    ensures r in s.requests && s.requests[r] == Next(s, step).requests[r]
  {
    hide Loaded, StaleIds, JobOk, CancelAll, CheckRow;
  }

  lemma OthersAcceptNone(s: State, step: Step, r: ReqId)
    requires !Creating(step) && !Holding(step)
    requires r in Next(s, step).requests && IsAccepted(Next(s, step).requests[r])
    ensures r in s.requests && s.requests[r] == Next(s, step).requests[r]
  {
    hide Loaded, JobOk, Update, RequestFinal, ConfirmFinal, Rotate, Record;
  }

  lemma OnlyCommitsAccept(s: State, step: Step, r: ReqId)
    requires !step.CommitRow?
    requires r in Next(s, step).requests && IsAccepted(Next(s, step).requests[r])
    ensures r in s.requests && s.requests[r] == Next(s, step).requests[r]
  {
    hide Next;
    if step.Lookup? || step.SecondLookup? { LookupsAcceptNone(s, step, r); }
    else if step.CreateTx? { CreateAcceptsNone(s, step, r); }
    else if step.InsertImport? { ImportAcceptsNone(s, step, r); }
    else if Creating(step) { CreatingAcceptsNone(s, step, r); }
    else if Holding(step) { HoldingAcceptsByCommit(s, step, r); }
    else { OthersAcceptNone(s, step, r); }
  }

  lemma CommitRequests(s: State, c: ReqId, now: Time, r: ReqId)
    requires c in s.requests && s.requests[c].phase.Locked?
    requires r in DoCommitRow(s, c, now).requests
    ensures r in s.requests && DoCommitRow(s, c, now).requests[r].job == s.requests[r].job
    ensures r != c ==> DoCommitRow(s, c, now).requests[r] == s.requests[r]
  {
    hide Submit, SubmitFinal;
  }

  /** A commit leaves the other requests alone and fills the column its own acceptance speaks of. */
  lemma CommitFills(s: State, c: ReqId, now: Time)
    requires c in s.requests && s.requests[c].phase.Locked? && s.requests[c].image == Renamed && Inv(s)
    ensures Filled(DoCommitRow(s, c, now).db, s.requests[c].job, c)
  {
    LockedCommitSucceeds(s, c, now);
    InvParts(s, c);
    hide Inv, DoCommitRow, JobOk, Secured;
    assert SlotRef(DoCommitRow(s, c, now).db, Column(s.requests[c].job, s.requests[c].phase.id)) == Some(c);
  }

  lemma CreatingSendsNothing(s: State, step: Step)
    requires Creating(step) && !step.Close?
    ensures Next(s, step).replies == s.replies
  {
    hide Loaded, Visible, JobOk;
  }

  lemma HoldingSendsNothing(s: State, step: Step)
    requires Holding(step)
    ensures Next(s, step).replies == s.replies
  {
    hide Loaded, StaleIds;
  }

  lemma OnlyCloseReplies(s: State, step: Step)
    ensures Next(s, step).replies == s.replies
            || (step.Close? && step.r in s.requests && s.requests[step.r].phase.Closing?
                && Next(s, step).replies == s.replies + [Response(step.r, s.requests[step.r].job,
                    s.requests[step.r].phase.reply)])
  {
    hide Loaded, JobOk, Update, RequestFinal, ConfirmFinal, Rotate;
    if Creating(step) && !step.Close? { CreatingSendsNothing(s, step); }
    else if Holding(step) { HoldingSendsNothing(s, step); }
  }

  lemma RepliesStayFilled(before: Db, after: Db, replies: seq<Response>)
    requires RepliesFilled(before, replies) && DbEvolves(before, after)
    ensures RepliesFilled(after, replies)
  {
    hide Filled, DbEvolves;
    forall i | 0 <= i < |replies| && replies[i].reply == Accepted
        ensures Filled(after, replies[i].job, replies[i].req) {
      FilledStays(before, after, replies[i].job, replies[i].req);
    }
  }

  lemma NotAnsweredYet(s: State, r: ReqId)
    requires r in s.requests && Inv(s)
    ensures forall i :: 0 <= i < |s.replies| ==> s.replies[i].req != r
  {
    NoReplyYet(s, r);
  }

  lemma StepKeepsReplies(s: State, step: Step)
    requires Inv(s) && AcceptedOk(s) && DbEvolves(s.db, Next(s, step).db)
    ensures RepliesFilled(Next(s, step).db, Next(s, step).replies) && AnsweredOnce(Next(s, step).replies)
  {
    var t := Next(s, step);
    hide Next, Filled, DbEvolves, Inv;
    OnlyCloseReplies(s, step);
    if t.replies != s.replies { NotAnsweredYet(s, step.r); }
    RepliesStayFilled(s.db, t.db, s.replies);
    if t.replies != s.replies && s.requests[step.r].phase.reply == Accepted {
      FilledStays(s.db, t.db, s.requests[step.r].job, step.r);
    }
  }

  lemma StepKeepsAccepted(s: State, step: Step)
    requires Inv(s) && AcceptedOk(s)
    ensures AcceptedOk(Next(s, step))
  {
    hide Next, Filled, DbEvolves, Inv;
    StepEvolves(s, step);
    StepKeepsReplies(s, step);
    var t := Next(s, step);
    forall r | r in t.requests && IsAccepted(t.requests[r]) ensures Filled(t.db, t.requests[r].job, r) {
      AcceptedRequestFilled(s, step, r);
    }
  }

  lemma AcceptedRequestFilled(s: State, step: Step, r: ReqId)
    requires Inv(s) && AcceptedOk(s) && DbEvolves(s.db, Next(s, step).db)
    requires r in Next(s, step).requests && IsAccepted(Next(s, step).requests[r])
    ensures Filled(Next(s, step).db, Next(s, step).requests[r].job, r)
  {
    hide Inv, Filled, DbEvolves;
    if step.CommitRow? && Enabled(s, step) {
      hide Next, DoCommitRow;
      CommitIsCommit(s, step.r, step.now);
      CommitRequests(s, step.r, step.now, r);
      CommitFills(s, step.r, step.now);
      if r != step.r { FilledStays(s.db, Next(s, step).db, s.requests[r].job, r); }
    } else if !step.CommitRow? {
      hide Next;
      OnlyCommitsAccept(s, step, r);
      FilledStays(s.db, Next(s, step).db, s.requests[r].job, r);
    }
  }

  lemma CommitIsCommit(s: State, r: ReqId, now: Time)
    requires Enabled(s, CommitRow(r, now))
    ensures r in s.requests && s.requests[r].phase.Locked? && s.requests[r].image == Renamed
    ensures Next(s, CommitRow(r, now)) == DoCommitRow(s, r, now)
  {
  }

  lemma {:induction false} RunKeepsAccepted(catalog: Catalog, steps: seq<Step>)
    requires PricesOk(catalog)
    ensures AcceptedOk(Run(catalog, steps))
  {
    if steps != [] {
      var before := steps[..|steps| - 1];
      RunKeepsAccepted(catalog, before);
      RunKeeps(catalog, before);
      hide Inv, Next, AcceptedOk;
      StepKeepsAccepted(Run(catalog, before), steps[|steps| - 1]);
    }
  }

  /** Every accepted submission is on record: in every run, each 200 response to a customer's details
      or final receipt has filled that column of an order with its own file. */
  lemma AcceptedSubmissionIsOnRecord(catalog: Catalog, steps: seq<Step>, i: nat)
    requires PricesOk(catalog)
    requires i < |Run(catalog, steps).replies| && Run(catalog, steps).replies[i].reply == Accepted
    ensures var s := Run(catalog, steps);
            var p := s.replies[i];
            Submits(p.job) && exists id :: id in s.db.orders && SlotRef(s.db, Column(p.job, id)) == Some(p.req)
  {
    RunKeepsAccepted(catalog, steps);
    hide Run;
    var s := Run(catalog, steps);
    var p := s.replies[i];
    assert Filled(s.db, p.job, p.req);
    var id :| SlotRef(s.db, Column(p.job, id)) == Some(p.req);
    assert id in s.db.orders;
  }

  /** No two of them filled the same column, so an order's details and each of its receipts are
      accepted at most once. */
  lemma AcceptedSubmissionsDiffer(catalog: Catalog, steps: seq<Step>, i: nat, j: nat, a: OrderId, b: OrderId)
    requires PricesOk(catalog)
    requires var replies := Run(catalog, steps).replies;
             i < j < |replies| && replies[i].reply == Accepted && replies[j].reply == Accepted
    requires var s := Run(catalog, steps);
             && SlotRef(s.db, Column(s.replies[i].job, a)) == Some(s.replies[i].req)
             && SlotRef(s.db, Column(s.replies[j].job, b)) == Some(s.replies[j].req)
    ensures var s := Run(catalog, steps); Column(s.replies[i].job, a) != Column(s.replies[j].job, b)
  {
    RunKeepsAccepted(catalog, steps);
    hide Run;
    var s := Run(catalog, steps);
    assert s.replies[i].req != s.replies[j].req;
  }
}
