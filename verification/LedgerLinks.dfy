/** Secret links and event keys over whole runs: a link leads to at most one order, a link once replaced
    leads nowhere for ever, and no two events of a name share a key. */
module LedgerLinks {
  import opened Wrappers
  import opened Customers
  import opened Orders
  import opened Ledger
  import opened LedgerInvariant
  import opened LedgerSteps
  import opened LedgerSafety
  import opened LedgerTheorems
  import opened LedgerLosers
  import opened LedgerCreation
  import opened LedgerAnswers

  // ---------------------------------------------------------------- tokens

  /** No step will draw the token x any more. */
  ghost predicate Spent(s: State, x: Token) { Decided(s, x) }

  ghost predicate TokensOk(s: State) {
    && (forall id :: id in s.db.orders ==> Spent(s, s.db.orders[id].token))
    && (forall a, b :: a in s.db.orders && b in s.db.orders && s.db.orders[a].token == s.db.orders[b].token ==> a == b)
  }

  /** The token x leads nowhere, and never will. */
  ghost predicate Dead(s: State, x: Token) {
    Spent(s, x) && forall id :: id in s.db.orders ==> s.db.orders[id].token != x
  }

  predicate TokenKept(before: Db, after: Db, id: OrderId)
    requires id in after.orders
  {
    id in before.orders && after.orders[id].token == before.orders[id].token
  }

  /** A step gives at most one order a token, and one that was never given before. */
  ghost predicate TokensMove(s: State, t: State) {
    && (forall id :: id in t.db.orders && !TokenKept(s.db, t.db, id) ==>
          !Spent(s, t.db.orders[id].token) && Spent(t, t.db.orders[id].token))
    && (forall a, b :: a in t.db.orders && b in t.db.orders && !TokenKept(s.db, t.db, a) && !TokenKept(s.db, t.db, b)
          ==> a == b)
  }

  lemma SameTokensMove(s: State, t: State)
    requires forall id :: id in t.db.orders ==> TokenKept(s.db, t.db, id)
    ensures TokensMove(s, t)
  {
  }

  lemma AddedMoves(s: State, t: State, id: OrderId, r: ReqId)
    requires id in t.db.orders && t.db.orders == s.db.orders[id := t.db.orders[id]] && t.db.orders[id].token == r
    requires !Spent(s, r) && Spent(t, r)
    ensures TokensMove(s, t)
  {
  }

  /** Either insert writes a row with the request's own token and ends the request, or writes nothing. */
  ghost predicate OwnRow(s: State, t: State, id: OrderId, r: ReqId) {
    && t.nextReq == s.nextReq
    && (t.db == s.db
        || (r in t.requests && t.requests[r].phase.Closing? && id in t.db.orders
            && t.db.orders == s.db.orders[id := t.db.orders[id]] && t.db.orders[id].token == r))
  }

  lemma CreateOwnRow(s: State, step: Step)
    requires step.CreateTx? && Enabled(s, step) && Inv(s)
    ensures OwnRow(s, Next(s, step), step.id, step.r)
  {
    assert EventsOk(s.db) && PricesOk(s.catalog);
    CreateAnswers(s, step.r, step.id, step.rows, step.now);
    CreateRequests(s, step);
    hide Inv, Next, Enabled, AllOnSale, EventsOk, PricesOk;
  }

  lemma CreateRequests(s: State, step: Step)
    requires step.CreateTx? && In(s, step.r)
    ensures Next(s, step).nextReq == s.nextReq
  {
    hide Loaded, JobOk, CreateTransaction, PrintOf, LinesOf, ShopOf, KeyOf;
  }

  lemma InsertedRow(s: State, r: ReqId, id: OrderId, now: Time)
    requires In(s, r) && s.requests[r].job.Import? && JobOk(s.requests[r].job) && s.requests[r].phase.Checked?
    ensures OwnRow(s, DoInsertImport(s, r, id, now), id, r)
  {
    var q := s.requests[r];
    assert NewRow(r, q.job, q.phase.payment, q.phase.rows, None, now).token == r;
    hide JobOk, NewRow, PrintOf, Record;
  }

  lemma ImportOwnRow(s: State, step: Step)
    requires step.InsertImport? && Enabled(s, step)
    ensures OwnRow(s, Next(s, step), step.id, step.r)
  {
    InsertedRow(s, step.r, step.id, step.now);
    hide JobOk, Loaded, DoInsertImport, OwnRow;
  }

  lemma InsertMoves(s: State, step: Step)
    requires (step.CreateTx? || step.InsertImport?) && Enabled(s, step) && Inv(s)
    ensures TokensMove(s, Next(s, step))
  {
    var t := Next(s, step);
    assert ReqOk(s, step.r) && !s.requests[step.r].phase.Closing?;
    assert step.r < s.nextReq;
    hide Inv, Next, Enabled, ReqOk;
    if step.CreateTx? { CreateOwnRow(s, step); } else { ImportOwnRow(s, step); }
    if t.db == s.db { SameTokensMove(s, t); } else { AddedMoves(s, t, step.id, step.r); }
  }

  lemma CommitMoves(s: State, step: Step)
    requires step.CommitRow? && Enabled(s, step)
    ensures TokensMove(s, Next(s, step))
  {
    hide Loaded, JobOk, Record;
    SameTokensMove(s, Next(s, step));
  }

  lemma {:induction false} SweepKeepsTokens(db: Db, ids: seq<OrderId>, cutoff: Time)
    ensures forall id :: id in CancelAll(db, ids, cutoff).orders ==> TokenKept(db, CancelAll(db, ids, cutoff), id)
  {
    if ids != [] {
      SweepKeepsTokens(db, ids[..|ids| - 1], cutoff);
      hide Stale, Record;
    }
  }

  lemma SweepMoves(s: State, step: Step)
    requires step.CommitSweep? && Enabled(s, step)
    ensures TokensMove(s, Next(s, step))
  {
    SweepKeepsTokens(s.db, s.requests[step.r].phase.marked, s.requests[step.r].job.cutoff);
    hide Loaded, JobOk, CancelAll, TokenKept;
    SameTokensMove(s, Next(s, step));
  }

  lemma RotationDraws(s: State, step: Step)
    requires step.RotateLink? && Enabled(s, step)
    ensures Next(s, step).nextReq == s.nextReq + 1 && Next(s, step).requests == s.requests
  {
    hide Loaded, JobOk, Record;
  }

  lemma RotationMoves(s: State, step: Step)
    requires step.RotateLink? && Enabled(s, step) && Inv(s)
    ensures TokensMove(s, Next(s, step))
  {
    var t := Next(s, step);
    RequestsBelow(s);
    RotationAnswers(s, step.admin, step.id);
    RotationDraws(s, step);
    hide Inv, Next, Enabled;
    if t.db == s.db { SameTokensMove(s, t); } else { AddedMoves(s, t, step.id, s.nextReq); }
  }

  lemma SellerKeepsTokens(s: State, step: Step, id: OrderId)
    requires step.PatchOrder? || step.RequestFinalPayment? || step.ConfirmFinalPayment? || step.Observe?
    requires id in Next(s, step).db.orders
    ensures TokenKept(s.db, Next(s, step).db, id)
  {
    hide Loaded, JobOk, Record, MergeDetails, MergeRemarks, ValidDetails, PaidSeen;
  }

  lemma SellerMoves(s: State, step: Step)
    requires step.PatchOrder? || step.RequestFinalPayment? || step.ConfirmFinalPayment? || step.Observe?
    ensures TokensMove(s, Next(s, step))
  {
    hide Next, TokenKept;
    forall id | id in Next(s, step).db.orders ensures TokenKept(s.db, Next(s, step).db, id) {
      SellerKeepsTokens(s, step, id);
    }
    SameTokensMove(s, Next(s, step));
  }

  lemma StepMoves(s: State, step: Step)
    requires Inv(s)
    ensures TokensMove(s, Next(s, step))
  {
    assert !Enabled(s, step) ==> Next(s, step) == s;
    hide Inv, Next, Enabled, TokensMove;
    if !Writes(step) || !Enabled(s, step) {
      if Enabled(s, step) { OthersOnlyRead(s, step); }
      SameTokensMove(s, Next(s, step));
    }
    else if step.CreateTx? || step.InsertImport? { InsertMoves(s, step); }
    else if step.CommitRow? { CommitMoves(s, step); }
    else if step.CommitSweep? { SweepMoves(s, step); }
    else if step.RotateLink? { RotationMoves(s, step); }
    else { SellerMoves(s, step); }
  }

  lemma SpentStays(s: State, step: Step, x: Token)
    requires Spent(s, x)
    ensures Spent(Next(s, step), x)
  {
    DecidedStays(s, step, x);
  }

  lemma StepKeepsTokens(s: State, step: Step)
    requires Inv(s) && TokensOk(s)
    ensures TokensOk(Next(s, step))
  {
    var t := Next(s, step);
    StepMoves(s, step);
    hide Inv, Next, Spent;
    forall id | id in t.db.orders ensures Spent(t, t.db.orders[id].token) {
      if TokenKept(s.db, t.db, id) { SpentStays(s, step, t.db.orders[id].token); }
    }
    forall a, b | a in t.db.orders && b in t.db.orders && t.db.orders[a].token == t.db.orders[b].token
      ensures a == b
    {
      assert TokenKept(s.db, t.db, a) ==> Spent(s, t.db.orders[a].token);
      assert TokenKept(s.db, t.db, b) ==> Spent(s, t.db.orders[b].token);
    }
  }

  lemma {:induction false} RunKeepsTokens(catalog: Catalog, steps: seq<Step>)
    requires PricesOk(catalog)
    ensures TokensOk(Run(catalog, steps))
  {
    if steps != [] {
      var before := steps[..|steps| - 1];
      RunKeepsTokens(catalog, before);
      RunKeeps(catalog, before);
      hide Inv, Next, TokensOk;
      StepKeepsTokens(Run(catalog, before), steps[|steps| - 1]);
    }
  }

  /** In every run a link leads to at most one order. */
  lemma LinksAreUnique(catalog: Catalog, steps: seq<Step>, a: OrderId, b: OrderId)
    requires PricesOk(catalog)
    requires var db := Run(catalog, steps).db;
             a in db.orders && b in db.orders && db.orders[a].token == db.orders[b].token
    ensures a == b
  {
    RunKeepsTokens(catalog, steps);
  }

  lemma DeadStays(s: State, step: Step, x: Token)
    requires Inv(s) && Dead(s, x)
    ensures Dead(Next(s, step), x)
  {
    SpentStays(s, step, x);
    StepMoves(s, step);
    hide Inv, Next, Spent;
  }

  lemma {:induction false} DeadForever(catalog: Catalog, steps: seq<Step>, more: seq<Step>, x: Token)
    requires PricesOk(catalog) && Dead(Run(catalog, steps), x)
    ensures Dead(Run(catalog, steps + more), x)
  {
    if more == [] {
      assert steps + more == steps;
    } else {
      var most := more[..|more| - 1];
      assert (steps + more)[..|steps + more| - 1] == steps + most;
      DeadForever(catalog, steps, most, x);
      RunKeeps(catalog, steps + most);
      hide Inv, Next, Dead;
      DeadStays(Run(catalog, steps + most), more[|more| - 1], x);
    }
  }

  /** Replacing an order's link: the old one leads to no order at any later moment of any run. */
  lemma ReplacedLinkStaysDead(catalog: Catalog, steps: seq<Step>, admin: AdminId, id: OrderId, more: seq<Step>)
    requires PricesOk(catalog) && id in Run(catalog, steps).db.orders && id !in Run(catalog, steps).locks
    requires (admin, Run(catalog, steps).db.orders[id].shop) in Run(catalog, steps).catalog.access
    ensures var replaced := Run(catalog, steps).db.orders[id].token;
            var later := Run(catalog, steps + [RotateLink(admin, id)] + more).db;
            forall x :: x in later.orders ==> later.orders[x].token != replaced
  {
    var s, step := Run(catalog, steps), RotateLink(admin, id);
    var former := s.db.orders[id].token;
    RunKeepsTokens(catalog, steps);
    RotationAnswers(s, admin, id);
    SpentStays(s, step, former);
    assert (steps + [step])[..|steps|] == steps;
    assert Run(catalog, steps + [step]) == Next(s, step);
    hide Next, Run;
    assert s.db.orders[id].token < s.nextReq;
    assert Dead(Next(s, step), former);
    DeadForever(catalog, steps + [step], more, former);
  }

  // ---------------------------------------------------------------- event keys

  predicate KeysDiffer(events: seq<Event>) {
    forall i, j :: 0 <= i < j < |events| && events[i].name == events[j].name && events[i].key == events[j].key ==>
      events[i].key == None
  }

  lemma RecordKeepsDifferent(events: seq<Event>, e: Event)
    requires KeysDiffer(events)
    ensures KeysDiffer(Record(events, e))
  {
  }

  lemma {:induction false} SweepKeepsDifferent(db: Db, ids: seq<OrderId>, cutoff: Time)
    requires KeysDiffer(db.events)
    ensures KeysDiffer(CancelAll(db, ids, cutoff).events)
  {
    if ids != [] {
      SweepKeepsDifferent(db, ids[..|ids| - 1], cutoff);
      var before := CancelAll(db, ids[..|ids| - 1], cutoff);
      RecordKeepsDifferent(before.events, Notice(OrderStatusChanged, ids[|ids| - 1]));
      hide Record, KeysDiffer, Stale;
    }
  }

  lemma CreateRecords(s: State, step: Step)
    requires step.CreateTx?
    ensures Next(s, step).db.events == s.db.events || exists e :: Next(s, step).db.events == Record(s.db.events, e)
  {
    hide Loaded, JobOk, NewRow, PrintOf, LinesOf, ShopOf, KeyOf, Record;
  }

  lemma ImportRecords(s: State, step: Step)
    requires step.InsertImport?
    ensures Next(s, step).db.events == s.db.events || exists e :: Next(s, step).db.events == Record(s.db.events, e)
  {
    hide Loaded, JobOk, NewRow, PrintOf, LinesOf, ShopOf, KeyOf, Record;
  }

  lemma InsertKeepsDifferent(s: State, step: Step)
    requires (step.CreateTx? || step.InsertImport?) && KeysDiffer(s.db.events)
    ensures KeysDiffer(Next(s, step).db.events)
  {
    hide Next, KeysDiffer, Record;
    if step.CreateTx? { CreateRecords(s, step); } else { ImportRecords(s, step); }
    if Next(s, step).db.events != s.db.events {
      var e :| Next(s, step).db.events == Record(s.db.events, e);
      RecordKeepsDifferent(s.db.events, e);
    }
  }

  lemma CommitKeepsDifferent(s: State, step: Step)
    requires (step.CommitRow? || step.CommitSweep?) && KeysDiffer(s.db.events)
    ensures KeysDiffer(Next(s, step).db.events)
  {
    if step.CommitSweep? && Enabled(s, step) {
      SweepKeepsDifferent(s.db, s.requests[step.r].phase.marked, s.requests[step.r].job.cutoff);
    }
    hide Loaded, JobOk, CancelAll;
  }

  lemma SellerKeepsDifferent(s: State, step: Step)
    requires step.PatchOrder? || step.RequestFinalPayment? || step.ConfirmFinalPayment? || step.RotateLink?
             || step.Observe?
    requires KeysDiffer(s.db.events)
    ensures KeysDiffer(Next(s, step).db.events)
  {
    hide Loaded, JobOk, MergeDetails, MergeRemarks;
  }

  lemma StepKeepsDifferent(s: State, step: Step)
    requires KeysDiffer(s.db.events)
    ensures KeysDiffer(Next(s, step).db.events)
  {
    hide Next, KeysDiffer;
    if !Writes(step) { OthersOnlyRead(s, step); }
    else if step.CreateTx? || step.InsertImport? { InsertKeepsDifferent(s, step); }
    else if step.CommitRow? || step.CommitSweep? { CommitKeepsDifferent(s, step); }
    else { SellerKeepsDifferent(s, step); }
  }

  /** In every run no two events share a name and a key, so no view and no creation is counted twice. */
  lemma {:induction false} EventKeysAreUnique(catalog: Catalog, steps: seq<Step>)
    ensures KeysDiffer(Run(catalog, steps).db.events)
  {
    if steps != [] {
      EventKeysAreUnique(catalog, steps[..|steps| - 1]);
      hide Next;
      StepKeepsDifferent(Run(catalog, steps[..|steps| - 1]), steps[|steps| - 1]);
    }
  }
}
