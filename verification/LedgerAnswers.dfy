/** What each step of the ledger does to the tables and how it answers, said column by column. */
module LedgerAnswers {
  import opened Wrappers
  import opened Customers
  import opened Orders
  import opened Edits
  import opened Ledger
  import opened LedgerInvariant
  import opened LedgerSafety
  import opened LedgerSubmissions

  // ---------------------------------------------------------------- who sees an order

  /** The join of the seller's queries: the order's shop exists and the seller has access to it. */
  predicate Sees(s: State, admin: AdminId, id: OrderId) {
    id in s.db.orders && s.db.orders[id].shop in s.catalog.shops && (admin, s.db.orders[id].shop) in s.catalog.access
  }

  /** A request that passed its checks starts with nothing looked up, written or uploaded. */
  lemma ArrivalStarts(s: State, job: Job)
    requires JobOk(job)
    ensures var t := Next(s, Arrive(job));
            && t.requests == s.requests[s.nextReq := Request(job, Started, NoImage)] && t.nextReq == s.nextReq + 1
            && t.db == s.db && t.files == s.files && t.locks == s.locks && t.replies == s.replies
  {
    hide Loaded, JobOk;
  }

  /** The first lookup of a creation answers from an order with the request's key that the seller may
      see: 201 for the same request, 409 for another; without one the request goes on. */
  lemma FirstLookupAnswers(s: State, r: ReqId)
    requires Enabled(s, Lookup(r)) && Creates(s.requests[r].job) && KeysOk(s.db)
    ensures var t := Next(s, Lookup(r));
            var job := s.requests[r].job;
            && t.db == s.db && r in t.requests && t.requests[r].job == job
            && (forall id :: id in s.db.orders && s.db.orders[id].createKey == KeyOf(job) ==>
                  t.requests[r].phase ==
                    if (job.admin, s.db.orders[id].shop) !in s.catalog.access then Missing
                    else if s.db.orders[id].fingerprint == PrintOf(job) then Closing(Created(id, PrintOf(job)))
                    else Closing(Refused(Conflict)))
            && ((forall id :: id in s.db.orders ==> s.db.orders[id].createKey != KeyOf(job)) ==>
                  t.requests[r].phase == Missing)
  {
    var job := s.requests[r].job;
    VisibleFacts(s.db, s.catalog, job.admin, KeyOf(job));
    hide Loaded, Visible, PrintOf, KeyOf, JobOk;
  }

  /** What a public link finds: 404 for a token no order has, 409 for details already submitted. */
  lemma PublicLookupAnswers(s: State, r: ReqId)
    requires Enabled(s, Lookup(r)) && !Creates(s.requests[r].job)
    ensures var t := Next(s, Lookup(r));
            var job := s.requests[r].job;
            && t.db == s.db && r in t.requests && t.requests[r].job == job
            && ((forall id :: id in s.db.orders ==> s.db.orders[id].token != job.token) ==>
                  t.requests[r].phase == Closing(Refused(NotFound)))
            && ((exists id :: id in s.db.orders && s.db.orders[id].token == job.token) ==>
                  exists id :: id in s.db.orders && s.db.orders[id].token == job.token && t.requests[r].phase ==
                    if job.SubmitDetails? && s.db.orders[id].submittedAt.Some? then Closing(Refused(Conflict))
                    else Opened(id))
  {
    hide Loaded, JobOk;
  }

  /** The reply decided in any way is the one sent, once, and then the request is gone, with the files
      it still owned. */
  lemma CloseAnswers(s: State, r: ReqId)
    requires Enabled(s, Close(r))
    ensures var t := Next(s, Close(r));
            var q := s.requests[r];
            && t.db == s.db && t.locks == s.locks
            && t.replies == s.replies + [Response(r, q.job, q.phase.reply)]
            && t.requests.Keys == s.requests.Keys - {r}
            && (forall x :: x in t.requests ==> t.requests[x] == s.requests[x])
            && (forall f :: f in t.files <==> f in s.files && (q.image == NoImage || f.req != r))
  {
    hide Loaded, JobOk;
  }

  // ---------------------------------------------------------------- the customer

  /** Under the row lock: the link still leads here, and the details, or the final receipt, are still due. */
  predicate StillDue(o: Order, job: Job) {
    if job.SubmitDetails? then o.submittedAt.None? && o.status == WaitingInfo
    else o.initialPayment.Some? && o.requestedAt.Some? && o.status != Cancelled
         && o.finalReceipt.None? && o.confirmedAt.None?
  }

  lemma LockAnswers(s: State, r: ReqId)
    requires Enabled(s, LockRow(r)) && PhaseFits(s.requests[r])
    ensures var t := Next(s, LockRow(r));
            var id, job := s.requests[r].phase.id, s.requests[r].job;
            && t.db == s.db && r in t.requests
            && t.requests[r].phase ==
                 (if id !in s.db.orders || s.db.orders[id].token != job.token then Closing(Refused(NotFound))
                  else if StillDue(s.db.orders[id], job) then Locked(id)
                  else Closing(Refused(Conflict)))
            && (t.requests[r].phase.Locked? ==> id in t.locks && t.locks[id] == r)
  {
    hide Loaded, JobOk;
  }

  lemma LockedIsDue(s: State, r: ReqId)
    requires r in s.requests && s.requests[r].phase.Locked? && Inv(s)
    ensures var id, job := s.requests[r].phase.id, s.requests[r].job;
            && id in s.db.orders && (job.SubmitDetails? || job.SubmitFinalReceipt?) && StillDue(s.db.orders[id], job)
  {
    InvParts(s, r);
    hide Inv, DbOk, RefsUnique, NamesOld, JobOk;
    LockedIsSecured(s, r);
    hide ReqOk;
  }

  /** An accepted submission of details: the row waits for the seller's approval of the payment and
      holds the details, the moment and the receipt; the history has one entry more, which no seller
      made; nothing else changes. */
  lemma DetailsCommitted(s: State, r: ReqId, now: Time)
    requires r in s.requests && s.requests[r].phase.Locked? && s.requests[r].job.SubmitDetails?
    requires Inv(s) && Enabled(s, CommitRow(r, now))
    ensures var t := Next(s, CommitRow(r, now));
            var id := s.requests[r].phase.id;
            && id in s.db.orders && s.db.orders[id].status == WaitingInfo && s.db.orders[id].submittedAt == None
            && t.db.orders == s.db.orders[id := s.db.orders[id].(
                 customer := s.requests[r].job.details, submittedAt := Some(now), status := WaitingPayment,
                 receipt := Some(r))]
            && t.db.history == s.db.history + [Entry(id, Some(WaitingInfo), WaitingPayment, None)]
            && t.db.events == s.db.events + [Event(CustomerSubmitted, Some(id), None)]
                                          + [Event(OrderStatusChanged, Some(id), None)]
            && r in t.requests && t.requests[r].phase == Closing(Accepted)
  {
    LockedIsDue(s, r);
    CommitIsCommit(s, r, now);
    hide Inv, Enabled, Next;
  }

  /** An accepted final receipt fills its column and nothing else. */
  lemma FinalReceiptCommitted(s: State, r: ReqId, now: Time)
    requires r in s.requests && s.requests[r].phase.Locked? && s.requests[r].job.SubmitFinalReceipt?
    requires Inv(s) && Enabled(s, CommitRow(r, now))
    ensures var t := Next(s, CommitRow(r, now));
            var id := s.requests[r].phase.id;
            && id in s.db.orders && s.db.orders[id].finalReceipt == None
            && t.db.orders == s.db.orders[id := s.db.orders[id].(finalReceipt := Some(r))]
            && t.db.history == s.db.history
            && t.db.events == s.db.events + [Event(FinalReceiptSubmitted, Some(id), None)]
            && r in t.requests && t.requests[r].phase == Closing(Accepted)
  {
    LockedIsDue(s, r);
    CommitIsCommit(s, r, now);
    hide Inv, Enabled, Next;
  }

  // ---------------------------------------------------------------- the seller

  /** An edit writes exactly when the row is free, the seller sees the order, and none of the refusals
      applies; then the order is edited as asked. */
  lemma EditAnswers(s: State, admin: AdminId, id: OrderId, p: Patch)
    requires SubmittedValid(s.db)
    ensures var t := Next(s, PatchOrder(admin, id, p));
            if id !in s.locks && id in s.db.orders && (admin, s.db.orders[id].shop) in s.catalog.access
               && !(NamesCustomer(p) && s.db.orders[id].submittedAt.None?) && !NamesInvalid(p)
               && !StatusRefused(s.db.orders[id], p)
            then Edited(s.db, t.db, admin, id, p) && t == s.(db := t.db)
            else t == s
  {
    EditIsDecided(s.db, admin, Allowed(s, admin, id), id, p);
    hide Loaded, JobOk, Update, Edited, SubmittedValid, StatusRefused;
  }

  /** The first payment of a split order was received: submitted with a receipt, approved by a seller
      once, and not cancelled or reopened since. */
  predicate FirstPaymentApproved(db: Db, id: OrderId)
    requires id in db.orders
  {
    var o := db.orders[id];
    && o.initialPayment.Some? && o.submittedAt.Some? && o.receipt.Some?
    && (o.status == Paid || o.status == Preparing || o.status == Shipped)
    && exists i :: 0 <= i < |db.history| && db.history[i].order == id && db.history[i].status == Paid
  }

  /** The first request for the final payment stores the moment and the payment columns the shop has at
      that moment; it is made exactly when the seller sees the order and its first payment is approved. */
  lemma FinalRequestAnswers(s: State, admin: AdminId, id: OrderId, now: Time)
    ensures var t := Next(s, RequestFinalPayment(admin, id, now));
            if id !in s.locks && Sees(s, admin, id) && s.db.orders[id].requestedAt.None?
                && FirstPaymentApproved(s.db, id)
            then
              && t.db.orders == s.db.orders[id := s.db.orders[id].(
                   requestedAt := Some(now), finalPayment := s.catalog.shops[s.db.orders[id].shop].payment)]
              && t.db.history == s.db.history
              && t.db.events == s.db.events + [Event(FinalPaymentRequested, Some(id), None)]
              && t == s.(db := t.db)
            else t == s
  {
    hide Loaded, JobOk;
  }

  /** A confirmation stores the moment and the seller, once the final receipt is there, unless the order
      was cancelled. */
  lemma ConfirmationAnswers(s: State, admin: AdminId, id: OrderId, now: Time)
    ensures var t := Next(s, ConfirmFinalPayment(admin, id, now));
            if id !in s.locks && id in s.db.orders && (admin, s.db.orders[id].shop) in s.catalog.access
               && s.db.orders[id].confirmedAt.None? && s.db.orders[id].initialPayment.Some?
               && s.db.orders[id].requestedAt.Some? && s.db.orders[id].finalReceipt.Some?
               && s.db.orders[id].status != Cancelled
            then
              && t.db.orders == s.db.orders[id :=
                  s.db.orders[id].(confirmedAt := Some(now), confirmedBy := Some(admin))]
              && t.db.history == s.db.history
              && t.db.events == s.db.events + [Event(FinalPaymentConfirmed, Some(id), None)]
              && t == s.(db := t.db)
            else t == s
  {
    hide Loaded, JobOk;
  }

  /** A new link makes the old one lead nowhere and changes nothing else of the order. */
  lemma RotationAnswers(s: State, admin: AdminId, id: OrderId)
    ensures var t := Next(s, RotateLink(admin, id));
            if id !in s.locks && id in s.db.orders && (admin, s.db.orders[id].shop) in s.catalog.access
            then
              && t.db.orders == s.db.orders[id := s.db.orders[id].(token := s.nextReq)]
              && t.db.history == s.db.history
              && t.db.events == s.db.events + [Event(LinkRotated, Some(id), None)]
            else t.db == s.db
  {
    hide Loaded, JobOk;
  }

  // ---------------------------------------------------------------- the sweep

  /** The list is taken of exactly the orders still waiting for information since before the cutoff. */
  lemma SweepLists(s: State, r: ReqId, ids: seq<OrderId>, id: OrderId)
    requires Enabled(s, ListStale(r, ids))
    ensures id in ids <==> id in s.db.orders && s.db.orders[id].status == WaitingInfo
                           && s.db.orders[id].createdAt <= s.requests[r].job.cutoff
    ensures Next(s, ListStale(r, ids)) == s.(requests := s.requests[r := s.requests[r].(phase := Marking(ids, []))])
  {
    hide Loaded, JobOk;
    var listed := set i | 0 <= i < |ids| :: ids[i];
    assert id in ids <==> id in listed;
    assert listed == StaleIds(s.db, s.requests[r].job.cutoff);
  }

  /** A listed row is locked and marked when it still matches, and skipped otherwise. */
  lemma SweepMarks(s: State, r: ReqId)
    requires Enabled(s, MarkNext(r))
    ensures var t := Next(s, MarkNext(r));
            var Marking(todo, marked) := s.requests[r].phase;
            var id := todo[0];
            && t.db == s.db && r in t.requests
            && if id in s.db.orders && s.db.orders[id].status == WaitingInfo
                  && s.db.orders[id].createdAt <= s.requests[r].job.cutoff
               then t.requests[r].phase == Marking(todo[1..], marked + [id]) && t.locks == s.locks[id := r]
               else t.requests[r].phase == Marking(todo[1..], marked) && t.locks == s.locks
  {
    hide Loaded, JobOk;
  }

  // ---------------------------------------------------------------- events

  /** An event is stored unless it has a key and one of its name has that key already. */
  lemma EventAnswers(s: State, e: Event)
    requires !Structural(e.name)
    ensures var t := Next(s, Observe(e));
            && t.db.orders == s.db.orders && t.db.history == s.db.history
            && t.db.events == if exists i :: 0 <= i < |s.db.events| && s.db.events[i].name == e.name
                                             && s.db.events[i].key == e.key && e.key != None
                              then s.db.events else s.db.events + [e]
  {
    hide Loaded, JobOk;
  }
}
