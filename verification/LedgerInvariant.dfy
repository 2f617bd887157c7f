/** The invariant of the ledger and its preservation by every step. */
module LedgerInvariant {
  import opened Wrappers
  import opened Customers
  import opened Orders
  import opened Ledger

  // ---------------------------------------------------------------- which file names rows refer to

  /** A receipt column of a row: the initial or the final one. */
  datatype Slot = Slot(id: OrderId, final: bool)

  function SlotRef(db: Db, slot: Slot): Option<Token> {
    if slot.id !in db.orders then None
    else if slot.final then db.orders[slot.id].finalReceipt
    else db.orders[slot.id].receipt
  }

  ghost predicate Referenced(db: Db, name: Token) {
    exists slot :: SlotRef(db, slot) == Some(name)
  }

  ghost predicate RefsUnique(db: Db) {
    forall a, b :: SlotRef(db, a).Some? && SlotRef(db, a) == SlotRef(db, b) ==> a == b
  }

  // ---------------------------------------------------------------- requests

  /** Request r has left no trace in the tables. */
  ghost predicate Untouched(db: Db, r: ReqId) {
    && !Referenced(db, r)
    && (forall id :: id in db.orders ==> db.orders[id].origin != r)
  }

  predicate Holds(q: Request, id: OrderId) {
    q.phase == Locked(id) || (q.phase.Marking? && id in q.phase.marked)
  }

  /** What the holder of a row lock may rely on until it commits. */
  predicate Secured(db: Db, q: Request, id: OrderId) {
    id in db.orders &&
    match q.job
    case SubmitDetails(_, _) => db.orders[id].submittedAt.None? && db.orders[id].status == WaitingInfo
    case SubmitFinalReceipt(_) =>
      && db.orders[id].initialPayment.Some? && db.orders[id].requestedAt.Some? && db.orders[id].status != Cancelled
      && db.orders[id].finalReceipt.None? && db.orders[id].confirmedAt.None?
    case Sweep(cutoff) => Stale(db.orders[id], cutoff)
    case _ => false
  }

  /** The phases each kind of request goes through. */
  predicate PhaseFits(q: Request) {
    match q.phase
    case Started => true
    case Missing => Creates(q.job)
    case Lost => Creates(q.job)
    case Checked(_, _) => q.job.Import?
    case Opened(_) => q.job.SubmitDetails? || q.job.SubmitFinalReceipt?
    case Locked(_) => q.job.SubmitDetails? || q.job.SubmitFinalReceipt?
    case Marking(_, _) => q.job.Sweep?
    case Closing(_) => true
  }

  /** A 201 names a row that carries the request's key and fingerprint. */
  predicate CreatedOk(db: Db, job: Job, reply: Reply) {
    reply.Created? ==>
      && Creates(job) && reply.id in db.orders
      && db.orders[reply.id].createKey == KeyOf(job)
          && db.orders[reply.id].fingerprint == PrintOf(job) == reply.fingerprint
  }

  /** Only a request that replies 201 can have inserted a row, and it is the row it names. */
  predicate InsertsOnly(db: Db, r: ReqId, reply: Reply) {
    forall id :: id in db.orders && db.orders[id].origin == r ==> reply.Created? && reply.id == id
  }

  predicate Distinct(ids: seq<OrderId>) {
    forall i, j :: 0 <= i < j < |ids| ==> ids[i] != ids[j]
  }

  ghost predicate ReqOk(s: State, r: ReqId)
    requires r in s.requests
  {
    var q := s.requests[r];
    && r < s.nextReq && JobOk(q.job) && PhaseFits(q)
    && (q.image != NoImage ==> NeedsFile(q.job) && !Referenced(s.db, r))
    && (!q.phase.Closing? ==> Untouched(s.db, r))
    && (q.phase.Lost? ==> KeyTaken(s.db, KeyOf(q.job)))
    && (q.phase.Closing? ==> CreatedOk(s.db, q.job, q.phase.reply) && InsertsOnly(s.db, r, q.phase.reply))
    && (q.phase.Marking? ==> Distinct(q.phase.marked))
    && (forall id :: Holds(q, id) ==> id in s.locks && s.locks[id] == r && Secured(s.db, q, id))
  }

  /** A response already sent: its request is gone, its 201 still true, its unreferenced files deleted. */
  ghost predicate ResponseOk(s: State, p: Response) {
    && p.req < s.nextReq && p.req !in s.requests && JobOk(p.job)
    && CreatedOk(s.db, p.job, p.reply) && InsertsOnly(s.db, p.req, p.reply)
    && (forall f :: f in s.files && f.req == p.req ==> f.Stored? && Referenced(s.db, p.req))
  }

  // ---------------------------------------------------------------- files

  /** Why a file exists: a row names it, a request in flight owns it, or a crash stranded it. */
  ghost predicate Accounted(s: State, f: FileName) {
    (f.Stored? && Referenced(s.db, f.req)) || OwnsFile(s, f) || f in s.orphans
  }

  ghost predicate FilesOk(s: State) {
    forall f: FileName :: f in s.files <==> Accounted(s, f)
  }

  ghost predicate OrphansOk(s: State) {
    forall f :: f in s.orphans ==> f.req < s.nextReq && f.req !in s.requests && !Referenced(s.db, f.req)
  }

  ghost predicate LocksOk(s: State) {
    forall id :: id in s.locks ==> s.locks[id] in s.requests && Holds(s.requests[s.locks[id]], id)
  }

  /** Names in the tables were drawn by earlier requests. */
  ghost predicate NamesOld(s: State) {
    && (forall slot :: SlotRef(s.db, slot).Some? ==> SlotRef(s.db, slot).value < s.nextReq)
    && (forall id :: id in s.db.orders ==> s.db.orders[id].origin < s.nextReq)
  }

  ghost predicate ReqsOk(s: State) {
    forall r :: r in s.requests ==> ReqOk(s, r)
  }

  ghost predicate ResponsesOk(s: State) {
    forall i :: 0 <= i < |s.replies| ==> ResponseOk(s, s.replies[i])
  }

  ghost predicate Inv(s: State) {
    && DbOk(s.db) && PricesOk(s.catalog)
    && RefsUnique(s.db) && NamesOld(s)
    && ReqsOk(s) && LocksOk(s)
    && FilesOk(s) && OrphansOk(s)
    && ResponsesOk(s)
  }

  lemma InitInv(catalog: Catalog)
    requires PricesOk(catalog)
    ensures Inv(Init(catalog))
  {
  }

  // ---------------------------------------------------------------- framing: what a step of r leaves to others

  ghost predicate LocksFrame(s: State, t: State, r: ReqId) {
    && (forall id :: id in s.locks && s.locks[id] != r ==>
          id in t.locks && t.locks[id] == s.locks[id] && id in s.db.orders && id in t.db.orders
              && t.db.orders[id] == s.db.orders[id])
    && (forall id :: id in t.locks ==> t.locks[id] == r || (id in s.locks && t.locks[id] == s.locks[id]))
  }

  /** A table change on behalf of r: others' names and origins stay as they were. */
  ghost predicate DbFrame(before: Db, after: Db, r: ReqId) {
    && DbEvolves(before, after)
    && (forall n :: n != r ==> (Referenced(after, n) <==> Referenced(before, n)))
    && (forall id :: id in after.orders && id !in before.orders ==> after.orders[id].origin == r)
  }

  ghost predicate Frame(s: State, t: State, r: ReqId) {
    && (forall x :: x != r ==> (x in t.requests <==> x in s.requests))
    && (forall x :: x != r && x in s.requests ==> t.requests[x] == s.requests[x])
    && s.nextReq <= t.nextReq
    && DbFrame(s.db, t.db, r)
    && LocksFrame(s, t, r)
    && (forall f: FileName :: f.req != r ==> (f in t.files <==> f in s.files))
    && t.orphans == s.orphans
    && PricesOk(t.catalog)
  }

  lemma OthersStayOk(s: State, t: State, r: ReqId, x: ReqId)
    requires Frame(s, t, r) && x != r && x in s.requests && ReqOk(s, x)
    ensures ReqOk(t, x)
  {
    var q := s.requests[x];
    assert t.requests[x] == q;
    forall id | id in t.db.orders && t.db.orders[id].origin == x
      ensures id in s.db.orders && s.db.orders[id].origin == x
    {
      if id in s.db.orders { assert RowEvolves(s.db.orders[id], t.db.orders[id]); }
    }
    if q.phase.Lost? {
      var id :| id in s.db.orders && s.db.orders[id].createKey == KeyOf(q.job);
      assert RowEvolves(s.db.orders[id], t.db.orders[id]);
    }
    if q.phase.Closing? && q.phase.reply.Created? {
      assert RowEvolves(s.db.orders[q.phase.reply.id], t.db.orders[q.phase.reply.id]);
    }
    forall id | Holds(q, id) ensures id in t.locks && t.locks[id] == x && Secured(t.db, q, id) {
      assert t.db.orders[id] == s.db.orders[id];
    }
  }

  lemma ResponseStaysOk(s: State, t: State, r: ReqId, p: Response)
    requires Frame(s, t, r) && p.req != r && ResponseOk(s, p)
    ensures ResponseOk(t, p)
  {
    forall id | id in t.db.orders && t.db.orders[id].origin == p.req
      ensures id in s.db.orders && s.db.orders[id].origin == p.req
    {
      if id in s.db.orders { assert RowEvolves(s.db.orders[id], t.db.orders[id]); }
    }
    if p.reply.Created? {
      assert RowEvolves(s.db.orders[p.reply.id], t.db.orders[p.reply.id]);
    }
  }

  /** The facts about r itself that a step must establish. */
  ghost predicate Local(s: State, t: State, r: ReqId) {
    && (r in t.requests ==> ReqOk(t, r))
    && (forall id :: id in t.locks && t.locks[id] == r ==> r in t.requests && Holds(t.requests[r], id))
    && (forall f: FileName :: f.req == r ==> (f in t.files <==> Accounted(t, f)))
    && (forall f :: f in t.orphans ==> f.req != r)
  }

  lemma RequestsFrame(s: State, t: State, r: ReqId)
    requires ReqsOk(s) && Frame(s, t, r) && (r in t.requests ==> ReqOk(t, r))
    ensures ReqsOk(t)
  {
    forall x | x in t.requests ensures ReqOk(t, x) {
      if x != r { OthersStayOk(s, t, r, x); }
    }
  }

  lemma LocksStayOk(s: State, t: State, r: ReqId)
    requires LocksOk(s) && Frame(s, t, r)
    requires forall id :: id in t.locks && t.locks[id] == r ==> r in t.requests && Holds(t.requests[r], id)
    ensures LocksOk(t)
  {
  }

  lemma ResponsesFrame(s: State, t: State, r: ReqId)
    requires ResponsesOk(s) && Frame(s, t, r) && s.replies <= t.replies
    requires forall i :: 0 <= i < |s.replies| ==> s.replies[i].req != r
    requires forall i :: |s.replies| <= i < |t.replies| ==> ResponseOk(t, t.replies[i])
    ensures ResponsesOk(t)
  {
    forall i | 0 <= i < |t.replies| ensures ResponseOk(t, t.replies[i]) {
      if i < |s.replies| {
        assert t.replies[i] == s.replies[i];
        ResponseStaysOk(s, t, r, s.replies[i]);
      }
    }
  }

  /** The framing rule: a step of r keeps the invariant when r's own part is right. */
  lemma FrameRule(s: State, t: State, r: ReqId)
    requires Inv(s) && Frame(s, t, r) && Local(s, t, r)
    requires DbOk(t.db) && RefsUnique(t.db) && NamesOld(t)
    requires s.replies <= t.replies
    requires forall i :: 0 <= i < |s.replies| ==> s.replies[i].req != r
    requires forall i :: |s.replies| <= i < |t.replies| ==> ResponseOk(t, t.replies[i])
    ensures Inv(t)
  {
    RequestsFrame(s, t, r);
    LocksStayOk(s, t, r);
    ResponsesFrame(s, t, r);
    FilesFrame(s, t, r);
  }

  lemma FilesFrame(s: State, t: State, r: ReqId)
    requires FilesOk(s) && OrphansOk(s) && Frame(s, t, r)
    requires forall f: FileName :: f.req == r ==> (f in t.files <==> Accounted(t, f))
    requires forall f :: f in t.orphans ==> f.req != r
    ensures FilesOk(t) && OrphansOk(t)
  {
    forall f: FileName ensures f in t.files <==> Accounted(t, f) {
      if f.req != r {
        assert OwnsFile(t, f) <==> OwnsFile(s, f);
        assert Accounted(t, f) <==> Accounted(s, f);
      }
    }
  }

  /** The same rule for the step that sends the reply of r. */
  lemma FrameRuleWithReply(s: State, t: State, r: ReqId, p: Response)
    requires Inv(s) && Frame(s, t, r) && Local(s, t, r)
    requires DbOk(t.db) && RefsUnique(t.db) && NamesOld(t)
    requires t.replies == s.replies + [p] && ResponseOk(t, p)
    requires forall i :: 0 <= i < |s.replies| ==> s.replies[i].req != r
    ensures Inv(t)
  {
    forall i | |s.replies| <= i < |t.replies| ensures ResponseOk(t, t.replies[i]) {
      assert t.replies[i] == p;
    }
    FrameRule(s, t, r);
  }

  // ---------------------------------------------------------------- table changes and names

  /** Receipt columns and origins as they were. */
  ghost predicate SlotsSame(before: Db, after: Db) {
    && after.orders.Keys == before.orders.Keys
    && (forall id :: id in before.orders ==>
          && after.orders[id].receipt == before.orders[id].receipt
          && after.orders[id].finalReceipt == before.orders[id].finalReceipt
          && after.orders[id].origin == before.orders[id].origin)
  }

  lemma SlotsSameFrame(before: Db, after: Db, r: ReqId)
    requires SlotsSame(before, after) && DbEvolves(before, after)
    ensures DbFrame(before, after, r)
    ensures RefsUnique(before) ==> RefsUnique(after)
    ensures forall n: Token :: Referenced(after, n) <==> Referenced(before, n)
  {
    assert forall slot :: SlotRef(after, slot) == SlotRef(before, slot);
    forall n: Token ensures Referenced(after, n) <==> Referenced(before, n) {
      if slot :| SlotRef(before, slot) == Some(n) { assert SlotRef(after, slot) == Some(n); }
      if slot :| SlotRef(after, slot) == Some(n) { assert SlotRef(before, slot) == Some(n); }
    }
  }

  /** One empty receipt column, of an old or a new row, gains the name r or stays empty. */
  ghost predicate SlotGains(before: Db, after: Db, slot: Slot, gained: Option<Token>) {
    && SlotRef(before, slot) == None && SlotRef(after, slot) == gained
    && (forall other :: other != slot ==> SlotRef(after, other) == SlotRef(before, other))
  }

  lemma SlotGainsFrame(before: Db, after: Db, slot: Slot, r: ReqId)
    requires RefsUnique(before) && !Referenced(before, r)
    requires SlotGains(before, after, slot, Some(r)) || SlotGains(before, after, slot, None)
    ensures RefsUnique(after)
    ensures forall n :: n != r ==> (Referenced(after, n) <==> Referenced(before, n))
    ensures Referenced(after, r) <==> SlotGains(before, after, slot, Some(r))
  {
    forall n | n != r ensures Referenced(after, n) <==> Referenced(before, n) {
      if a :| SlotRef(before, a) == Some(n) { assert SlotRef(after, a) == Some(n); }
      if a :| SlotRef(after, a) == Some(n) { assert SlotRef(before, a) == Some(n); }
    }
    assert forall a :: SlotRef(before, a) != Some(r);
    if SlotGains(before, after, slot, Some(r)) {
      assert SlotRef(after, slot) == Some(r);
    } else {
      assert forall a :: SlotRef(after, a) == SlotRef(before, a);
    }
    forall a, b | SlotRef(after, a).Some? && SlotRef(after, a) == SlotRef(after, b) ensures a == b {
      if a != slot && b != slot {
        assert SlotRef(before, a) == SlotRef(before, b);
      }
    }
  }
}
