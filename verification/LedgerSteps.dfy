/** Every step of the ledger keeps its invariant. */
module LedgerSteps {
  import opened Orders
  import opened Ledger
  import opened LedgerInvariant

  // ---------------------------------------------------------------- small facts about r

  lemma NoReplyYet(s: State, r: ReqId)
    requires ResponsesOk(s) && (r in s.requests || r >= s.nextReq)
    ensures forall i :: 0 <= i < |s.replies| ==> s.replies[i].req != r
  {
    forall i | 0 <= i < |s.replies| ensures s.replies[i].req != r {
      assert ResponseOk(s, s.replies[i]);
    }
  }

  lemma SameDbFrame(db: Db, r: ReqId)
    ensures DbFrame(db, db, r)
  {
    assert forall id :: id in db.orders ==> RowEvolves(db.orders[id], db.orders[id]);
  }

  /** A locked row exists, since its holder has secured it. */
  lemma LockedRowExists(s: State, id: OrderId)
    requires ReqsOk(s) && LocksOk(s) && id in s.locks
    ensures id in s.db.orders
  {
    assert ReqOk(s, s.locks[id]);
  }

  lemma AllLockedRowsExist(s: State)
    requires ReqsOk(s) && LocksOk(s)
    ensures forall id :: id in s.locks ==> id in s.db.orders
  {
    forall id | id in s.locks ensures id in s.db.orders {
      LockedRowExists(s, id);
    }
  }

  lemma RequestsBelow(s: State)
    requires ReqsOk(s)
    ensures forall r :: r in s.requests ==> r < s.nextReq
  {
    forall r | r in s.requests ensures r < s.nextReq {
      assert ReqOk(s, r);
    }
  }

  // ---------------------------------------------------------------- steps that leave the tables alone

  /** The files of r are as the invariant has them, before any change. */
  ghost predicate FilesOf(s: State, r: ReqId) {
    forall f: FileName :: f.req == r ==> (f in s.files <==> Accounted(s, f))
  }

  /** The framing rule for a step of r that leaves the tables alone. */
  lemma SameTables(s: State, t: State, r: ReqId)
    requires r in s.requests && Inv(s) && r in t.requests
    requires t == s.(requests := s.requests[r := t.requests[r]], locks := t.locks, files := t.files)
    requires LocksFrame(s, t, r)
    requires forall f: FileName :: f.req != r ==> (f in t.files <==> f in s.files)
    requires ReqOk(t, r) && FilesOf(t, r)
    requires forall id :: id in t.locks && t.locks[id] == r ==> Holds(t.requests[r], id)
    ensures Inv(t)
  {
    NoReplyYet(s, r);
    SameDbFrame(s.db, r);
    FrameRule(s, t, r);
  }

  lemma FilesUntouched(s: State, t: State, r: ReqId)
    requires FilesOk(s) && r in s.requests && r in t.requests
    requires t.files == s.files && t.db == s.db && t.orphans == s.orphans && t.requests[r].image == s.requests[r].image
    ensures FilesOf(t, r)
  {
    forall f: FileName | f.req == r ensures f in t.files <==> Accounted(t, f) {
      assert OwnsFile(t, f) <==> OwnsFile(s, f);
      assert Accounted(t, f) <==> Accounted(s, f);
    }
  }

  /** A request moves on holding the same locks, possibly with the loss of the insert race. */
  lemma GoKeeps(s: State, r: ReqId, phase: Phase)
    requires r in s.requests && !s.requests[r].phase.Closing? && !phase.Closing? && Inv(s)
    requires PhaseFits(s.requests[r].(phase := phase)) && (phase.Marking? ==> Distinct(phase.marked))
    requires phase.Lost? ==> KeyTaken(s.db, KeyOf(s.requests[r].job))
    requires forall id :: Holds(s.requests[r].(phase := phase), id) <==> Holds(s.requests[r], id)
    ensures Inv(Go(s, r, phase))
  {
    var t := Go(s, r, phase);
    AllLockedRowsExist(s);
    FilesUntouched(s, t, r);
    assert ReqOk(s, r);
    MovedReqOk(s, r, phase);
    SameTables(s, t, r);
  }

  lemma MovedReqOk(s: State, r: ReqId, phase: Phase)
    requires r in s.requests && !s.requests[r].phase.Closing? && !phase.Closing? && ReqOk(s, r)
    requires PhaseFits(s.requests[r].(phase := phase)) && (phase.Marking? ==> Distinct(phase.marked))
    requires phase.Lost? ==> KeyTaken(s.db, KeyOf(s.requests[r].job))
    requires forall id :: Holds(s.requests[r].(phase := phase), id) <==> Holds(s.requests[r], id)
    ensures ReqOk(Go(s, r, phase), r)
  {
    var q := Go(s, r, phase).requests[r];
    forall id | Holds(q, id) ensures Secured(s.db, q, id) {
      assert Secured(s.db, s.requests[r], id);
    }
  }

  /** A request takes one more row lock on a row it has just secured. */
  lemma LockKeeps(s: State, r: ReqId, phase: Phase, id: OrderId)
    requires r in s.requests && Inv(s) && id !in s.locks
    requires !s.requests[r].phase.Closing? && (phase.Locked? || phase.Marking?)
    requires PhaseFits(s.requests[r].(phase := phase)) && (phase.Marking? ==> Distinct(phase.marked))
    requires Secured(s.db, s.requests[r].(phase := phase), id)
    requires forall x :: Holds(s.requests[r].(phase := phase), x) <==> x == id || Holds(s.requests[r], x)
    ensures Inv(Go(s, r, phase).(locks := s.locks[id := r]))
  {
    var t := Go(s, r, phase).(locks := s.locks[id := r]);
    LockedReqOk(s, r, phase, id);
    AllLockedRowsExist(s);
    LockedLocks(s, r, phase, id);
    assert FilesOk(s);
    hide Inv, ReqOk, FilesOk, FilesOf, LocksFrame, Secured, PhaseFits, Distinct;
    FilesUntouched(s, t, r);
    SameTables(s, t, r);
  }

  lemma LockedLocks(s: State, r: ReqId, phase: Phase, id: OrderId)
    requires r in s.requests && LocksOk(s) && id !in s.locks && forall x :: x in s.locks ==> x in s.db.orders
    requires forall x :: Holds(s.requests[r].(phase := phase), x) <==> x == id || Holds(s.requests[r], x)
    ensures var t := Go(s, r, phase).(locks := s.locks[id := r]);
            LocksFrame(s, t, r) && forall x :: x in t.locks && t.locks[x] == r ==> Holds(t.requests[r], x)
  {
    hide Holds;
  }

  lemma LockedReqOk(s: State, r: ReqId, phase: Phase, id: OrderId)
    requires r in s.requests && Inv(s) && id !in s.locks
    requires !s.requests[r].phase.Closing? && (phase.Locked? || phase.Marking?)
    requires PhaseFits(s.requests[r].(phase := phase)) && (phase.Marking? ==> Distinct(phase.marked))
    requires Secured(s.db, s.requests[r].(phase := phase), id)
    requires forall x :: Holds(s.requests[r].(phase := phase), x) <==> x == id || Holds(s.requests[r], x)
    ensures var t := Go(s, r, phase).(locks := s.locks[id := r]); ReqOk(t, r)
  {
    var t := Go(s, r, phase).(locks := s.locks[id := r]);
    var q := t.requests[r];
    assert ReqOk(s, r);
    forall x | Holds(q, x) ensures x in t.locks && t.locks[x] == r && Secured(t.db, q, x) {
      if x != id {
        assert Holds(s.requests[r], x);
      }
    }
  }

  lemma FinishLocks(s: State, r: ReqId, reply: Reply)
    requires ReqsOk(s) && LocksOk(s) && r in s.requests
    ensures LocksFrame(s, Finish(s, r, reply), r)
    ensures forall id :: id in Finish(s, r, reply).locks ==> Finish(s, r, reply).locks[id] != r
  {
    AllLockedRowsExist(s);
  }

  lemma FinishedReqOk(s: State, r: ReqId, reply: Reply)
    requires r in s.requests && ReqOk(s, r) && !s.requests[r].phase.Closing?
    requires CreatedOk(s.db, s.requests[r].job, reply)
    ensures ReqOk(Finish(s, r, reply), r)
  {
    assert forall id :: !Holds(Finish(s, r, reply).requests[r], id);
  }

  /** Leaving with a reply that the tables bear out. */
  lemma FinishKeeps(s: State, r: ReqId, reply: Reply)
    requires r in s.requests && Inv(s) && !s.requests[r].phase.Closing?
    requires CreatedOk(s.db, s.requests[r].job, reply)
    ensures Inv(Finish(s, r, reply))
  {
    var t := Finish(s, r, reply);
    FinishLocks(s, r, reply);
    assert ReqOk(s, r);
    FinishedReqOk(s, r, reply);
    FilesUntouched(s, t, r);
    SameTables(s, t, r);
  }

  // ---------------------------------------------------------------- file steps

  /** A request's image moves on, and the directory with it. */
  function WithImage(s: State, r: ReqId, image: Image, files: set<FileName>): State
    requires r in s.requests
  {
    s.(requests := s.requests[r := s.requests[r].(image := image)], files := files)
  }

  lemma ImageReqOk(s: State, r: ReqId, image: Image, files: set<FileName>)
    requires r in s.requests && ReqOk(s, r) && !s.requests[r].phase.Closing? && NeedsFile(s.requests[r].job)
    ensures ReqOk(WithImage(s, r, image, files), r)
    ensures forall id :: Holds(WithImage(s, r, image, files).requests[r], id) <==> Holds(s.requests[r], id)
  {
    assert forall id :: Holds(WithImage(s, r, image, files).requests[r], id) <==> Holds(s.requests[r], id);
  }

  lemma ImageKeeps(s: State, r: ReqId, image: Image, files: set<FileName>)
    requires r in s.requests && !s.requests[r].phase.Closing? && NeedsFile(s.requests[r].job) && Inv(s)
    requires FilesOf(WithImage(s, r, image, files), r)
    requires forall f: FileName :: f.req != r ==> (f in files <==> f in s.files)
    ensures Inv(WithImage(s, r, image, files))
  {
    AllLockedRowsExist(s);
    assert ReqOk(s, r);
    ImageReqOk(s, r, image, files);
    SameTables(s, WithImage(s, r, image, files), r);
  }

  lemma PrepareKeeps(s: State, r: ReqId)
    requires r in s.requests && s.requests[r].image == NoImage && NeedsFile(s.requests[r].job)
    requires (s.requests[r].phase.Opened? || s.requests[r].phase.Missing?) && Inv(s)
    ensures Inv(DoPrepare(s, r))
  {
    hide JobOk, DbOk, Secured;
    var t := DoPrepare(s, r);
    assert ReqOk(s, r);
    forall f: FileName | f.req == r ensures f in t.files <==> Accounted(t, f) {
      assert f in s.files <==> Accounted(s, f);
    }
    ImageKeeps(s, r, Pending, t.files);
  }

  lemma RenameKeeps(s: State, r: ReqId)
    requires r in s.requests && s.requests[r].image == Pending
    requires (s.requests[r].phase.Checked? || s.requests[r].phase.Locked?) && Inv(s)
    ensures Inv(DoRename(s, r))
  {
    hide JobOk, DbOk, Secured;
    var t := DoRename(s, r);
    assert ReqOk(s, r);
    forall f: FileName | f.req == r ensures f in t.files <==> Accounted(t, f) {
      assert f in s.files <==> Accounted(s, f);
    }
    ImageKeeps(s, r, Renamed, t.files);
  }

  // ---------------------------------------------------------------- arrival and departure

  lemma ArriveKeeps(s: State, job: Job)
    requires Inv(s) && JobOk(job)
    ensures Inv(DoArrive(s, job))
  {
    hide JobOk, DbOk, Secured;
    var t := DoArrive(s, job);
    var r := s.nextReq;
    RequestsBelow(s);
    NoReplyYet(s, r);
    SameDbFrame(s.db, r);
    AllLockedRowsExist(s);
    assert forall id :: id in s.locks ==> s.locks[id] != r;
    assert Untouched(s.db, r);
    forall f: FileName | f.req == r ensures f in t.files <==> Accounted(t, f) {
      assert f in s.files <==> Accounted(s, f);
    }
    assert ReqOk(t, r);
    FrameRule(s, t, r);
  }

  lemma ClosedResponse(s: State, r: ReqId)
    requires r in s.requests && s.requests[r].phase.Closing? && Inv(s)
    ensures ResponseOk(DoClose(s, r), Response(r, s.requests[r].job, s.requests[r].phase.reply))
  {
    var t := DoClose(s, r);
    assert ReqOk(s, r);
    forall f | f in t.files && f.req == r ensures f.Stored? && Referenced(t.db, r) {
      assert f in s.files <==> Accounted(s, f);
    }
  }

  lemma ClosedFiles(s: State, r: ReqId)
    requires r in s.requests && s.requests[r].phase.Closing? && Inv(s)
    ensures FilesOf(DoClose(s, r), r)
  {
    var t := DoClose(s, r);
    assert ReqOk(s, r);
    forall f: FileName | f.req == r ensures f in t.files <==> Accounted(t, f) {
      assert f in s.files <==> Accounted(s, f);
    }
  }

  lemma ClosedLocks(s: State, r: ReqId)
    requires r in s.requests && s.requests[r].phase.Closing? && Inv(s)
    ensures LocksFrame(s, DoClose(s, r), r)
    ensures forall id :: id in s.locks ==> s.locks[id] != r
  {
    hide JobOk, DbOk, Secured;
    AllLockedRowsExist(s);
    assert forall id :: !Holds(s.requests[r], id);
  }

  lemma ClosedFrame(s: State, r: ReqId)
    requires r in s.requests && s.requests[r].phase.Closing? && Inv(s) && LocksFrame(s, DoClose(s, r), r)
    ensures Frame(s, DoClose(s, r), r)
  {
    var t := DoClose(s, r);
    SameDbFrame(s.db, r);
    assert forall f: FileName :: f.req != r ==> (f in t.files <==> f in s.files);
  }

  lemma ClosedLocal(s: State, r: ReqId)
    requires r in s.requests && s.requests[r].phase.Closing? && Inv(s)
    requires forall id :: id in s.locks ==> s.locks[id] != r
    ensures Local(s, DoClose(s, r), r) && NamesOld(DoClose(s, r))
  {
    var t := DoClose(s, r);
    ClosedFiles(s, r);
    assert r !in t.requests && t.locks == s.locks && t.orphans == s.orphans && t.db == s.db;
  }

  lemma CloseKeeps(s: State, r: ReqId)
    requires r in s.requests && s.requests[r].phase.Closing? && Inv(s)
    ensures Inv(DoClose(s, r))
  {
    NoReplyYet(s, r);
    ClosedLocks(s, r);
    ClosedFrame(s, r);
    ClosedResponse(s, r);
    ClosedLocal(s, r);
    FrameRuleWithReply(s, DoClose(s, r), r, Response(r, s.requests[r].job, s.requests[r].phase.reply));
  }

  // ---------------------------------------------------------------- commits

  /** What a commit of r must show of its table change: it is sound, leaves other requests' rows and
      names alone, answers truthfully, and refers to r's stored file exactly when that file exists. */
  ghost predicate CommitOk(s: State, r: ReqId, db: Db, reply: Reply)
    requires r in s.requests
  {
    && DbOk(db) && DbFrame(s.db, db, r) && RefsUnique(db) && NamesOld(s.(db := db))
    && (forall id :: id in s.locks && s.locks[id] != r && id in s.db.orders ==>
          id in db.orders && db.orders[id] == s.db.orders[id])
    && CreatedOk(db, s.requests[r].job, reply) && InsertsOnly(db, r, reply)
    && s.requests[r].image != Pending
    && (s.requests[r].image == Renamed <==> Referenced(db, r))
  }

  lemma CommittedReqOk(s: State, r: ReqId, db: Db, reply: Reply)
    requires r in s.requests && Inv(s) && !s.requests[r].phase.Closing? && CommitOk(s, r, db, reply)
    ensures ReqOk(Commit(s, r, db, reply), r) && FilesOf(Commit(s, r, db, reply), r)
  {
    var t := Commit(s, r, db, reply);
    assert ReqOk(s, r);
    forall f: FileName | f.req == r ensures f in t.files <==> Accounted(t, f) {
      assert f in s.files <==> Accounted(s, f);
    }
  }

  lemma CommittedFrame(s: State, r: ReqId, db: Db, reply: Reply)
    requires r in s.requests && Inv(s) && CommitOk(s, r, db, reply)
    ensures Frame(s, Commit(s, r, db, reply), r)
    ensures forall id :: id in Commit(s, r, db, reply).locks ==> Commit(s, r, db, reply).locks[id] != r
  {
    FinishLocks(s, r, reply);
    AllLockedRowsExist(s);
  }

  lemma CommitKeeps(s: State, r: ReqId, db: Db, reply: Reply)
    requires r in s.requests && Inv(s) && !s.requests[r].phase.Closing? && CommitOk(s, r, db, reply)
    ensures Inv(Commit(s, r, db, reply))
  {
    var t := Commit(s, r, db, reply);
    NoReplyYet(s, r);
    CommittedFrame(s, r, db, reply);
    CommittedReqOk(s, r, db, reply);
    assert NamesOld(t);
    FrameRule(s, t, r);
  }

  lemma WrittenLocks(s: State, db: Db, next: ReqId)
    requires Inv(s) && DbEvolves(s.db, db)
    requires forall id :: id in s.locks && id in s.db.orders ==> id in db.orders && db.orders[id] == s.db.orders[id]
    ensures LocksFrame(s, s.(db := db, nextReq := next), s.nextReq)
    ensures forall id :: id in s.locks ==> s.locks[id] != s.nextReq
  {
    AllLockedRowsExist(s);
    RequestsBelow(s);
  }

  lemma WrittenFrame(s: State, db: Db, next: ReqId)
    requires Inv(s) && DbEvolves(s.db, db) && SlotsSame(s.db, db) && next >= s.nextReq
    requires LocksFrame(s, s.(db := db, nextReq := next), s.nextReq)
    ensures Frame(s, s.(db := db, nextReq := next), s.nextReq)
  {
    SlotsSameFrame(s.db, db, s.nextReq);
  }

  lemma WrittenFiles(s: State, db: Db, next: ReqId)
    requires Inv(s) && DbEvolves(s.db, db) && SlotsSame(s.db, db) && next >= s.nextReq
    ensures FilesOf(s.(db := db, nextReq := next), s.nextReq)
    ensures NamesOld(s.(db := db, nextReq := next)) && RefsUnique(db)
  {
    var t := s.(db := db, nextReq := next);
    SlotsSameFrame(s.db, db, s.nextReq);
    assert forall slot :: SlotRef(db, slot) == SlotRef(s.db, slot);
    forall f: FileName | f.req == s.nextReq ensures f in t.files <==> Accounted(t, f) {
      assert f in s.files <==> Accounted(s, f);
      assert OwnsFile(t, f) <==> OwnsFile(s, f);
    }
  }

  /** A transaction that is a single step: no receipt column and no locked row changes. */
  lemma WriteKeeps(s: State, db: Db, next: ReqId)
    requires Inv(s) && DbOk(db) && DbEvolves(s.db, db) && SlotsSame(s.db, db) && next >= s.nextReq
    requires forall id :: id in s.locks && id in s.db.orders ==> id in db.orders && db.orders[id] == s.db.orders[id]
    ensures Inv(s.(db := db, nextReq := next))
  {
    var t := s.(db := db, nextReq := next);
    WrittenLocks(s, db, next);
    WrittenFrame(s, db, next);
    WrittenFiles(s, db, next);
    RequestsBelow(s);
    NoReplyYet(s, s.nextReq);
    FrameRule(s, t, s.nextReq);
  }

  // ---------------------------------------------------------------- crash

  lemma CrashKeeps(s: State)
    requires Inv(s)
    ensures Inv(DoCrash(s))
  {
    var t := DoCrash(s);
    forall f: FileName ensures f in t.files <==> Accounted(t, f) {
      assert f in s.files <==> Accounted(s, f);
    }
    forall f | f in t.orphans ensures f.req < t.nextReq && !Referenced(t.db, f.req) {
      if f !in s.orphans { assert ReqOk(s, f.req); }
    }
    forall i | 0 <= i < |t.replies| ensures ResponseOk(t, t.replies[i]) {
      assert ResponseOk(s, s.replies[i]);
    }
  }
}
