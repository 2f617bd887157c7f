/** Product pictures and shop logos: one directory, row columns that name its files, and requests
    that upload a file, point a column at it and then delete the file it replaced.

    A product's old picture is read under the row lock of the transaction that replaces it; a shop's
    old logo is read, without a lock, when the request arrives. */
module Images {
  import opened Wrappers


  type ReqId = nat

  /** The upload and the stored file of one request; stored names are random, hence named by request. */
  datatype FileName = Temporary(req: ReqId) | Stored(req: ReqId)

  /** A column: a path outside the directory, or the stored file of a request. */
  datatype Path = Elsewhere | Image(req: ReqId)

  datatype Slot = Product(id: nat) | Logo(shop: nat)

  datatype Job = NewProduct | EditProduct(id: nat) | NewLogo(shop: nat)

  /** Seen holds the logo read on arrival, Locked the picture read under the lock, Removing the path
      to delete after the commit. */
  datatype Phase = Seen(former: Path) | Locked(former: Path) | Removing(former: Path) | Closing

  datatype Upload = NoFile | Pending | Renamed

  datatype Request = Request(job: Job, phase: Phase, upload: Upload)

  datatype State = State(
    slots: map<Slot, Path>, files: set<FileName>, requests: map<ReqId, Request>, locks: map<Slot, ReqId>,
    stranded: set<FileName>,      // overwritten unseen, or left by a crash; nobody is bound to delete them
    next: ReqId)

  datatype Step =
    | Arrive(job: Job)
    | Prepare(r: ReqId)
    | LockRow(r: ReqId)
    | Rename(r: ReqId)
    | Write(r: ReqId, id: nat)    // the row write commits; id numbers a new product
    | RemoveOld(r: ReqId)
    | Fail(r: ReqId)
    | Close(r: ReqId)
    | Crash

  predicate Refers(slots: map<Slot, Path>, n: ReqId) {
    exists slot :: slot in slots && slots[slot] == Image(n)
  }

  predicate Owns(s: State, f: FileName) {
    f.req in s.requests && s.requests[f.req].upload == if f.Temporary? then Pending else Renamed
  }

  /** The column a request writes; a new product's is chosen by the insert. */
  function SlotOf(job: Job, id: nat): Slot {
    match job
    case NewProduct => Product(id)
    case EditProduct(known) => Product(known)
    case NewLogo(shop) => Logo(shop)
  }

  predicate Ready(q: Request) {
    q.upload == Renamed && (if q.job.EditProduct? then q.phase.Locked? else q.phase.Seen?)
  }

  predicate Enabled(s: State, step: Step) {
    match step
    case Arrive(job) => job.NewProduct? || SlotOf(job, 0) in s.slots
    case Prepare(r) => r in s.requests && s.requests[r].phase.Seen? && s.requests[r].upload == NoFile
    case LockRow(r) =>
      r in s.requests && s.requests[r].job.EditProduct? && s.requests[r].phase.Seen? && s.requests[r].upload == Pending
      && SlotOf(s.requests[r].job, 0) in s.slots && SlotOf(s.requests[r].job, 0) !in s.locks
    case Rename(r) =>
      r in s.requests && s.requests[r].upload == Pending
      && (if s.requests[r].job.EditProduct? then s.requests[r].phase.Locked? else s.requests[r].phase.Seen?)
    case Write(r, id) =>
      r in s.requests && Ready(s.requests[r])
      && (s.requests[r].job.NewProduct? <==> SlotOf(s.requests[r].job, id) !in s.slots)
    case RemoveOld(r) => r in s.requests && s.requests[r].phase.Removing?
    case Fail(r) => r in s.requests && (s.requests[r].phase.Seen? || s.requests[r].phase.Locked?)
    case Close(r) => r in s.requests && s.requests[r].phase.Closing?
    case Crash => true
  }

  function Unlock(locks: map<Slot, ReqId>, r: ReqId): map<Slot, ReqId> {
    map slot | slot in locks && locks[slot] != r :: locks[slot]
  }

  function Set(s: State, r: ReqId, q: Request): State {
    s.(requests := s.requests[r := q])
  }

  function DoArrive(s: State, job: Job): State {
    var seen := if job.NewLogo? && Logo(job.shop) in s.slots then s.slots[Logo(job.shop)] else Elsewhere;
    s.(requests := s.requests[s.next := Request(job, Seen(seen), NoFile)], next := s.next + 1)
  }

  /** The column now names the request's file, which is no longer the request's to discard. A file
      overwritten by a request that will delete another one is stranded. */
  function DoWrite(s: State, r: ReqId, id: nat): State
    requires r in s.requests && Ready(s.requests[r])
  {
    var q := s.requests[r];
    var slot := SlotOf(q.job, id);
    var unseen := slot in s.slots && s.slots[slot].Image? && s.slots[slot] != q.phase.former;
    var lost := if unseen then {Stored(s.slots[slot].req)} else {};
    var phase := if q.job.NewProduct? then Closing else Removing(q.phase.former);
    s.(slots := s.slots[slot := Image(r)], requests := s.requests[r := q.(phase := phase, upload := NoFile)],
       locks := Unlock(s.locks, r), stranded := s.stranded + lost)
  }

  /** removeProductImage: only paths inside the directory are deleted. */
  function DoRemove(s: State, r: ReqId): State
    requires r in s.requests && s.requests[r].phase.Removing?
  {
    var q := s.requests[r];
    var gone := if q.phase.former.Image? then {Stored(q.phase.former.req)} else {};
    s.(files := s.files - gone, stranded := s.stranded - gone, requests := s.requests[r := q.(phase := Closing)])
  }

  /** The handler returns: the deferred discard deletes what the request still owns. */
  function DoClose(s: State, r: ReqId): State
    requires r in s.requests
  {
    s.(requests := map x | x in s.requests && x != r :: s.requests[x],
       files := if s.requests[r].upload == NoFile then s.files else s.files - {Temporary(r), Stored(r)})
  }

  function DoCrash(s: State): State {
    s.(requests := map[], locks := map[],
       stranded := set f | f in s.files && !(f.Stored? && Refers(s.slots, f.req)))
  }

  function Next(s: State, step: Step): State {
    if !Enabled(s, step) then s
    else match step
      case Arrive(job) => DoArrive(s, job)
      case Prepare(r) => Set(s, r, s.requests[r].(upload := Pending)).(files := s.files + {Temporary(r)})
      case LockRow(r) =>
        var slot := SlotOf(s.requests[r].job, 0);
        Set(s, r, s.requests[r].(phase := Locked(s.slots[slot]))).(locks := s.locks[slot := r])
      case Rename(r) => Set(s, r, s.requests[r].(upload := Renamed)).(files := s.files - {Temporary(r)} + {Stored(r)})
      case Write(r, id) => DoWrite(s, r, id)
      case RemoveOld(r) => DoRemove(s, r)
      case Fail(r) => Set(s, r, s.requests[r].(phase := Closing)).(locks := Unlock(s.locks, r))
      case Close(r) => DoClose(s, r)
      case Crash => DoCrash(s)
  }

  function Init(slots: map<Slot, Path>): State {
    State(slots, {}, map[], map[], {}, 1)
  }

  /** Columns start outside the directory. */
  predicate Fresh(slots: map<Slot, Path>) {
    forall slot :: slot in slots ==> slots[slot] == Elsewhere
  }

  function Run(slots: map<Slot, Path>, steps: seq<Step>): State {
    if steps == [] then Init(slots) else Next(Run(slots, steps[..|steps| - 1]), steps[|steps| - 1])
  }

  // ---------------------------------------------------------------- the invariant

  /** Request n will not write a column any more. */
  predicate Settled(requests: map<ReqId, Request>, n: ReqId) {
    n in requests ==> requests[n].upload == NoFile && (requests[n].phase.Removing? || requests[n].phase.Closing?)
  }

  ghost predicate RefsOk(s: State) {
    && (forall slot :: slot in s.slots && s.slots[slot].Image? ==>
          s.slots[slot].req < s.next && Settled(s.requests, s.slots[slot].req) && Stored(s.slots[slot].req) in s.files)
    && (forall a, b :: a in s.slots && b in s.slots && s.slots[a].Image? && s.slots[a] == s.slots[b] ==> a == b)
  }

  ghost predicate RequestOk(s: State, r: ReqId)
    requires r in s.requests
  {
    var q := s.requests[r];
    && r < s.next
    && (q.upload == Pending ==> Temporary(r) in s.files)
    && (q.upload == Renamed ==> Stored(r) in s.files)
    && (q.upload != NoFile ==> !q.phase.Removing?)
    && (!q.phase.Closing? && q.phase.former.Image? ==>
          q.phase.former.req < s.next && Settled(s.requests, q.phase.former.req))
    && ((q.phase.Seen? || q.phase.Locked?) && q.phase.former.Image? ==>
          OnlyAt(s.slots, q.phase.former, SlotOf(q.job, 0)))
    && (q.phase.Removing? && q.phase.former.Image? ==> !Refers(s.slots, q.phase.former.req))
    && (q.phase.Locked? ==> q.job.EditProduct? && Holds(s, r, Product(q.job.id)))
  }

  predicate OnlyAt(slots: map<Slot, Path>, path: Path, home: Slot) {
    forall slot :: slot in slots && slots[slot] == path ==> slot == home
  }

  /** A locked column still holds what its holder read. */
  predicate Holds(s: State, r: ReqId, slot: Slot) {
    && slot in s.locks && s.locks[slot] == r
    && slot in s.slots && r in s.requests && s.requests[r].phase == Locked(s.slots[slot])
  }

  ghost predicate RequestsOk(s: State) {
    forall r :: r in s.requests ==> RequestOk(s, r)
  }

  predicate Removes(q: Request, f: FileName) {
    f.Stored? && q.phase == Removing(Image(f.req))
  }

  ghost predicate DueForRemoval(s: State, f: FileName) {
    exists r :: r in s.requests && Removes(s.requests[r], f)
  }

  /** Why a file exists: a column names it, its request owns it, some request is about to delete it,
      or it is stranded. */
  ghost predicate Accounted(s: State, f: FileName) {
    (f.Stored? && Refers(s.slots, f.req)) || Owns(s, f) || DueForRemoval(s, f) || f in s.stranded
  }

  ghost predicate FilesOk(s: State) {
    forall f :: f in s.files ==> Accounted(s, f)
  }

  ghost predicate StrandedOk(s: State) {
    forall f :: f in s.stranded ==>
      f in s.files && f.req < s.next && Settled(s.requests, f.req) && !(f.Stored? && Refers(s.slots, f.req))
  }

  ghost predicate Inv(s: State) {
    RefsOk(s) && RequestsOk(s) && FilesOk(s) && StrandedOk(s)
  }

  lemma InitInv(slots: map<Slot, Path>)
    requires Fresh(slots)
    ensures Inv(Init(slots))
  {
  }

  /** A step of r leaves the other requests' files accounted for. */
  lemma StaysAccounted(s: State, t: State, r: ReqId, f: FileName)
    requires Accounted(s, f)
    requires forall x :: x != r && x in s.requests ==> x in t.requests && t.requests[x] == s.requests[x]
    requires f in s.stranded ==> f in t.stranded
    requires f.Stored? && Refers(s.slots, f.req) ==> Accounted(t, f)
    requires r in s.requests && Removes(s.requests[r], f) ==> Accounted(t, f)
    requires f.req == r && Owns(s, f) ==> Accounted(t, f)
    ensures Accounted(t, f)
  {
    if DueForRemoval(s, f) {
      var x :| x in s.requests && Removes(s.requests[x], f);
      if x != r { assert Removes(t.requests[x], f); }
    }
  }

  lemma ArriveKeeps(s: State, job: Job)
    requires Inv(s) && Enabled(s, Arrive(job))
    ensures Inv(Next(s, Arrive(job)))
  {
    var t := Next(s, Arrive(job));
    forall f | f in t.files ensures Accounted(t, f) {
      StaysAccounted(s, t, s.next, f);
    }
  }

  lemma PrepareKeeps(s: State, r: ReqId)
    requires r in s.requests && Enabled(s, Prepare(r)) && Inv(s)
    ensures Inv(Next(s, Prepare(r)))
  {
    var t := Next(s, Prepare(r));
    forall f | f in t.files ensures Accounted(t, f) {
      if f in s.files { StaysAccounted(s, t, r, f); }
    }
  }

  lemma LockKeeps(s: State, r: ReqId)
    requires r in s.requests && Enabled(s, LockRow(r)) && Inv(s)
    ensures Inv(Next(s, LockRow(r)))
  {
    var t := Next(s, LockRow(r));
    forall f | f in t.files ensures Accounted(t, f) {
      StaysAccounted(s, t, r, f);
    }
  }

  lemma RenameKeeps(s: State, r: ReqId)
    requires r in s.requests && Enabled(s, Rename(r)) && Inv(s)
    ensures Inv(Next(s, Rename(r)))
  {
    var t := Next(s, Rename(r));
    forall f | f in t.files ensures Accounted(t, f) {
      if f in s.files { StaysAccounted(s, t, r, f); }
    }
  }

  lemma WriteRefs(s: State, r: ReqId, id: nat)
    requires r in s.requests && Enabled(s, Write(r, id)) && RefsOk(s) && RequestOk(s, r)
    ensures RefsOk(Next(s, Write(r, id)))
    ensures forall n :: n != r && Refers(Next(s, Write(r, id)).slots, n) ==> Refers(s.slots, n)
  {
    var t := Next(s, Write(r, id));
    assert forall slot :: slot in s.slots ==> s.slots[slot] != Image(r);
    assert t.slots[SlotOf(s.requests[r].job, id)] == Image(r);
  }

  lemma WriteRequests(s: State, r: ReqId, id: nat)
    requires r in s.requests && Enabled(s, Write(r, id)) && RefsOk(s) && RequestsOk(s)
    ensures RequestsOk(Next(s, Write(r, id)))
  {
    var t := Next(s, Write(r, id));
    WriteRefs(s, r, id);
    hide RefsOk;
    forall x | x in t.requests ensures RequestOk(t, x) {
      assert RequestOk(s, x) && RequestOk(s, r);
    }
  }

  /** The overwritten file is either the one this request deletes next, or stranded. */
  lemma WriteFiles(s: State, r: ReqId, id: nat)
    requires r in s.requests && Enabled(s, Write(r, id)) && RefsOk(s) && FilesOk(s)
    ensures FilesOk(Next(s, Write(r, id)))
  {
    var t := Next(s, Write(r, id));
    var here := SlotOf(s.requests[r].job, id);
    assert t.slots[here] == Image(r);
    forall f | f in t.files ensures Accounted(t, f) {
      if f.Stored? && Refers(s.slots, f.req) {
        var slot :| slot in s.slots && s.slots[slot] == Image(f.req);
        if slot != here {
          assert t.slots[slot] == Image(f.req);
        } else if s.requests[r].phase.former == Image(f.req) {
          assert Removes(t.requests[r], f);
        } else {
          assert f in t.stranded;
        }
      }
      StaysAccounted(s, t, r, f);
    }
  }

  lemma WriteStranded(s: State, r: ReqId, id: nat)
    requires r in s.requests && Enabled(s, Write(r, id)) && RefsOk(s) && StrandedOk(s)
    ensures StrandedOk(Next(s, Write(r, id)))
  {
  }

  lemma WriteKeeps(s: State, r: ReqId, id: nat)
    requires r in s.requests && Enabled(s, Write(r, id)) && Inv(s)
    ensures Inv(Next(s, Write(r, id)))
  {
    assert RequestOk(s, r);
    WriteRefs(s, r, id);
    WriteRequests(s, r, id);
    WriteFiles(s, r, id);
    WriteStranded(s, r, id);
  }

  lemma RemoveKeeps(s: State, r: ReqId)
    requires r in s.requests && Enabled(s, RemoveOld(r)) && Inv(s)
    ensures Inv(Next(s, RemoveOld(r)))
  {
    var t := Next(s, RemoveOld(r));
    forall f | f in t.files ensures Accounted(t, f) {
      StaysAccounted(s, t, r, f);
    }
  }

  lemma FailKeeps(s: State, r: ReqId)
    requires r in s.requests && Enabled(s, Fail(r)) && Inv(s)
    ensures Inv(Next(s, Fail(r)))
  {
    var t := Next(s, Fail(r));
    forall f | f in t.files ensures Accounted(t, f) {
      StaysAccounted(s, t, r, f);
    }
  }

  lemma CloseKeeps(s: State, r: ReqId)
    requires r in s.requests && Enabled(s, Close(r)) && Inv(s)
    ensures Inv(Next(s, Close(r)))
  {
    var t := Next(s, Close(r));
    forall f | f in t.files ensures Accounted(t, f) {
      StaysAccounted(s, t, r, f);
    }
  }

  lemma CrashKeeps(s: State)
    requires Inv(s)
    ensures Inv(Next(s, Crash))
  {
  }

  lemma {:induction false} RunKeeps(slots: map<Slot, Path>, steps: seq<Step>)
    requires Fresh(slots)
    ensures Inv(Run(slots, steps))
  {
    if steps == [] {
      InitInv(slots);
    } else {
      var s, step := Run(slots, steps[..|steps| - 1]), steps[|steps| - 1];
      RunKeeps(slots, steps[..|steps| - 1]);
      hide Inv, Next;
      if Enabled(s, step) {
        StepKeeps(s, step);
      } else {
        DisabledWaits(s, step);
      }
    }
  }

  lemma DisabledWaits(s: State, step: Step)
    requires !Enabled(s, step)
    ensures Next(s, step) == s
  {
  }

  lemma StepKeeps(s: State, step: Step)
    requires Enabled(s, step) && Inv(s)
    ensures Inv(Next(s, step))
  {
    hide Inv, Next;
    match step
    case Arrive(job) => ArriveKeeps(s, job);
    case Prepare(r) => PrepareKeeps(s, r);
    case LockRow(r) => LockKeeps(s, r);
    case Rename(r) => RenameKeeps(s, r);
    case Write(r, id) => WriteKeeps(s, r, id);
    case RemoveOld(r) => RemoveKeeps(s, r);
    case Fail(r) => FailKeeps(s, r);
    case Close(r) => CloseKeeps(s, r);
    case Crash => CrashKeeps(s);
  }

  // ---------------------------------------------------------------- the theorems

  /** At every moment of every run, crashes and racing uploads included, each picture or logo a
      column names is an existing file, and no two columns name the same one. */
  lemma NamedImagesExist(slots: map<Slot, Path>, steps: seq<Step>, slot: Slot)
    requires Fresh(slots) && slot in Run(slots, steps).slots && Run(slots, steps).slots[slot].Image?
    ensures var s := Run(slots, steps);
            && Stored(s.slots[slot].req) in s.files
            && forall other :: other in s.slots && s.slots[other] == s.slots[slot] ==> other == slot
  {
    RunKeeps(slots, steps);
  }

  /** Deleting a replaced file never hits a file some column still names. */
  lemma RemovalIsSafe(slots: map<Slot, Path>, steps: seq<Step>, r: ReqId)
    requires Fresh(slots) && r in Run(slots, steps).requests && Enabled(Run(slots, steps), RemoveOld(r))
    ensures var s := Run(slots, steps);
            var t := Next(s, RemoveOld(r));
            forall f :: f in s.files && f !in t.files ==> f.Stored? && !Refers(s.slots, f.req)
  {
    RunKeeps(slots, steps);
    assert RequestOk(Run(slots, steps), r);
  }

  ghost function NamedFiles(slots: map<Slot, Path>): set<FileName> {
    set slot | slot in slots && slots[slot].Image? :: Stored(slots[slot].req)
  }

  /** When nothing is in flight the directory is exactly the named files and the stranded ones. */
  lemma QuietDirectory(slots: map<Slot, Path>, steps: seq<Step>)
    requires Fresh(slots) && Run(slots, steps).requests == map[]
    ensures var s := Run(slots, steps);
            s.files == NamedFiles(s.slots) + s.stranded && NamedFiles(s.slots) !! s.stranded
  {
    RunKeeps(slots, steps);
    var s := Run(slots, steps);
    forall f ensures f in s.files <==> f in NamedFiles(s.slots) + s.stranded {
      if f in s.files { assert Accounted(s, f); }
    }
  }

  /** A write that overwrites a file its request does not know of: only a logo can, when another
      upload for the shop was written after this one arrived. */
  predicate WritesOver(s: State, step: Step) {
    && step.Write? && step.r in s.requests && Enabled(s, step)
    && var slot := SlotOf(s.requests[step.r].job, step.id);
       slot in s.slots && s.slots[slot].Image? && s.slots[slot] != s.requests[step.r].phase.former
  }

  /** Picture uploads alone never write over an unknown file: the row lock keeps what was read true. */
  lemma ProductsKnowWhatTheyReplace(s: State, step: Step)
    requires Inv(s) && WritesOver(s, step)
    ensures s.requests[step.r].job.NewLogo?
  {
    assert RequestOk(s, step.r);
  }

  /** A run without crashes in which no request writes over a path it did not read. */
  predicate ReadsWhatItReplaces(slots: map<Slot, Path>, steps: seq<Step>) {
    forall i :: 0 <= i < |steps| ==> !WritesOver(Run(slots, steps[..i]), steps[i])
  }

  lemma NothingStranded(s: State, step: Step)
    requires s.stranded == {} && step != Crash && !WritesOver(s, step)
    ensures Next(s, step).stranded == {}
  {
  }

  /** What a column or a request knows of the directory stays a file name once it is one. */
  ghost predicate ColumnsNamed(s: State) {
    forall r :: r in s.requests && (s.requests[r].phase.Seen? || s.requests[r].phase.Locked?)
                && s.requests[r].phase.former.Image? ==>
      SlotOf(s.requests[r].job, 0) in s.slots && s.slots[SlotOf(s.requests[r].job, 0)].Image?
          && !s.requests[r].job.NewProduct?
  }

  lemma ColumnsStayNamed(s: State, step: Step)
    requires ColumnsNamed(s) && RequestsOk(s)
    ensures ColumnsNamed(Next(s, step))
  {
    forall r | r in s.requests && s.requests[r].phase.Locked? ensures RequestOk(s, r) {
    }
  }

  /** Some stranded file is not about to be deleted by anyone. */
  ghost predicate Litter(s: State) {
    exists f :: f in s.stranded && f.Stored? && forall r :: r in s.requests ==> !Removes(s.requests[r], f)
  }

  /** Writing over an unread path leaves litter: the path overwritten is named until that moment, so
      nobody is about to delete it. */
  lemma WritingOverLitters(s: State, step: Step)
    requires Inv(s) && WritesOver(s, step)
    ensures Litter(Next(s, step))
  {
    var t := Next(s, step);
    var lost := s.slots[SlotOf(s.requests[step.r].job, step.id)].req;
    assert Stored(lost) in t.stranded && Refers(s.slots, lost);
    forall r | r in t.requests ensures !Removes(t.requests[r], Stored(lost)) {
      if r in s.requests { assert RequestOk(s, r); }
    }
  }

  /** Litter stays: a request that once saw a littered file deletes it only after a write over the
      file that replaced it, which then is litter in its place. */
  lemma LitterStays(s: State, step: Step)
    requires Inv(s) && ColumnsNamed(s) && Litter(s) && step != Crash
    ensures Litter(Next(s, step))
  {
    if WritesOver(s, step) {
      WritingOverLitters(s, step);
    } else {
      var t := Next(s, step);
      var f :| f in s.stranded && f.Stored? && forall r :: r in s.requests ==> !Removes(s.requests[r], f);
      assert !Refers(s.slots, f.req);
      if step.Write? && Enabled(s, step) {
        WriteSpares(s, step, f);
      }
      assert f in t.stranded;
      assert forall r :: r in t.requests ==> !Removes(t.requests[r], f);
    }
  }

  /** A write that reads what it replaces is about to delete nothing but the path it replaces. */
  lemma WriteSpares(s: State, step: Step, f: FileName)
    requires Inv(s) && ColumnsNamed(s) && step.Write? && Enabled(s, step) && !WritesOver(s, step)
    requires !Refers(s.slots, f.req)
    ensures !Removes(Next(s, step).requests[step.r], f)
  {
    var q := s.requests[step.r];
    if q.phase.former.Image? {
      assert s.slots[SlotOf(q.job, 0)] == q.phase.former;
    }
  }

  /** Nothing is stranded up to the first write over an unread path, and litter lies ever after. */
  lemma StepLitters(s: State, step: Step, clean: bool)
    requires Inv(s) && ColumnsNamed(s) && step != Crash && (if clean then s.stranded == {} else Litter(s))
    ensures ColumnsNamed(Next(s, step))
    ensures if clean && !WritesOver(s, step) then Next(s, step).stranded == {} else Litter(Next(s, step))
  {
    assert RequestsOk(s);
    hide Inv, Next, Litter, ColumnsNamed, WritesOver, RequestsOk;
    ColumnsStayNamed(s, step);
    if !clean {
      LitterStays(s, step);
    } else if WritesOver(s, step) {
      WritingOverLitters(s, step);
    } else {
      NothingStranded(s, step);
    }
  }

  lemma ReadsSplit(slots: map<Slot, Path>, steps: seq<Step>)
    requires steps != []
    ensures var most, step := steps[..|steps| - 1], steps[|steps| - 1];
            ReadsWhatItReplaces(slots, steps) <==>
                ReadsWhatItReplaces(slots, most) && !WritesOver(Run(slots, most), step)
  {
    hide Run, WritesOver;
    var most := steps[..|steps| - 1];
    assert forall i :: 0 <= i < |most| ==> most[i] == steps[i] && most[..i] == steps[..i];
    assert steps[..|most|] == most;
  }

  lemma {:induction false} RunLitters(slots: map<Slot, Path>, steps: seq<Step>)
    requires Fresh(slots) && Crash !in steps
    ensures ColumnsNamed(Run(slots, steps))
    ensures if ReadsWhatItReplaces(slots, steps) then Run(slots, steps).stranded == {} else Litter(Run(slots, steps))
  {
    if steps != [] {
      var most, step := steps[..|steps| - 1], steps[|steps| - 1];
      ReadsSplit(slots, steps);
      hide Inv, Next, Litter, ColumnsNamed, WritesOver, ReadsWhatItReplaces;
      RunLitters(slots, most);
      RunKeeps(slots, most);
      StepLitters(Run(slots, most), step, ReadsWhatItReplaces(slots, most));
    }
  }

  /** Without crashes and with nothing in flight, the directory holds exactly the named files if and
      only if every write replaced a path its request had read. */
  lemma QuietDirectoryIsExactIff(slots: map<Slot, Path>, steps: seq<Step>)
    requires Fresh(slots) && Run(slots, steps).requests == map[] && Crash !in steps
    ensures Run(slots, steps).files == NamedFiles(Run(slots, steps).slots) <==> ReadsWhatItReplaces(slots, steps)
  {
    RunLitters(slots, steps);
    QuietDirectory(slots, steps);
  }

  lemma LogosComeFromLogoUploads(slots: map<Slot, Path>, steps: seq<Step>)
    requires forall i :: 0 <= i < |steps| ==> steps[i].Arrive? ==> !steps[i].job.NewLogo?
    ensures forall r :: r in Run(slots, steps).requests ==> !Run(slots, steps).requests[r].job.NewLogo?
  {
    if steps != [] {
      LogosComeFromLogoUploads(slots, steps[..|steps| - 1]);
    }
  }

  /** Without crashes and logo uploads, the quiet directory holds the named pictures and nothing else. */
  lemma ProductDirectoryIsExact(slots: map<Slot, Path>, steps: seq<Step>)
    requires Fresh(slots) && Run(slots, steps).requests == map[] && Crash !in steps
    requires forall i :: 0 <= i < |steps| ==> steps[i].Arrive? ==> !steps[i].job.NewLogo?
    ensures Run(slots, steps).files == NamedFiles(Run(slots, steps).slots)
  {
    forall i | 0 <= i < |steps| ensures !WritesOver(Run(slots, steps[..i]), steps[i]) {
      if WritesOver(Run(slots, steps[..i]), steps[i]) {
        RunKeeps(slots, steps[..i]);
        ProductsKnowWhatTheyReplace(Run(slots, steps[..i]), steps[i]);
        LogosComeFromLogoUploads(slots, steps[..i]);
      }
    }
    QuietDirectoryIsExactIff(slots, steps);
  }

  // ---------------------------------------------------------------- two logo uploads at once

  const RACE: seq<Step> :=
    [Arrive(NewLogo(1)), Arrive(NewLogo(1)), Prepare(1), Prepare(2), Rename(1), Rename(2),
     Write(1, 0), Write(2, 0), RemoveOld(1), RemoveOld(2), Close(1), Close(2)]

  const BARE: map<Slot, Path> := map[Logo(1) := Elsewhere]

  function Uploading(phase: Phase, upload: Upload): Request { Request(NewLogo(1), phase, upload) }

  /** The logo, the directory, the two requests if they are in flight, and what is stranded. */
  function Race(logo: Path, files: set<FileName>, one: Option<Request>, two: Option<Request>,
      lost: set<FileName>): State {
    var first := if one.Some? then map[1 := one.value] else map[];
    State(map[Logo(1) := logo], files, if two.Some? then first[2 := two.value] else first, map[], lost, 3)
  }

  /** The state after the first k steps of the race. */
  function RaceState(k: nat): State {
    var t1, t2, s1, s2 := Temporary(1), Temporary(2), Stored(1), Stored(2);
    var idle, sent := Some(Uploading(Seen(Elsewhere), NoFile)), Some(Uploading(Seen(Elsewhere), Pending));
    var named, written := Some(Uploading(Seen(Elsewhere), Renamed)), Some(Uploading(Removing(Elsewhere), NoFile));
    var closing := Some(Uploading(Closing, NoFile));
    if k == 0 then Init(BARE)
    else if k == 1 then Race(Elsewhere, {}, idle, None, {}).(next := 2)
    else if k == 2 then Race(Elsewhere, {}, idle, idle, {})
    else if k == 3 then Race(Elsewhere, {t1}, sent, idle, {})
    else if k == 4 then Race(Elsewhere, {t1, t2}, sent, sent, {})
    else if k == 5 then Race(Elsewhere, {s1, t2}, named, sent, {})
    else if k == 6 then Race(Elsewhere, {s1, s2}, named, named, {})
    else if k == 7 then Race(Image(1), {s1, s2}, written, named, {})
    else if k == 8 then Race(Image(2), {s1, s2}, written, written, {s1})
    else if k == 9 then Race(Image(2), {s1, s2}, closing, written, {s1})
    else if k == 10 then Race(Image(2), {s1, s2}, closing, closing, {s1})
    else if k == 11 then Race(Image(2), {s1, s2}, None, closing, {s1})
    else Race(Image(2), {s1, s2}, None, None, {s1})
  }

  lemma RaceArrivals(k: nat)
    requires k == 0 || k == 1
    ensures Next(RaceState(k), RACE[k]) == RaceState(k + 1)
  {
  }

  lemma RacePrepares(k: nat)
    requires k == 2 || k == 3
    ensures Next(RaceState(k), RACE[k]) == RaceState(k + 1)
  {
  }

  lemma RaceRenames(k: nat)
    requires k == 4 || k == 5
    ensures Next(RaceState(k), RACE[k]) == RaceState(k + 1)
  {
  }

  lemma RaceWrites(k: nat)
    requires k == 6 || k == 7
    ensures Next(RaceState(k), RACE[k]) == RaceState(k + 1)
  {
  }

  lemma RaceRemovals(k: nat)
    requires k == 8 || k == 9
    ensures Next(RaceState(k), RACE[k]) == RaceState(k + 1)
  {
  }

  lemma RaceCloses(k: nat)
    requires k == 10 || k == 11
    ensures Next(RaceState(k), RACE[k]) == RaceState(k + 1)
  {
  }

  lemma {:induction false} RaceRun(k: nat)
    requires k <= 12
    ensures Run(BARE, RACE[..k]) == RaceState(k)
  {
    if k > 0 {
      RaceRun(k - 1);
      if k <= 2 { RaceArrivals(k - 1); }
      else if k <= 4 { RacePrepares(k - 1); }
      else if k <= 6 { RaceRenames(k - 1); }
      else if k <= 8 { RaceWrites(k - 1); }
      else if k <= 10 { RaceRemovals(k - 1); }
      else { RaceCloses(k - 1); }
      hide RaceState, Next;
      assert RACE[..k][..k - 1] == RACE[..k - 1];
    }
  }

  /** The logo directory is not exact: two uploads that arrive before either is written leave the
      first one's file behind for good. */
  lemma RacingLogosStrandAFile()
    ensures Fresh(BARE) && Run(BARE, RACE).requests == map[]
    ensures Stored(1) in Run(BARE, RACE).files && !Refers(Run(BARE, RACE).slots, 1)
  {
    RaceRun(12);
    assert RACE[..12] == RACE;
  }
}
