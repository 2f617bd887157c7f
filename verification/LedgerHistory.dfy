/** Who wrote what, over whole runs: every history entry has an author with access or is the customer's
    or the sweep's, and every order was on offer when it was created or imported. */
module LedgerHistory {
  import opened Wrappers
  import opened Pricing
  import opened Customers
  import opened Intake
  import opened Orders
  import opened Ledger
  import opened LedgerInvariant
  import opened LedgerSafety
  import opened LedgerTheorems
  import opened LedgerCreation
  import opened Edits
  import opened LedgerAnswers

  /** The catalogs a run went through: shops, products and access at each of its moments. */
  ghost function Catalogs(catalog: Catalog, steps: seq<Step>): set<Catalog> {
    if steps == [] then {catalog}
    else Catalogs(catalog, steps[..|steps| - 1]) + {Run(catalog, steps).catalog}
  }

  /** An entry without an author is the customer's submission or the sweep's cancellation; any other
      was written by a seller with access to the order's shop at the time. */
  ghost predicate EntryOk(db: Db, e: Entry, seen: set<Catalog>) {
    && e.order in db.orders
    && match e.admin
       case None => e.previous == Some(WaitingInfo) && (e.status == WaitingPayment || e.status == Cancelled)
       case Some(admin) => exists c :: c in seen && (admin, db.orders[e.order].shop) in c.access
  }

  /** What the shop of an order offered a seller under a catalog: an active shop with access whose period
      runs, its payment columns, and products on sale, each once, at their prices. */
  predicate Offered(o: Order, admin: AdminId, c: Catalog) {
    && (admin, o.shop) in c.access && o.shop in c.shops && c.shops[o.shop].active && c.shops[o.shop].writable
    && o.payment == c.shops[o.shop].payment
    && o.items != [] && OncePerProduct(o.items)
    && (forall i :: 0 <= i < |o.items| ==>
          && OnSale(c, o.shop, o.items[i].product) && 1 <= o.items[i].quantity <= 99
          && o.items[i].unitPrice == c.products[o.items[i].product].price)
  }

  /** The order's first entry names a seller to whom the order was on offer. */
  ghost predicate Born(db: Db, id: OrderId, e: Entry, seen: set<Catalog>)
    requires id in db.orders
  {
    && e in db.history && e.order == id && e.previous == None && e.admin.Some?
    && exists c :: c in seen && Offered(db.orders[id], e.admin.value, c)
  }

  ghost predicate CheckedBefore(q: Request, seen: set<Catalog>) {
    exists c :: c in seen && PricesOk(c) && CheckedAgainst(q, c)
  }

  ghost predicate EntriesOk(db: Db, seen: set<Catalog>) {
    forall i :: 0 <= i < |db.history| ==> EntryOk(db, db.history[i], seen)
  }

  ghost predicate OrdersBorn(db: Db, seen: set<Catalog>) {
    forall id :: id in db.orders ==> exists e :: Born(db, id, e, seen)
  }

  ghost predicate ChecksOk(s: State, seen: set<Catalog>) {
    forall r :: r in s.requests && s.requests[r].phase.Checked? ==> CheckedBefore(s.requests[r], seen)
  }

  ghost predicate AuthorsOk(s: State, seen: set<Catalog>) {
    s.catalog in seen && EntriesOk(s.db, seen) && OrdersBorn(s.db, seen) && ChecksOk(s, seen)
  }

  // ---------------------------------------------------------------- a new order

  lemma ItemOfLine(c: Catalog, shop: ShopId, items: seq<Item>, lines: seq<Line>, i: nat)
    requires i < |items| && multiset(items) == multiset(Asked(c, lines)) && AllOnSale(c, shop, lines)
    requires forall k :: 0 <= k < |lines| ==> LineOk(lines[k])
    ensures OnSale(c, shop, items[i].product) && 1 <= items[i].quantity <= 99
    ensures items[i].unitPrice == c.products[items[i].product].price
  {
    assert items[i] in multiset(Asked(c, lines));
    var k :| 0 <= k < |lines| && Asked(c, lines)[k] == items[i];
  }

  lemma TwiceThere(items: seq<Item>, i: nat, j: nat)
    requires i < j < |items| && items[i] == items[j]
    ensures multiset(items)[items[i]] >= 2
  {
    assert items == items[..i] + [items[i]] + items[i + 1..j] + [items[j]] + items[j + 1..];
  }

  lemma DistinctItems(items: seq<Item>, c: Catalog, lines: seq<Line>)
    requires multiset(items) == multiset(Asked(c, lines)) && DistinctProducts(lines)
    ensures OncePerProduct(items)
  {
    var asked := Asked(c, lines);
    forall i, j | 0 <= i < j < |items| ensures items[i].product != items[j].product {
      if items[i].product == items[j].product {
        assert items[i] in multiset(asked) && items[j] in multiset(asked);
        TwiceThere(items, i, j);
        CountOnce(asked, items[i]);
        assert false;
      }
    }
  }

  lemma AskedIsOffered(o: Order, admin: AdminId, c: Catalog, lines: seq<Line>)
    requires multiset(o.items) == multiset(Asked(c, lines)) && lines != []
    requires DistinctProducts(lines) && AllOnSale(c, o.shop, lines)
    requires forall k :: 0 <= k < |lines| ==> LineOk(lines[k])
    requires (admin, o.shop) in c.access && o.shop in c.shops && c.shops[o.shop].active && c.shops[o.shop].writable
    requires o.payment == c.shops[o.shop].payment
    ensures Offered(o, admin, c)
  {
    DistinctItems(o.items, c, lines);
    assert |o.items| == |multiset(o.items)| == |multiset(Asked(c, lines))| == |lines|;
    forall i | 0 <= i < |o.items|
      ensures OnSale(c, o.shop, o.items[i].product) && 1 <= o.items[i].quantity <= 99
              && o.items[i].unitPrice == c.products[o.items[i].product].price
    {
      ItemOfLine(c, o.shop, o.items, lines, i);
    }
  }

  lemma SentLinesOk(lines: seq<Line>)
    requires AcceptableLines(SortLines(lines)) && SortLines(lines) != []
    ensures DistinctProducts(lines) && lines != [] && forall k :: 0 <= k < |lines| ==> LineOk(lines[k])
  {
    SortLinesCorrect(lines);
    DistinctBackwards(lines);
    forall k | 0 <= k < |lines| ensures LineOk(lines[k]) {
      assert lines[k] in multiset(SortLines(lines));
    }
  }

  /** What either creation path leaves: an order on offer, with its author. */
  lemma AddedIsBorn(db: Db, after: Db, id: OrderId, admin: AdminId, status: Status, key: string, c: Catalog,
      seen: set<Catalog>)
    requires EntriesOk(db, seen) && OrdersBorn(db, seen) && c in seen
    requires OneOrderAdded(db, after, id, admin, status, key) && Offered(after.orders[id], admin, c)
    ensures EntriesOk(after, seen) && OrdersBorn(after, seen)
  {
    assert (admin, after.orders[id].shop) in c.access;
    hide Offered;
    var first := Entry(id, None, status, Some(admin));
    assert after.history[|db.history|] == first;
    forall i | 0 <= i < |after.history| ensures EntryOk(after, after.history[i], seen) {
      if i < |db.history| {
        assert EntryOk(db, db.history[i], seen);
      }
    }
    forall x | x in after.orders ensures exists e :: Born(after, x, e, seen) {
      if x == id {
        assert Born(after, x, first, seen);
      } else {
        var e :| Born(db, x, e, seen);
        assert Born(after, x, e, seen);
      }
    }
  }

  // ---------------------------------------------------------------- every step

  lemma CreateIsBorn(s: State, step: Step, seen: set<Catalog>)
    requires step.CreateTx? && Enabled(s, step) && Inv(s) && AuthorsOk(s, seen)
    ensures EntriesOk(Next(s, step).db, seen) && OrdersBorn(Next(s, step).db, seen)
  {
    var CreateTx(r, id, rows, now) := step;
    var t := Next(s, step);
    assert EventsOk(s.db) && PricesOk(s.catalog);
    CreateAnswers(s, r, id, rows, now);
    var Create(admin, f) := s.requests[r].job;
    var c := s.catalog;
    if t.db != s.db {
      SentLinesOk(f.items);
      AskedIsOffered(t.db.orders[id], admin, c, f.items);
      hide Offered, OneOrderAdded, EntriesOk, OrdersBorn, Inv, Next, Enabled;
      AddedIsBorn(s.db, t.db, id, admin, WaitingInfo, t.db.orders[id].createKey, c, seen);
    }
  }

  lemma ImportIsBorn(s: State, step: Step, seen: set<Catalog>)
    requires step.InsertImport? && Enabled(s, step) && Inv(s) && AuthorsOk(s, seen)
    ensures EntriesOk(Next(s, step).db, seen) && OrdersBorn(Next(s, step).db, seen)
  {
    var InsertImport(r, id, now) := step;
    var t := Next(s, step);
    assert EventsOk(s.db) && CheckedBefore(s.requests[r], seen);
    var c :| c in seen && PricesOk(c) && CheckedAgainst(s.requests[r], c);
    ImportAnswers(s, r, id, now, c);
    var Import(admin, f, file) := s.requests[r].job;
    if t.db != s.db {
      SentLinesOk(f.items);
      ImportFacts(f, file.Some?);
      LoadedAll(c, LinesOf(s.requests[r].job), f.items, f.shopId, s.requests[r].phase.rows);
      AskedIsOffered(t.db.orders[id], admin, c, f.items);
      hide Offered, OneOrderAdded, EntriesOk, OrdersBorn, Inv, Next, Enabled;
      AddedIsBorn(s.db, t.db, id, admin, t.db.orders[id].status, t.db.orders[id].createKey, c, seen);
    }
  }

  lemma EntriesStay(db: Db, after: Db, seen: set<Catalog>)
    requires EntriesOk(db, seen) && DbEvolves(db, after)
    requires forall i :: |db.history| <= i < |after.history| ==> EntryOk(after, after.history[i], seen)
    ensures EntriesOk(after, seen)
  {
    forall i | 0 <= i < |after.history| ensures EntryOk(after, after.history[i], seen) {
      if i < |db.history| {
        assert after.history[i] == db.history[i] && EntryOk(db, db.history[i], seen);
        assert RowEvolves(db.orders[db.history[i].order], after.orders[db.history[i].order]);
      }
    }
  }

  lemma OrdersStay(db: Db, after: Db, seen: set<Catalog>)
    requires OrdersBorn(db, seen) && DbEvolves(db, after) && after.orders.Keys == db.orders.Keys
    ensures OrdersBorn(after, seen)
  {
    forall x | x in after.orders ensures exists e :: Born(after, x, e, seen) {
      var e :| Born(db, x, e, seen);
      assert RowEvolves(db.orders[x], after.orders[x]);
      var i :| 0 <= i < |db.history| && db.history[i] == e;
      assert after.history[i] == e;
      assert Born(after, x, e, seen);
    }
  }

  lemma {:induction false} SweptEntries(db: Db, ids: seq<OrderId>, cutoff: Time)
    ensures var after := CancelAll(db, ids, cutoff);
            && after.orders.Keys == db.orders.Keys && db.history <= after.history
            && (forall i :: |db.history| <= i < |after.history| ==>
                  && after.history[i].order in db.orders && after.history[i].previous == Some(WaitingInfo)
                  && after.history[i].status == Cancelled && after.history[i].admin == None)
  {
    if ids != [] {
      SweptEntries(db, ids[..|ids| - 1], cutoff);
      hide Stale, Record;
    }
  }

  /** The entries a step adds are in order, and it adds no orders. */
  ghost predicate NewEntriesOk(db: Db, after: Db, seen: set<Catalog>) {
    && after.orders.Keys == db.orders.Keys
    && (forall i :: |db.history| <= i < |after.history| ==> EntryOk(after, after.history[i], seen))
  }

  lemma StaysAuthored(db: Db, after: Db, seen: set<Catalog>)
    requires EntriesOk(db, seen) && OrdersBorn(db, seen) && DbEvolves(db, after) && NewEntriesOk(db, after, seen)
    ensures EntriesOk(after, seen) && OrdersBorn(after, seen)
  {
    EntriesStay(db, after, seen);
    OrdersStay(db, after, seen);
  }

  lemma RowAndEntry(db: Db, after: Db, e: Entry, seen: set<Catalog>)
    requires after.orders.Keys == db.orders.Keys && after.history == db.history + [e] && EntryOk(after, e, seen)
    ensures NewEntriesOk(db, after, seen)
  {
  }

  lemma DetailsAuthored(s: State, r: ReqId, now: Time, seen: set<Catalog>)
    requires r in s.requests && s.requests[r].phase.Locked? && s.requests[r].job.SubmitDetails?
    requires Inv(s) && Enabled(s, CommitRow(r, now))
    ensures NewEntriesOk(s.db, Next(s, CommitRow(r, now)).db, seen)
  {
    DetailsCommitted(s, r, now);
    hide Inv, Enabled, Next;
    var id := s.requests[r].phase.id;
    RowAndEntry(s.db, Next(s, CommitRow(r, now)).db, Entry(id, Some(WaitingInfo), WaitingPayment, None), seen);
  }

  lemma FinalAuthored(s: State, r: ReqId, now: Time, seen: set<Catalog>)
    requires Inv(s) && Enabled(s, CommitRow(r, now)) && !s.requests[r].job.SubmitDetails?
    ensures NewEntriesOk(s.db, Next(s, CommitRow(r, now)).db, seen)
  {
    hide Inv, JobOk, Loaded, Submit;
  }

  lemma SweepAuthored(s: State, r: ReqId, seen: set<Catalog>)
    requires Enabled(s, CommitSweep(r))
    ensures NewEntriesOk(s.db, Next(s, CommitSweep(r)).db, seen)
  {
    SweptEntries(s.db, s.requests[r].phase.marked, s.requests[r].job.cutoff);
    hide JobOk, Loaded, CancelAll;
  }

  lemma CommitIsAuthored(s: State, step: Step, seen: set<Catalog>)
    requires (step.CommitRow? || step.CommitSweep?) && Enabled(s, step) && Inv(s) && AuthorsOk(s, seen)
    ensures EntriesOk(Next(s, step).db, seen) && OrdersBorn(Next(s, step).db, seen)
  {
    StepEvolves(s, step);
    assert step.CommitRow? ==> step.r in s.requests;
    hide Inv, Next, Enabled, DbEvolves, EntriesOk, OrdersBorn, NewEntriesOk;
    if step.CommitSweep? { SweepAuthored(s, step.r, seen); }
    else if s.requests[step.r].job.SubmitDetails? { DetailsAuthored(s, step.r, step.now, seen); }
    else { FinalAuthored(s, step.r, step.now, seen); }
    StaysAuthored(s.db, Next(s, step).db, seen);
  }

  lemma SubmittedAreValid(db: Db)
    requires RowsOk(db)
    ensures SubmittedValid(db)
  {
    forall id | id in db.orders && db.orders[id].submittedAt.Some? ensures ValidDetails(db.orders[id].customer) {
      assert RowOk(db.orders[id], db.history, id);
    }
  }

  lemma EditAuthored(s: State, admin: AdminId, id: OrderId, p: Patch, seen: set<Catalog>)
    requires RowsOk(s.db) && s.catalog in seen
    ensures NewEntriesOk(s.db, Next(s, PatchOrder(admin, id, p)).db, seen)
  {
    SubmittedAreValid(s.db);
    EditAnswers(s, admin, id, p);
    hide Next, CustomerEdited, RemarksEdited, NamesInvalid, NamesCustomer, StatusRefused, SubmittedValid, RowsOk;
    var t := Next(s, PatchOrder(admin, id, p));
    if t.db.history != s.db.history {
      assert (admin, t.db.orders[id].shop) in s.catalog.access;
    }
  }

  lemma PaymentStepsAuthored(s: State, step: Step, seen: set<Catalog>)
    requires step.RequestFinalPayment? || step.ConfirmFinalPayment? || step.RotateLink? || step.Observe?
    requires Enabled(s, step)
    ensures NewEntriesOk(s.db, Next(s, step).db, seen)
  {
    hide Loaded, JobOk, Record, EntryOk;
  }

  lemma SellerIsAuthor(s: State, step: Step, seen: set<Catalog>)
    requires step.PatchOrder? || step.RequestFinalPayment? || step.ConfirmFinalPayment? || step.RotateLink?
             || step.Observe?
    requires Enabled(s, step) && Inv(s) && AuthorsOk(s, seen)
    ensures EntriesOk(Next(s, step).db, seen) && OrdersBorn(Next(s, step).db, seen)
  {
    StepEvolves(s, step);
    assert RowsOk(s.db);
    hide Inv, RowsOk, Next, Enabled, DbEvolves, EntriesOk, OrdersBorn, NewEntriesOk;
    if step.PatchOrder? { EditAuthored(s, step.admin, step.id, step.patch, seen); }
    else { PaymentStepsAuthored(s, step, seen); }
    StaysAuthored(s.db, Next(s, step).db, seen);
  }

  // ---------------------------------------------------------------- what a check has seen

  lemma ChecksByOthers(s: State, step: Step, r: ReqId)
    requires !Creating(step)
    requires r in Next(s, step).requests && Next(s, step).requests[r].phase.Checked?
    ensures r in s.requests && s.requests[r].phase == Next(s, step).requests[r].phase
    ensures s.requests[r].job == Next(s, step).requests[r].job
  {
    hide Loaded, StaleIds, JobOk, CancelAll, CheckRow, Submit, SubmitFinal, Update, RequestFinal, ConfirmFinal, Rotate;
    hide Record, LinesOf, ShopOf;
  }

  lemma ChecksByLookups(s: State, step: Step, r: ReqId)
    requires step.Lookup? || step.SecondLookup?
    requires r in Next(s, step).requests && Next(s, step).requests[r].phase.Checked?
    ensures r in s.requests && s.requests[r] == Next(s, step).requests[r]
  {
    hide Visible, PublicOrder, PrintOf, KeyOf;
  }

  lemma ChecksByInserts(s: State, step: Step, r: ReqId)
    requires step.CreateTx? || step.InsertImport? || step.Arrive? || step.Fail? || step.Close?
    requires r in Next(s, step).requests && Next(s, step).requests[r].phase.Checked?
    ensures r in s.requests && s.requests[r] == Next(s, step).requests[r]
  {
    hide Loaded, JobOk, CreateTransaction, TryInsert, PrintOf, NewRow, LinesOf, ShopOf, KeyOf;
  }

  lemma BegunCheck(s: State, r: ReqId, rows: seq<Product>)
    requires In(s, r) && s.requests[r].job.Import? && Loaded(s.catalog, LinesOf(s.requests[r].job),
        ShopOf(s.requests[r].job), rows)
    requires DoBeginImport(s, r, rows).requests[r].phase.Checked?
    ensures CheckedAgainst(DoBeginImport(s, r, rows).requests[r], s.catalog)
  {
    hide Loaded, LinesOf;
  }

  lemma ChecksByBegin(s: State, step: Step, r: ReqId)
    requires step.BeginImport?
    requires r in Next(s, step).requests && Next(s, step).requests[r].phase.Checked?
    ensures CheckedAgainst(Next(s, step).requests[r], s.catalog)
            || (r in s.requests && s.requests[r] == Next(s, step).requests[r])
  {
    if Enabled(s, step) {
      if r == step.r { BegunCheck(s, r, step.rows); }
    }
    hide Loaded, LinesOf, ShopOf, CheckedAgainst, LockedActiveShop;
  }

  lemma StepKeepsChecks(s: State, step: Step, seen: set<Catalog>)
    requires Inv(s) && AuthorsOk(s, seen)
    ensures ChecksOk(Next(s, step), seen)
  {
    var t := Next(s, step);
    assert PricesOk(s.catalog);
    hide Inv, Next, PricesOk, CheckedAgainst, EntriesOk, OrdersBorn;
    forall r | r in t.requests && t.requests[r].phase.Checked? ensures CheckedBefore(t.requests[r], seen) {
      if step.Lookup? || step.SecondLookup? { ChecksByLookups(s, step, r); }
      else if step.BeginImport? { ChecksByBegin(s, step, r); }
      else if Creating(step) { ChecksByInserts(s, step, r); }
      else { ChecksByOthers(s, step, r); }
      if r in s.requests && s.requests[r].phase == t.requests[r].phase && s.requests[r].job == t.requests[r].job {
        SameCheck(s.requests[r], t.requests[r], seen);
      }
    }
  }

  lemma SameCheck(q: Request, p: Request, seen: set<Catalog>)
    requires q.phase.Checked? && CheckedBefore(q, seen) && p.phase == q.phase && p.job == q.job
    ensures CheckedBefore(p, seen)
  {
    var c :| c in seen && PricesOk(c) && CheckedAgainst(q, c);
    assert CheckedAgainst(p, c);
  }

  // ---------------------------------------------------------------- every run

  lemma MoreSeen(db: Db, seen: set<Catalog>, more: set<Catalog>)
    requires EntriesOk(db, seen) && OrdersBorn(db, seen) && seen <= more
    ensures EntriesOk(db, more) && OrdersBorn(db, more)
  {
    forall i | 0 <= i < |db.history| ensures EntryOk(db, db.history[i], more) {
      assert EntryOk(db, db.history[i], seen);
    }
    forall id | id in db.orders ensures exists e :: Born(db, id, e, more) {
      var e :| Born(db, id, e, seen);
      assert Born(db, id, e, more);
    }
  }

  lemma MoreChecks(s: State, seen: set<Catalog>, more: set<Catalog>)
    requires ChecksOk(s, seen) && seen <= more
    ensures ChecksOk(s, more)
  {
    hide CheckedAgainst, PricesOk;
    forall r | r in s.requests && s.requests[r].phase.Checked? ensures CheckedBefore(s.requests[r], more) {
      assert CheckedBefore(s.requests[r], seen);
    }
  }

  lemma StepKeepsAuthors(s: State, step: Step, seen: set<Catalog>)
    requires Inv(s) && AuthorsOk(s, seen)
    ensures AuthorsOk(Next(s, step), seen + {Next(s, step).catalog})
  {
    var t := Next(s, step);
    StepKeepsChecks(s, step, seen);
    assert !Enabled(s, step) ==> t == s;
    hide Next, Enabled, Inv, ChecksOk, EntriesOk, OrdersBorn;
    if !Writes(step) { OthersOnlyRead(s, step); }
    else if !Enabled(s, step) { }
    else if step.CreateTx? { CreateIsBorn(s, step, seen); }
    else if step.InsertImport? { ImportIsBorn(s, step, seen); }
    else if step.CommitRow? || step.CommitSweep? { CommitIsAuthored(s, step, seen); }
    else { SellerIsAuthor(s, step, seen); }
    MoreSeen(t.db, seen, seen + {t.catalog});
    MoreChecks(t, seen, seen + {t.catalog});
  }

  lemma {:induction false} RunKeepsAuthors(catalog: Catalog, steps: seq<Step>)
    requires PricesOk(catalog)
    ensures AuthorsOk(Run(catalog, steps), Catalogs(catalog, steps))
  {
    if steps != [] {
      var before := steps[..|steps| - 1];
      RunKeepsAuthors(catalog, before);
      RunKeeps(catalog, before);
      hide Inv, Next, AuthorsOk;
      StepKeepsAuthors(Run(catalog, before), steps[|steps| - 1], Catalogs(catalog, before));
    }
  }

  /** The catalogs of a run are those of its moments. */
  lemma {:induction false} CatalogHasMoment(catalog: Catalog, steps: seq<Step>, c: Catalog)
    requires c in Catalogs(catalog, steps)
    ensures exists n :: 0 <= n <= |steps| && Run(catalog, steps[..n]).catalog == c
  {
    if steps == [] || Run(catalog, steps).catalog == c {
      assert steps[..|steps|] == steps;
    } else {
      var before := steps[..|steps| - 1];
      CatalogHasMoment(catalog, before, c);
      var n :| 0 <= n <= |before| && Run(catalog, before[..n]).catalog == c;
      assert steps[..n] == before[..n];
    }
  }

  /** In every run, a history entry that names a seller was written by one who had access to the order's
      shop at some moment of the run, and one that names nobody leads from waiting for information to
      waiting for payment or to cancelled. So no order becomes paid, or is prepared or shipped, without
      a seller. */
  lemma EveryEntryHasItsAuthor(catalog: Catalog, steps: seq<Step>, i: nat)
    requires PricesOk(catalog) && i < |Run(catalog, steps).db.history|
    ensures var db := Run(catalog, steps).db;
            var e := db.history[i];
            && e.order in db.orders
            && (e.admin.None? ==>
                  e.previous == Some(WaitingInfo) && (e.status == WaitingPayment || e.status == Cancelled))
            && (e.admin.Some? ==>
                  exists n :: (0 <= n <= |steps|
                               && (e.admin.value, db.orders[e.order].shop) in Run(catalog, steps[..n]).catalog.access))
            && (e.status == Paid || e.status == Preparing || e.status == Shipped ==> e.admin.Some?)
  {
    RunKeepsAuthors(catalog, steps);
    var db, seen := Run(catalog, steps).db, Catalogs(catalog, steps);
    hide Run, Catalogs;
    var e := db.history[i];
    assert EntryOk(db, e, seen);
    if e.admin.Some? {
      var c :| c in seen && (e.admin.value, db.orders[e.order].shop) in c.access;
      CatalogHasMoment(catalog, steps, c);
    }
  }

  /** In every run, every order was entered by a seller to whom it was on offer at some moment: access to
      an active shop whose period ran, its payment columns copied, and its items on sale there, each
      once, at their prices. */
  lemma EveryOrderWasOffered(catalog: Catalog, steps: seq<Step>, id: OrderId)
    requires PricesOk(catalog) && id in Run(catalog, steps).db.orders
    ensures var db := Run(catalog, steps).db;
            exists e, n ::
              && e in db.history && e.order == id && e.previous == None && e.admin.Some?
              && 0 <= n <= |steps| && Offered(db.orders[id], e.admin.value, Run(catalog, steps[..n]).catalog)
  {
    RunKeepsAuthors(catalog, steps);
    var db, seen := Run(catalog, steps).db, Catalogs(catalog, steps);
    hide Run, Catalogs, Offered;
    var e :| Born(db, id, e, seen);
    var c :| c in seen && Offered(db.orders[id], e.admin.value, c);
    CatalogHasMoment(catalog, steps, c);
    var n :| 0 <= n <= |steps| && Run(catalog, steps[..n]).catalog == c;
    assert Offered(db.orders[id], e.admin.value, Run(catalog, steps[..n]).catalog);
  }

  /** In every run, whoever is asked for the final payment had the first one approved by a seller with
      access to the shop. */
  lemma FinalPaymentFollowsApproval(catalog: Catalog, steps: seq<Step>, id: OrderId)
    requires PricesOk(catalog) && id in Run(catalog, steps).db.orders
    requires Run(catalog, steps).db.orders[id].requestedAt.Some?
    ensures var db := Run(catalog, steps).db;
            exists i, n ::
              && 0 <= i < |db.history| && db.history[i].order == id && db.history[i].status == Paid
              && db.history[i].admin.Some? && 0 <= n <= |steps|
              && (db.history[i].admin.value, db.orders[id].shop) in Run(catalog, steps[..n]).catalog.access
  {
    EvidenceLadder(catalog, steps, id);
    var db := Run(catalog, steps).db;
    var i :| 0 <= i < |db.history| && db.history[i].order == id && db.history[i].status == Paid;
    EveryEntryHasItsAuthor(catalog, steps, i);
    hide Run;
    var n :| 0 <= n <= |steps|
        && (db.history[i].admin.value, db.orders[id].shop) in Run(catalog, steps[..n]).catalog.access;
  }
}
