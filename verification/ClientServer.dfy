/** The server the create page talks to is the ledger: whenever a creation request of the ledger is
    answered, the answer and the tables are those of CreateClient's one-step server. */
module ClientServer {
  import opened Pricing
  import opened Intake
  import opened Orders
  import opened Ledger
  import opened LedgerSafety
  import Client = CreateClient

  /** The page sees a 201 or an error. */
  function ToAnswer(reply: Reply): Client.Answer {
    if reply.Created? then Client.Created(reply.id) else Client.Refused
  }

  /** The table of the page's server and the ledger agree on a create key. */
  ghost predicate Mirrors(db: Db, rows: Client.Table, key: string) {
    && (key in rows <==> KeyTaken(db, key))
    && (forall id :: id in db.orders && db.orders[id].createKey == key ==>
          && rows[key].id == id
          && db.orders[id].fingerprint == NormalFingerprint(CleanNormal(rows[key].form)))
  }

  /** The reply and the tables after it are the one-step server's, which may refuse for its own reasons. */
  ghost predicate Served(after: Db, rows: Client.Table, form: NormalForm, reply: Reply, id: OrderId) {
    exists refuse: bool ::
      && ToAnswer(reply) == Client.AnswerTo(rows, form, refuse, id)
      && Mirrors(after, Client.AfterRequest(rows, form, refuse, id), CleanNormal(form).createKey)
  }

  lemma RefusalServes(db: Db, rows: Client.Table, form: NormalForm, reason: Reject, id: OrderId)
    requires Mirrors(db, rows, CleanNormal(form).createKey)
    ensures Served(db, rows, form, Refused(reason), id)
  {
    hide CleanNormal, AcceptsNormal;
    assert Client.AnswerTo(rows, form, true, id) == Client.Refused;
    assert Client.AfterRequest(rows, form, true, id) == rows;
  }

  /** Answering from an existing row of the key. */
  lemma ExistingServes(db: Db, rows: Client.Table, job: Job, found: OrderId, id: OrderId)
    requires job.Create? && JobOk(job) && Mirrors(db, rows, KeyOf(job))
    requires found in db.orders && db.orders[found].createKey == KeyOf(job)
    ensures Served(db, rows, job.normal, RespondExisting(db, found, job), id)
  {
    hide CleanNormal, AcceptsNormal, NormalFingerprint;
    assert KeyTaken(db, KeyOf(job));
    assert ToAnswer(RespondExisting(db, found, job)) == Client.AnswerTo(rows, job.normal, false, id);
    assert Client.AfterRequest(rows, job.normal, false, id) == rows;
  }

  /** The first and the second lookup: an answer is the one-step server's, and none means that no row
      of the key is visible. */
  lemma LookupServes(s: State, r: ReqId, rows: Client.Table, id: OrderId)
    requires r in s.requests && s.requests[r].job.Create? && JobOk(s.requests[r].job)
    requires Mirrors(s.db, rows, KeyOf(s.requests[r].job))
    ensures var job := s.requests[r].job;
            var phase := DoLookup(s, r).requests[r].phase;
            DoLookup(s, r).db == s.db && (phase == Missing
                || (phase.Closing? && Served(s.db, rows, job.normal, phase.reply, id)))
    ensures var job := s.requests[r].job;
            var phase := DoSecondLookup(s, r).requests[r].phase;
            DoSecondLookup(s, r).db == s.db && phase.Closing? && Served(s.db, rows, job.normal, phase.reply, id)
  {
    hide JobOk, CleanNormal, Served, Mirrors;
    var job := s.requests[r].job;
    VisibleFacts(s.db, s.catalog, job.admin, KeyOf(job));
    RefusalServes(s.db, rows, job.normal, Conflict, id);
    match Visible(s.db, s.catalog, job.admin, KeyOf(job))
    case None =>
    case Some(found) => ExistingServes(s.db, rows, job, found, id);
  }

  lemma InsertedMirrors(db: Db, rows: Client.Table, form: NormalForm, id: OrderId, o: Order, admin: AdminId)
    requires AcceptsNormal(CleanNormal(form), true) && Mirrors(db, rows, CleanNormal(form).createKey)
    requires !KeyTaken(db, CleanNormal(form).createKey) && id !in db.orders
    requires o.createKey == CleanNormal(form).createKey && o.fingerprint == NormalFingerprint(CleanNormal(form))
    ensures Served(Insert(db, id, o, admin), rows, form, Created(id, o.fingerprint), id)
  {
    hide CleanNormal, AcceptsNormal, NormalFingerprint;
    var key := o.createKey;
    var after := Insert(db, id, o, admin);
    assert after.orders[id].createKey == key;
    assert Client.AnswerTo(rows, form, false, id) == Client.Created(id);
    assert Mirrors(after, Client.AfterRequest(rows, form, false, id), key);
  }

  /** The transaction: a refusal changes nothing, an insertion is the one-step server's creation of the
      same row, and losing the key means the page's server has it too. */
  lemma TransactionServes(s: State, r: ReqId, id: OrderId, products: seq<Product>, now: Time, rows: Client.Table)
    requires r in s.requests && s.requests[r].job.Create? && JobOk(s.requests[r].job) && id !in s.db.orders
    requires Loaded(s.catalog, LinesOf(s.requests[r].job), ShopOf(s.requests[r].job), products)
    requires Mirrors(s.db, rows, KeyOf(s.requests[r].job))
    ensures var job := s.requests[r].job;
            var t := DoCreate(s, r, id, products, now);
            match t.requests[r].phase
            case Closing(reply) => Served(t.db, rows, job.normal, reply, id)
            case Lost => t.db == s.db && KeyOf(job) in rows
            case _ => false
  {
    var job := s.requests[r].job;
    var form := Form(job);
    hide Loaded, CleanNormal, AcceptsNormal, NormalFingerprint, Mirrors, Served, Insert;
    match CreateTransaction(s.db, s.catalog, r, job, id, products, now)
    case Declined(reason) => RefusalServes(s.db, rows, job.normal, reason, id);
    case KeyLost => assert KeyOf(job) in rows by { KeyLostMeans(s.db, s.catalog, r, job, id, products, now, rows); }
    case Inserted(after) =>
      var o: Order :| after == Insert(s.db, id, o, job.admin) && o.createKey == KeyOf(job)
          && o.fingerprint == PrintOf(job)
                      && !KeyTaken(s.db, o.createKey);
      InsertedMirrors(s.db, rows, job.normal, id, o, job.admin);
  }

  lemma KeyLostMeans(db: Db, c: Catalog, r: ReqId, job: Job, id: OrderId, products: seq<Product>, now: Time,
      rows: Client.Table)
    requires job.Create? && JobOk(job) && Loaded(c, LinesOf(job), ShopOf(job), products)
    requires CreateTransaction(db, c, r, job, id, products, now).KeyLost? && Mirrors(db, rows, KeyOf(job))
    ensures KeyOf(job) in rows
  {
    hide Loaded, CleanNormal, AcceptsNormal, NormalFingerprint;
  }
}
