/** The browser half of order creation: one tab of one shop, its session storage, its requests and
    responses (any of which may be delayed or lost), and the server that answers by create key.

    A form ends by a reload, which kills the requests it waits for, or by navigation inside the
    application, which does not: the response of a form already left still clears the stored key,
    and is shown to nobody. */
module CreateClient {
  import opened Wrappers
  import opened Text
  import opened Pricing
  import opened Intake

  // ---------------------------------------------------------------- the page

  /** Message numbers name the requests of the tab in the order they were sent. While the form is
      not mounted, createKey is the key of the last one. */
  datatype Page = Page(
    createKey: string, stored: Option<string>, pending: Option<nat>, created: Option<nat>, mounted: bool)

  datatype Answer = Created(id: nat) | Refused

  /** newCreateKey on mount: the stored key, or the drawn one, which is stored. */
  function Mounted(stored: Option<string>, drawn: string): Page {
    var key := stored.GetOr(drawn);
    Page(key, Some(key), None, None, true)
  }

  predicate CanSubmit(p: Page) { p.mounted && p.pending.None? && p.created.None? }

  function Submitted(p: Page, n: nat): Page { p.(pending := Some(n)) }

  /** The awaited request ends: with an answer, or None when the network failed. */
  function Ended(p: Page, n: nat, answer: Option<Answer>): Page {
    if p.pending != Some(n) then p
    else if answer.Some? && answer.value.Created?
    then p.(stored := None, created := Some(answer.value.id), pending := None)
    else p.(pending := None)
  }

  function Renewed(p: Page, drawn: string): Page {
    p.(createKey := drawn, stored := Some(drawn), created := None)
  }

  /** Navigation to another page of the application. */
  function Unmounted(p: Page): Page {
    p.(pending := None, created := None, mounted := false)
  }

  /** A form of the tab, and the session storage it shares with the forms before it. */
  class CreateOrderPage {
    var createKey: string
    var storage: Option<string>
    var pending: Option<nat>
    var created: Option<nat>
    /** The keys under which this tab has shown an order. */
    ghost var finished: set<string>

    function State(): Page
      reads this
    {
      Page(createKey, storage, pending, created, true)
    }

    /** The form works under a key without a shown order until it shows one, the stored key is the
        form's, and no request is awaited once an order is shown. */
    ghost predicate Valid()
      reads this
    {
      && (created.Some? <==> createKey in finished)
      && (storage.Some? ==> storage.value == createKey && created.None?)
      && (created.Some? ==> pending.None?)
    }

    /** Mounting takes up the key of an unfinished order, if one is stored. */
    constructor (survived: Option<string>, drawn: string, ghost done: set<string>)
      requires drawn !in done && (survived.Some? ==> survived.value !in done)
      ensures Valid() && CanSubmit(State()) && finished == done
      ensures survived.Some? ==> createKey == survived.value
      ensures storage == Some(createKey)
    {
      if survived.Some? {
        createKey := survived.value;
        storage := survived;
      } else {
        createKey := drawn;
        storage := Some(drawn);
      }
      pending, created := None, None;
      finished := done;
    }

    /** No request is ever sent under a key whose order was shown, nor a second one while the first
        is awaited. */
    method Submit(form: NormalForm, n: nat) returns (body: NormalForm)
      requires Valid() && CanSubmit(State())
      modifies this`pending
      ensures Valid() && !CanSubmit(State())
      ensures body.createKey !in finished && body == form.(createKey := createKey)
      ensures State() == Submitted(old(State()), n)
    {
      pending := Some(n);
      body := form.(createKey := createKey);
    }

    /** After a refusal or a lost connection the form can be sent again under the same, still stored
        key; after a success the key is finished and forgotten. Other requests' ends change nothing. */
    method End(n: nat, answer: Option<Answer>)
      requires Valid()
      modifies this
      ensures Valid() && createKey == old(createKey)
      ensures old(pending) != Some(n) ==> State() == old(State()) && finished == old(finished)
      ensures old(pending) == Some(n) && created.None? ==>
                CanSubmit(State()) && storage == old(storage) && finished == old(finished)
      ensures created.Some? && old(created).None? ==>
                answer == Some(Created(created.value)) && finished == old(finished) + {createKey}
      ensures State() == Ended(old(State()), n, answer)
    {
      if pending != Some(n) {
        return;
      }
      match answer {
        case Some(Created(id)) =>
          storage := None;
          created := Some(id);
          finished := finished + {createKey};
        case _ =>
      }
      pending := None;
    }

    /** The success of a form left earlier clears the storage, whatever key is in it by then. */
    method EarlierFormSucceeded()
      requires Valid()
      modifies this`storage
      ensures Valid() && storage == None
    {
      storage := None;
    }

    /** Another order gets another key; the finished one is never taken up again. */
    method Reset(drawn: string)
      requires Valid() && created.Some? && drawn !in finished
      modifies this
      ensures Valid() && CanSubmit(State()) && createKey != old(createKey) && finished == old(finished)
      ensures State() == Renewed(old(State()), drawn)
    {
      created := None;
      storage := Some(drawn);
      createKey := drawn;
    }
  }

  // ---------------------------------------------------------------- the server

  /** A row and the request it was created from. */
  datatype Row = Row(id: nat, form: NormalForm)

  type Table = map<string, Row>

  /** createOrder, at the moment its answer is decided; id numbers a new row. The server may refuse
      any request for reasons of its own (a product gone, no access, an error). */
  function AnswerTo(rows: Table, form: NormalForm, refuse: bool, id: nat): Answer {
    var clean := CleanNormal(form);
    if refuse || !AcceptsNormal(clean, true) then Refused
    else if clean.createKey !in rows then Created(id)
    else if NormalFingerprint(CleanNormal(rows[clean.createKey].form)) == NormalFingerprint(clean)
    then Created(rows[clean.createKey].id)
    else Refused
  }

  function AfterRequest(rows: Table, form: NormalForm, refuse: bool, id: nat): Table {
    var key := CleanNormal(form).createKey;
    if AnswerTo(rows, form, refuse, id).Created? && key !in rows then rows[key := Row(id, form)] else rows
  }

  predicate UnusedId(rows: Table, id: nat) {
    forall key :: key in rows ==> rows[key].id != id
  }

  // ---------------------------------------------------------------- runs

  type Sent = map<nat, NormalForm>

  /** An order shown to the seller, the request whose response named it, and that request's key. */
  datatype Success = Success(id: nat, request: nat, key: string)

  datatype World = World(
    rows: Table, page: Page, sent: Sent, requests: set<nat>, responses: map<nat, Answer>,
    left: set<nat>,         // requests still awaited by forms already left
    shown: seq<Success>,
    late: seq<nat>,         // requests whose 201 reached a form already left
    drawn: set<string>,
    givenUp: set<string>)   // keys replaced by a newly drawn one before any order was shown under them

  datatype Event =
    | Submit(form: NormalForm)
    | Serve(n: nat, refuse: bool, id: nat)   // the server decides request n
    | LoseRequest(n: nat)
    | LoseResponse(n: nat)
    | Deliver(n: nat)                  // the response of request n reaches the tab
    | Break(n: nat)                    // the fetch of request n fails; what is on its way stays on its way
    | Reset(key: string)
    | Leave                            // navigation to another page of the application
    | Return(key: string)              // and back to a new form
    | Reload(key: string)

  /** A random key: never drawn before, without white space around it, so the server keeps it as it is. */
  predicate FreshKey(w: World, key: string) {
    key !in w.drawn && Trim(key) == key
  }

  predicate Possible(w: World, e: Event) {
    match e
    case Submit(_) => CanSubmit(w.page)
    case Serve(n, _, id) => n in w.requests && n in w.sent && UnusedId(w.rows, id)
    case LoseRequest(n) => n in w.requests
    case LoseResponse(n) => n in w.responses
    case Deliver(n) => n in w.responses
    case Break(n) => w.page.pending == Some(n) || n in w.left
    case Reset(key) => w.page.created.Some? && FreshKey(w, key)
    case Leave => w.page.mounted
    case Return(key) => !w.page.mounted && FreshKey(w, key)
    case Reload(key) => FreshKey(w, key)
  }

  /** A response reaches whoever still waits for it: the form, a form already left, or nobody. */
  function Receive(w: World, n: nat): World
    requires n in w.responses
  {
    var answer := w.responses[n];
    var v := w.(responses := w.responses - {n}, left := w.left - {n});
    if w.page.pending == Some(n) then
      v.(page := Ended(w.page, n, Some(answer)),
         shown := if answer.Created? then w.shown + [Success(answer.id, n, w.page.createKey)] else w.shown)
    else if n in w.left && answer.Created? then
      v.(page := w.page.(stored := None), late := w.late + [n])
    else v
  }

  /** Some order was shown under the key. */
  predicate ShownUnder(shown: seq<Success>, key: string) {
    exists i :: 0 <= i < |shown| && shown[i].key == key
  }

  /** A new form: under the stored key, or under a new one, which gives up an unfinished key. */
  function Mount(w: World, key: string): World {
    w.(page := Mounted(w.page.stored, key), drawn := w.drawn + {key},
       givenUp := if w.page.stored.None? && !ShownUnder(w.shown, w.page.createKey) then w.givenUp + {w.page.createKey}
                  else w.givenUp)
  }

  function Next(w: World, e: Event): World {
    if !Possible(w, e) then w
    else match e
      case Submit(form) =>
        var n := |w.sent|;
        w.(page := Submitted(w.page, n), sent := w.sent[n := form.(createKey := w.page.createKey)],
           requests := w.requests + {n})
      case Serve(n, refuse, id) =>
        w.(rows := AfterRequest(w.rows, w.sent[n], refuse, id), requests := w.requests - {n},
           responses := w.responses[n := AnswerTo(w.rows, w.sent[n], refuse, id)])
      case LoseRequest(n) => w.(requests := w.requests - {n})
      case LoseResponse(n) => w.(responses := w.responses - {n})
      case Deliver(n) => Receive(w, n)
      case Break(n) => w.(page := Ended(w.page, n, None), left := w.left - {n})
      case Reset(key) => w.(page := Renewed(w.page, key), drawn := w.drawn + {key})
      case Leave =>
        w.(page := Unmounted(w.page), left := w.left + (if w.page.pending.Some? then {w.page.pending.value} else {}))
      case Return(key) => Mount(w, key)
      case Reload(key) => if w.page.mounted then Mount(w, key).(left := {}) else w.(left := {})
  }

  function Start(key: string): World {
    World(map[], Mounted(None, key), map[], {}, map[], {}, [], [], {key}, {})
  }

  function Run(key: string, events: seq<Event>): World {
    if events == [] then Start(key) else Next(Run(key, events[..|events| - 1]), events[|events| - 1])
  }

  // ---------------------------------------------------------------- the invariant

  ghost predicate PageOk(p: Page, shown: seq<Success>, drawn: set<string>) {
    && p.createKey in drawn && Trim(p.createKey) == p.createKey
    && (p.stored.Some? ==> p.stored.value == p.createKey && !ShownUnder(shown, p.createKey))
    && (p.created.Some? ==> p.mounted && p.pending.None? && p.stored.None? && ShownUnder(shown, p.createKey))
    && (p.mounted && p.created.None? ==> !ShownUnder(shown, p.createKey))
    && (p.pending.Some? ==> p.mounted)
    && (forall key :: ShownUnder(shown, key) ==> key in drawn)
  }

  ghost predicate PendingOk(p: Page, sent: Sent) {
    p.pending.Some? ==> p.pending.value in sent && sent[p.pending.value].createKey == p.createKey
  }

  ghost predicate Known(key: string, current: string, shown: seq<Success>, givenUp: set<string>) {
    key == current || ShownUnder(shown, key) || key in givenUp
  }

  /** Requests were numbered in order and sent under known keys. */
  ghost predicate SentOk(sent: Sent, current: string, shown: seq<Success>, givenUp: set<string>) {
    && (forall n :: n in sent ==> n < |sent|)
    && (forall n :: n in sent ==>
          Trim(sent[n].createKey) == sent[n].createKey && Known(sent[n].createKey, current, shown, givenUp))
  }

  ghost predicate FlightOk(requests: set<nat>, responses: map<nat, Answer>, sent: Sent) {
    forall n :: n in requests || n in responses ==> n in sent
  }

  ghost predicate RowsOk(rows: Table, current: string, shown: seq<Success>, givenUp: set<string>) {
    && (forall key :: key in rows ==> Known(key, current, shown, givenUp))
    && (forall a, b :: a in rows && b in rows && rows[a].id == rows[b].id ==> a == b)
  }

  /** A row with this id stands under the request's key and was created from the same payload. */
  ghost predicate Names(rows: Table, sent: Sent, n: nat, id: nat) {
    && n in sent && sent[n].createKey in rows
    && rows[sent[n].createKey].id == id
    && SameNormal(rows[sent[n].createKey].form, sent[n])
  }

  ghost predicate AnswersOk(rows: Table, sent: Sent, responses: map<nat, Answer>) {
    forall n :: n in responses && responses[n].Created? ==> Names(rows, sent, n, responses[n].id)
  }

  ghost predicate ShownOk(rows: Table, sent: Sent, shown: seq<Success>) {
    && (forall i :: 0 <= i < |shown| ==>
          Names(rows, sent, shown[i].request, shown[i].id) && sent[shown[i].request].createKey == shown[i].key)
    && (forall i, j :: 0 <= i < j < |shown| ==> shown[i].key != shown[j].key)
  }

  /** The current key is unfinished and no longer stored: the next mount will give it up. */
  predicate Loose(p: Page, shown: seq<Success>) {
    p.stored.None? && !ShownUnder(shown, p.createKey)
  }

  /** Each key given up, and the one that will be, is paid for by a late success. */
  predicate Paid(w: World) {
    |w.givenUp| + (if Loose(w.page, w.shown) then 1 else 0) <= |w.late|
  }

  ghost predicate WorldOk(w: World) {
    && PageOk(w.page, w.shown, w.drawn) && PendingOk(w.page, w.sent)
    && SentOk(w.sent, w.page.createKey, w.shown, w.givenUp) && FlightOk(w.requests, w.responses, w.sent)
    && RowsOk(w.rows, w.page.createKey, w.shown, w.givenUp)
    && AnswersOk(w.rows, w.sent, w.responses) && ShownOk(w.rows, w.sent, w.shown)
    && Paid(w)
  }

  lemma AnswerFacts(rows: Table, form: NormalForm, refuse: bool, id: nat)
    requires Trim(form.createKey) == form.createKey
    requires AnswerTo(rows, form, refuse, id).Created?
    ensures AcceptsNormal(CleanNormal(form), true)
    ensures var key := form.createKey;
            var answer, after := AnswerTo(rows, form, refuse, id), AfterRequest(rows, form, refuse, id);
            if key in rows
            then after == rows && answer.id == rows[key].id && SameNormal(rows[key].form, form)
            else after == rows[key := Row(id, form)] && answer.id == id
  {
    var key := form.createKey;
    assert CleanNormal(form).createKey == key;
    AcceptedItemsDistinct(form, true);
    if key in rows {
      NormalFingerprintIff(form, rows[key].form);
    }
  }

  lemma SameAsItself(form: NormalForm)
    ensures SameNormal(form, form)
  {
  }

  /** What serving a request does to the table. */
  lemma ServeFacts(rows: Table, sent: Sent, n: nat, refuse: bool, id: nat)
    requires n in sent && Trim(sent[n].createKey) == sent[n].createKey
    ensures var after, key := AfterRequest(rows, sent[n], refuse, id), sent[n].createKey;
            var answer := AnswerTo(rows, sent[n], refuse, id);
            && (after == rows || (key !in rows && after == rows[key := Row(id, sent[n])]))
            && (answer.Created? ==> Names(after, sent, n, answer.id))
  {
    if AnswerTo(rows, sent[n], refuse, id).Created? {
      AnswerFacts(rows, sent[n], refuse, id);
      SameAsItself(sent[n]);
    }
  }

  lemma GrownRowsOk(rows: Table, key: string, row: Row, current: string, shown: seq<Success>, givenUp: set<string>)
    requires RowsOk(rows, current, shown, givenUp) && key !in rows && Known(key, current, shown, givenUp)
    requires UnusedId(rows, row.id)
    ensures RowsOk(rows[key := row], current, shown, givenUp)
  {
    hide Known;
  }

  lemma NamesStay(rows: Table, after: Table, sent: Sent, more: Sent, n: nat, id: nat)
    requires Names(rows, sent, n, id)
    requires forall key :: key in rows ==> key in after && after[key] == rows[key]
    requires forall m :: m in sent ==> m in more && more[m] == sent[m]
    ensures Names(after, more, n, id)
  {
  }

  /** Every answer and every success stays true when the table only grows. */
  lemma AnswersStay(rows: Table, after: Table, sent: Sent, responses: map<nat, Answer>, shown: seq<Success>,
                    n: nat, answer: Answer)
    requires AnswersOk(rows, sent, responses) && ShownOk(rows, sent, shown)
    requires forall key :: key in rows ==> key in after && after[key] == rows[key]
    requires answer.Created? ==> Names(after, sent, n, answer.id)
    ensures AnswersOk(after, sent, responses[n := answer]) && ShownOk(after, sent, shown)
  {
    hide SameNormal;
    forall m, id | Names(rows, sent, m, id) ensures Names(after, sent, m, id) {
      NamesStay(rows, after, sent, sent, m, id);
    }
    hide Names;
  }

  lemma ServeKeeps(w: World, n: nat, refuse: bool, id: nat)
    requires WorldOk(w) && n in w.requests && n in w.sent && UnusedId(w.rows, id)
    ensures WorldOk(Next(w, Serve(n, refuse, id)))
  {
    hide SameNormal, AnswerTo, AfterRequest, ShownUnder, Names, Trim, CleanNormal, AcceptsNormal;
    hide AnswersOk, ShownOk, UnusedId;
    var after := Next(w, Serve(n, refuse, id));
    ServeFacts(w.rows, w.sent, n, refuse, id);
    AnswersStay(w.rows, after.rows, w.sent, w.responses, w.shown, n, AnswerTo(w.rows, w.sent[n], refuse, id));
    if after.rows != w.rows {
      GrownRowsOk(w.rows, w.sent[n].createKey, Row(id, w.sent[n]), w.page.createKey, w.shown, w.givenUp);
    }
    hide RowsOk, Known, SentOk, PageOk, PendingOk;
  }

  lemma SubmitKeeps(w: World, form: NormalForm)
    requires WorldOk(w) && CanSubmit(w.page)
    ensures WorldOk(Next(w, Submit(form)))
  {
    hide SameNormal, ShownUnder, RowsOk, Trim;
    var after := Next(w, Submit(form));
    assert |w.sent| !in w.sent;
    forall m, id | Names(w.rows, w.sent, m, id) ensures Names(w.rows, after.sent, m, id) {
      NamesStay(w.rows, w.rows, w.sent, after.sent, m, id);
    }
    assert forall m, id :: Names(w.rows, w.sent, m, id) ==> m in w.sent && after.sent[m] == w.sent[m];
    hide Names;
  }

  lemma ShownGrows(shown: seq<Success>, s: Success)
    ensures forall k :: ShownUnder(shown + [s], k) <==> ShownUnder(shown, k) || k == s.key
    ensures !ShownUnder(shown, s.key) ==> forall i :: 0 <= i < |shown| ==> shown[i].key != s.key
  {
    var more := shown + [s];
    assert more[|shown|].key == s.key;
    assert forall i :: 0 <= i < |shown| ==> more[i] == shown[i];
  }

  /** The awaited success: the current key is finished now. */
  lemma SuccessKeeps(w: World, n: nat)
    requires WorldOk(w) && n in w.responses && w.responses[n].Created? && w.page.pending == Some(n)
    ensures WorldOk(Next(w, Deliver(n)))
  {
    hide Names, SameNormal, Trim, ShownUnder;
    var after := Next(w, Deliver(n));
    ShownGrows(w.shown, Success(w.responses[n].id, n, w.page.createKey));
    assert after.shown == w.shown + [Success(w.responses[n].id, n, w.page.createKey)];
    assert RowsOk(after.rows, after.page.createKey, after.shown, after.givenUp);
    hide RowsOk;
    assert SentOk(after.sent, after.page.createKey, after.shown, after.givenUp);
    hide SentOk, Known;
  }

  /** Everything that moves no key: losses, failures, refusals, late responses, and leaving. */
  lemma OthersKeep(w: World, e: Event)
    requires WorldOk(w) && Possible(w, e)
    requires e.LoseRequest? || e.LoseResponse? || e.Break? || e.Deliver? || e.Leave?
    requires e.Deliver? ==> w.responses[e.n].Refused? || w.page.pending != Some(e.n)
    ensures WorldOk(Next(w, e))
  {
    hide Names, SameNormal, ShownUnder, RowsOk, SentOk, ShownOk;
  }

  lemma ResetKeeps(w: World, key: string)
    requires WorldOk(w) && Possible(w, Reset(key))
    ensures WorldOk(Next(w, Reset(key)))
  {
    hide Names, SameNormal, ShownUnder, AnswersOk, ShownOk, FlightOk, Trim;
    var after := Next(w, Reset(key));
    assert forall k :: Known(k, w.page.createKey, w.shown, w.givenUp) ==>
        Known(k, after.page.createKey, w.shown, w.givenUp);
    hide Known;
  }

  /** A new form: a key is left only when it is finished or counted as given up. */
  lemma MountKeeps(w: World, key: string)
    requires WorldOk(w) && FreshKey(w, key)
    ensures WorldOk(Mount(w, key)) && WorldOk(Mount(w, key).(left := {}))
  {
    hide Names, SameNormal, ShownUnder, AnswersOk, ShownOk, FlightOk, Trim;
    var after := Mount(w, key);
    assert forall k :: Known(k, w.page.createKey, w.shown, w.givenUp) ==>
        Known(k, after.page.createKey, w.shown, after.givenUp);
    hide Known;
  }

  lemma StepKeeps(w: World, e: Event)
    requires WorldOk(w) && Possible(w, e)
    ensures WorldOk(Next(w, e))
  {
    hide WorldOk, Mount, AnswerTo, AfterRequest, Trim;
    match e
    case Submit(form) => SubmitKeeps(w, form);
    case Serve(n, refuse, id) => ServeKeeps(w, n, refuse, id);
    case Deliver(n) =>
      if w.responses[n].Created? && w.page.pending == Some(n) { SuccessKeeps(w, n); } else { OthersKeep(w, e); }
    case Reset(k) => ResetKeeps(w, k);
    case Return(k) => MountKeeps(w, k);
    case Reload(k) => if w.page.mounted { MountKeeps(w, k); } else { WithoutLeft(w); }
    case _ => OthersKeep(w, e);
  }

  lemma {:induction false} RunKeeps(key: string, events: seq<Event>)
    requires Trim(key) == key
    ensures WorldOk(Run(key, events))
  {
    if events != [] {
      var w, e := Run(key, events[..|events| - 1]), events[|events| - 1];
      RunKeeps(key, events[..|events| - 1]);
      assert !Possible(w, e) ==> Next(w, e) == w;
      hide WorldOk, Next, Possible;
      if Possible(w, e) { StepKeeps(w, e); }
    }
  }

  lemma WithoutLeft(w: World)
    requires WorldOk(w)
    ensures WorldOk(w.(left := {}))
  {
  }

  // ---------------------------------------------------------------- the theorems

  ghost function ShownKeys(shown: seq<Success>): set<string> {
    if shown == [] then {} else ShownKeys(shown[..|shown| - 1]) + {shown[|shown| - 1].key}
  }

  lemma {:induction false} ShownCount(shown: seq<Success>)
    ensures |ShownKeys(shown)| <= |shown|
    ensures forall key :: key in ShownKeys(shown) <==> ShownUnder(shown, key)
  {
    if shown != [] {
      ShownCount(shown[..|shown| - 1]);
      assert forall i :: 0 <= i < |shown| - 1 ==> shown[i] == shown[..|shown| - 1][i];
    }
  }

  lemma SubsetCount(s: set<string>, t: set<string>)
    requires s <= t
    ensures |s| <= |t|
  {
    assert t == s + (t - s);
  }

  /** Whatever is lost, delayed, retried, edited, reloaded or left, the tab creates at most one order
      more than it has shown or reported to forms already left. */
  lemma UnseenOrdersAreBounded(key: string, events: seq<Event>)
    requires Trim(key) == key
    ensures var w := Run(key, events); |w.rows| <= |w.shown| + 1 + |w.late|
  {
    RunKeeps(key, events);
    var w := Run(key, events);
    ShownCount(w.shown);
    SubsetCount(w.rows.Keys, ShownKeys(w.shown) + w.givenUp + {w.page.createKey});
    assert |w.rows| == |w.rows.Keys|;
  }

  /** The seller never navigates away from a form that waits for its response. */
  predicate Stays(key: string, events: seq<Event>) {
    forall i :: 0 <= i < |events| && events[i].Leave? ==> Run(key, events[..i]).page.pending.None?
  }

  lemma NoneLateStep(w: World, e: Event)
    requires w.late == [] && w.left == {} && (e.Leave? ==> w.page.pending.None?)
    ensures Next(w, e).late == [] && Next(w, e).left == {}
  {
    hide AnswerTo, AfterRequest, Trim, ShownUnder, UnusedId;
  }

  lemma {:induction false} StayingMeansNoneLate(key: string, events: seq<Event>)
    requires Stays(key, events)
    ensures Run(key, events).late == [] && Run(key, events).left == {}
  {
    if events != [] {
      var most := events[..|events| - 1];
      assert forall i :: 0 <= i < |most| ==> most[i] == events[i] && most[..i] == events[..i];
      StayingMeansNoneLate(key, most);
      hide Next;
      NoneLateStep(Run(key, most), events[|most|]);
    }
  }

  // ---------------------------------------------------------------- the bound is exact

  /** Keys and a payload the server would accept under each of them. */
  ghost predicate Usable(form: NormalForm, keys: seq<string>) {
    && keys != []
    && (forall i :: 0 <= i < |keys| ==>
          Trim(keys[i]) == keys[i] && AcceptsNormal(CleanNormal(form.(createKey := keys[i])), true))
    && (forall i, j :: 0 <= i < j < |keys| ==> keys[i] != keys[j])
  }

  /** Submit, leave before the response arrives, come back, and again. */
  function Trip(form: NormalForm, keys: seq<string>): seq<Event>
    requires keys != []
  {
    var m := |keys| - 1;
    if m == 0 then [Submit(form)] + [Serve(0, false, 0)]
    else Trip(form, keys[..m]) + [Leave] + [Deliver(m - 1)] + [Return(keys[m])] + [Submit(form)] + [Serve(m, false, m)]
  }

  /** The last request of the trip has been served, its response is on its way; every earlier
      response came late, and none was shown. */
  ghost predicate OnTrip(w: World, form: NormalForm, keys: seq<string>)
    requires keys != []
  {
    var m := |keys| - 1;
    && w.page == Page(keys[m], Some(keys[m]), Some(m), None, true)
    && (forall k :: k in w.drawn <==> k in keys)
    && (forall n: nat :: n in w.sent <==> n <= m) && |w.sent| == m + 1 && w.sent[m] == form.(createKey := keys[m])
    && w.requests == {} && w.responses == map[m := Created(m)] && w.left == {}
    && w.shown == [] && |w.late| == m
    && |w.rows| == m + 1 && (forall k :: k in w.rows ==> k in keys && w.rows[k].id <= m)
  }

  lemma FreshAnswer(rows: Table, form: NormalForm, id: nat)
    requires Trim(form.createKey) == form.createKey && form.createKey !in rows
    requires AcceptsNormal(CleanNormal(form), true)
    ensures AnswerTo(rows, form, false, id) == Created(id)
    ensures AfterRequest(rows, form, false, id) == rows[form.createKey := Row(id, form)]
  {
  }

  /** Sending the payload from a form just mounted, and serving it. */
  lemma TripSend(w: World, form: NormalForm, keys: seq<string>)
    requires Usable(form, keys)
    requires var m := |keys| - 1;
             && w.page == Mounted(None, keys[m]) && (forall k :: k in w.drawn <==> k in keys)
             && (forall n: nat :: n in w.sent <==> n < m) && |w.sent| == m
             && w.requests == {} && w.responses == map[] && w.left == {} && w.shown == [] && |w.late| == m
             && |w.rows| == m && (forall k :: k in w.rows ==> k in keys[..m] && w.rows[k].id < m)
    ensures OnTrip(Next(Next(w, Submit(form)), Serve(|keys| - 1, false, |keys| - 1)), form, keys)
  {
    var m := |keys| - 1;
    hide AnswerTo, AfterRequest, AcceptsNormal, CleanNormal, Trim;
    assert keys[m] !in w.rows;
    var body := form.(createKey := keys[m]);
    FreshAnswer(w.rows, body, m);
    var u := Next(w, Submit(form));
    assert u.sent == w.sent[m := body] && u.requests == {m};
    var v := Next(u, Serve(m, false, m));
    assert v.responses == map[m := Created(m)];
  }

  /** From one round to the next: away, the response too late, back under a new key. */
  lemma TripBack(w: World, form: NormalForm, keys: seq<string>)
    requires Usable(form, keys) && |keys| > 1 && OnTrip(w, form, keys[..|keys| - 1])
    ensures var m := |keys| - 1;
            var u := Next(Next(Next(w, Leave), Deliver(m - 1)), Return(keys[m]));
            && u.page == Mounted(None, keys[m]) && (forall k :: k in u.drawn <==> k in keys)
            && u.sent == w.sent && u.requests == {} && u.responses == map[] && u.left == {} && u.shown == []
            && |u.late| == m && u.rows == w.rows
  {
    hide AnswerTo, AfterRequest, AcceptsNormal, CleanNormal, Trim;
    var m := |keys| - 1;
    var a := Next(w, Leave);
    assert a.left == {m - 1} && a.responses == map[m - 1 := Created(m - 1)];
    var b := Next(a, Deliver(m - 1));
    assert b.page == Page(keys[m - 1], None, None, None, false) && b.late == w.late + [m - 1];
    assert keys[m] !in keys[..m];
    assert keys == keys[..m] + [keys[m]];
  }

  lemma FewerAreUsable(form: NormalForm, keys: seq<string>)
    requires Usable(form, keys) && |keys| > 1
    ensures Usable(form, keys[..|keys| - 1]) && keys[..|keys| - 1][0] == keys[0]
  {
    hide Trim, AcceptsNormal, CleanNormal;
  }

  lemma TripStarts(form: NormalForm, keys: seq<string>)
    requires Usable(form, keys) && |keys| == 1
    ensures OnTrip(Run(keys[0], Trip(form, keys)), form, keys)
  {
    TripSend(Start(keys[0]), form, keys);
    hide Next, Usable, OnTrip;
    RunSnoc(keys[0], [], Submit(form));
    RunSnoc(keys[0], [Submit(form)], Serve(0, false, 0));
    assert [] + [Submit(form)] == [Submit(form)];
  }

  lemma TripGoesOn(key: string, before: seq<Event>, form: NormalForm, keys: seq<string>)
    requires Usable(form, keys) && |keys| > 1 && OnTrip(Run(key, before), form, keys[..|keys| - 1])
    ensures var m := |keys| - 1;
            var back := before + [Leave] + [Deliver(m - 1)] + [Return(keys[m])];
            OnTrip(Run(key, back + [Submit(form)] + [Serve(m, false, m)]), form, keys)
  {
    var m := |keys| - 1;
    var w := Run(key, before);
    TripBack(w, form, keys);
    hide Next, Usable, Run;
    var back := before + [Leave] + [Deliver(m - 1)] + [Return(keys[m])];
    RunSnoc(key, before, Leave);
    RunSnoc(key, before + [Leave], Deliver(m - 1));
    RunSnoc(key, before + [Leave] + [Deliver(m - 1)], Return(keys[m]));
    TripSend(Run(key, back), form, keys);
    hide OnTrip;
    RunSnoc(key, back, Submit(form));
    RunSnoc(key, back + [Submit(form)], Serve(m, false, m));
  }

  lemma {:induction false} TripRuns(form: NormalForm, keys: seq<string>)
    requires Usable(form, keys)
    ensures OnTrip(Run(keys[0], Trip(form, keys)), form, keys)
  {
    if |keys| == 1 {
      TripStarts(form, keys);
    } else {
      FewerAreUsable(form, keys);
      TripRuns(form, keys[..|keys| - 1]);
      TripGoesOn(keys[0], Trip(form, keys[..|keys| - 1]), form, keys);
      hide OnTrip, Run, Usable;
    }
  }

  /** The bound is attained for every number of late responses: with any distinct keys the server
      accepts, all but the last response come late and one order each remains unseen. */
  lemma BoundIsAttained(form: NormalForm, keys: seq<string>)
    requires Usable(form, keys)
    ensures var w := Run(keys[0], Trip(form, keys));
            |w.late| == |keys| - 1 && |w.rows| == |w.shown| + 1 + |w.late| == |keys|
  {
    TripRuns(form, keys);
  }

  const SAMPLE: NormalForm := NormalForm("", 1, [Line(1, 1)], 1, None, "2030-01-01", "", "", "", "", 0)

  lemma SampleAccepted(key: string)
    requires key == "a" || key == "b"
    ensures Trim(key) == key && AcceptsNormal(CleanNormal(SAMPLE.(createKey := key)), true)
  {
    assert Trim(key) == key && Trim("") == "" && ByteLength(key) == 1 by {
      assert TrimLeft(key) == key && TrimRight(key) == key;
    }
    assert SortLines(SAMPLE.items) == SAMPLE.items by { assert SortLines([]) == []; }
    hide Trim, SortLines, ByteLength;
    var c := CleanNormal(SAMPLE.(createKey := key));
    assert c.createKey == key && c.salesChannel == "instagram" && c.items == [Line(1, 1)];
    assert c.conversationReference == "" && c.internalNote == "";
    hide CleanNormal;
  }

  lemma SampleIsUsable()
    ensures Usable(SAMPLE, ["a", "b"])
  {
    SampleAccepted("a");
    SampleAccepted("b");
    hide Trim, AcceptsNormal, CleanNormal;
    assert "a"[0] != "b"[0];
  }

  /** The concrete failure: one line, one product, two forms left too early. Two orders exist, none was shown. */
  lemma LeavingHidesTwoOrders()
    ensures var w := Run("a", Trip(SAMPLE, ["a", "b"])); |w.rows| == 2 && w.shown == []
  {
    SampleIsUsable();
    TripRuns(SAMPLE, ["a", "b"]);
  }

  /** At most one unseen order: guaranteed exactly when the page does not let the seller navigate away
      from a pending request. */
  lemma AtMostOneUnseenOrderIffHeld(held: bool)
    ensures (forall key, events :: Trim(key) == key && (held ==> Stays(key, events)) ==>
               |Run(key, events).rows| <= |Run(key, events).shown| + 1)
            <==> held
  {
    if held {
      forall key, events | Trim(key) == key && Stays(key, events)
        ensures |Run(key, events).rows| <= |Run(key, events).shown| + 1
      {
        UnseenOrdersAreBounded(key, events);
        StayingMeansNoneLate(key, events);
      }
    } else {
      LeavingHidesTwoOrders();
      assert Trim("a") == "a";
    }
  }

  // ---------------------------------------------------------------- what the seller is shown

  /** Two successes never name the same order. */
  lemma SuccessesNameDistinctOrders(key: string, events: seq<Event>, i: nat, j: nat)
    requires Trim(key) == key && i < j < |Run(key, events).shown|
    ensures Run(key, events).shown[i].id != Run(key, events).shown[j].id
  {
    RunKeeps(key, events);
    var w := Run(key, events);
    assert w.shown[i].key != w.shown[j].key;
    assert Names(w.rows, w.sent, w.shown[i].request, w.shown[i].id);
    assert Names(w.rows, w.sent, w.shown[j].request, w.shown[j].id);
  }

  /** Each order shown was created from the payload that was sent when it was shown. */
  lemma ShownOrdersMatchTheirPayload(key: string, events: seq<Event>, i: nat)
    requires Trim(key) == key && i < |Run(key, events).shown|
    ensures var w := Run(key, events);
            var s := w.shown[i];
            && s.request in w.sent
            && exists k :: k in w.rows && w.rows[k].id == s.id && w.sent[s.request].createKey == k
                           && SameNormal(w.rows[k].form, w.sent[s.request])
  {
    RunKeeps(key, events);
    var w := Run(key, events);
    assert Names(w.rows, w.sent, w.shown[i].request, w.shown[i].id);
  }

  /** The unseen order of the form's key is found again by submitting its payload once more: the
      server answers with that very order and creates nothing; any other payload is refused. */
  lemma RetryFindsTheUnseenOrder(key: string, events: seq<Event>, form: NormalForm, id: nat)
    requires Trim(key) == key && Run(key, events).page.createKey in Run(key, events).rows
    requires AcceptsNormal(CleanNormal(form.(createKey := Run(key, events).page.createKey)), true)
    ensures var w := Run(key, events);
            var body := form.(createKey := w.page.createKey);
            var row := w.rows[w.page.createKey];
            && AfterRequest(w.rows, body, false, id) == w.rows
            && AnswerTo(w.rows, body, false, id) == if SameNormal(row.form, body) then Created(row.id) else Refused
  {
    RunKeeps(key, events);
    var w := Run(key, events);
    var body := form.(createKey := w.page.createKey);
    AcceptedItemsDistinct(body, true);
    assert CleanNormal(body).createKey == w.page.createKey;
    NormalFingerprintIff(body, w.rows[w.page.createKey].form);
  }

  lemma RunSnoc(key: string, events: seq<Event>, e: Event)
    ensures Run(key, events + [e]) == Next(Run(key, events), e)
  {
    assert (events + [e])[..|events|] == events;
  }
}
