/** Pilot events sent by browsers and page views: deduplicated by key, and failures capped.
    Handlers run one at a time; times are in microseconds, the resolution of the table. */
module PilotEvents {
  import opened Wrappers
  import opened Text

  type Time = int

  const VIEW_WINDOW: Time := 30 * 60 * 1_000_000
  const MAX_FAILURES: nat := 20

  datatype Name =
    | AdminOrderListViewed | AdminOrderViewed | PublicOrderOpened | CustomerStatusViewed
    | CustomerFormStarted | CustomerSubmissionFailed

  predicate IsView(name: Name) {
    name.AdminOrderListViewed? || name.AdminOrderViewed? || name.PublicOrderOpened? || name.CustomerStatusViewed?
  }

  /** Whom an event is about; the ids that enter a view's key. */
  datatype Subject = OfOrder(order: nat) | OfOrderSeenBy(order: nat, admin: nat) | OfShopSeenBy(admin: nat, shop: nat)

  /** Event keys before hashing. */
  datatype Key =
    | ViewKey(name: Name, bucket: int, subject: Subject)
    | FormKey(name: Name, token: string)
    | FailureKey(token: string, eventKey: string)

  datatype Row = Row(name: Name, subject: Subject, key: Key, at: Time)

  /** now.Truncate: thirty-minute buckets. */
  function Bucket(now: Time): int { now / VIEW_WINDOW }

  predicate Recorded(rows: seq<Row>, name: Name, key: Key) {
    exists i :: 0 <= i < |rows| && rows[i].name == name && rows[i].key == key
  }

  /** Insert, doing nothing when the unique index on name and key objects. */
  function Record(rows: seq<Row>, r: Row): seq<Row> {
    if Recorded(rows, r.name, r.key) then rows else rows + [r]
  }

  function ViewRow(name: Name, subject: Subject, now: Time): Row {
    Row(name, subject, ViewKey(name, Bucket(now), subject), now)
  }

  /** Rows of one event name and order created at or after a time. */
  function CountSince(rows: seq<Row>, name: Name, order: nat, since: Time): nat {
    if rows == [] then 0
    else
      var last := rows[|rows| - 1];
      CountSince(rows[..|rows| - 1], name, order, since)
      + (if last.name == name && last.subject == OfOrder(order) && last.at >= since then 1 else 0)
  }

  // ---------------------------------------------------------------- the public endpoint

  /** The order behind the link, if the link leads to one. */
  datatype Target = Target(order: nat, token: string, formOpen: bool)

  datatype Input = Input(eventName: string, eventKey: string, reason: string)

  datatype Answer = NoContent | BadRequest | NotFound | Conflict

  const REASONS: set<string> := {"client_validation", "conflict", "request", "network", "server"}

  predicate ReasonOk(input: Input) {
    input.reason in REASONS && input.eventKey != "" && ByteLength(input.eventKey) <= 100
  }

  function PublicAnswer(input: Input, target: Option<Target>): Answer {
    if input.eventName != "customer_form_started" && input.eventName != "customer_submission_failed" then BadRequest
    else match target
      case None => NotFound
      case Some(t) =>
        if input.eventName == "customer_form_started" then (if t.formOpen then NoContent else Conflict)
        else if ReasonOk(input) then NoContent else BadRequest
  }

  function AfterPublic(rows: seq<Row>, input: Input, target: Option<Target>, now: Time): seq<Row> {
    if PublicAnswer(input, target) != NoContent || target.None? then rows
    else
      var t := target.value;
      if input.eventName == "customer_form_started" then
        Record(rows, Row(CustomerFormStarted, OfOrder(t.order), FormKey(CustomerFormStarted, t.token), now))
      else if CountSince(rows, CustomerSubmissionFailed, t.order, now - VIEW_WINDOW) >= MAX_FAILURES then rows
      else Record(rows, Row(CustomerSubmissionFailed, OfOrder(t.order), FailureKey(t.token, input.eventKey), now))
  }

  class PilotLog {
    var rows: seq<Row>

    /** Rows are distinct by name and key, and views carry the key of their own columns. */
    ghost predicate Valid()
      reads this
    {
      Indexed(rows)
    }

    constructor ()
      ensures Valid() && rows == []
    {
      rows := [];
    }

    method Insert(r: Row)
      modifies this
      ensures rows == Record(old(rows), r)
    {
      if !Recorded(rows, r.name, r.key) {
        rows := rows + [r];
      }
    }

    /** Afterwards the bucket has exactly one row of this view, and no other row came or went. */
    method ObserveView(name: Name, subject: Subject, now: Time)
      requires Valid() && IsView(name)
      modifies this
      ensures Valid() && CountKey(rows, name, ViewKey(name, Bucket(now), subject)) == 1
      ensures rows == old(rows) || rows == old(rows) + [ViewRow(name, subject, now)]
      ensures rows == Record(old(rows), ViewRow(name, subject, now))
    {
      RecordKeepsIndex(rows, ViewRow(name, subject, now));
      RecordedAfter(rows, ViewRow(name, subject, now), name, ViewKey(name, Bucket(now), subject));
      KeyAtMostOnce(Record(rows, ViewRow(name, subject, now)), name, ViewKey(name, Bucket(now), subject));
      Insert(Row(name, subject, ViewKey(name, Bucket(now), subject), now));
    }

    /** No interval that held at most twenty failures of an order holds more afterwards. */
    method RecordPublic(input: Input, target: Option<Target>, now: Time) returns (answer: Answer)
      requires Valid()
      modifies this
      ensures Valid() && forall order, from :: Capped(old(rows), order, from) ==> Capped(rows, order, from)
      ensures answer != NoContent ==> rows == old(rows)
      ensures answer == PublicAnswer(input, target)
      ensures rows == AfterPublic(old(rows), input, target, now)
    {
      PublicKeeps(rows, input, target, now);
      if input.eventName != "customer_form_started" && input.eventName != "customer_submission_failed" {
        return BadRequest;
      }
      if target.None? {
        return NotFound;
      }
      var order := target.value;
      if input.eventName == "customer_form_started" && !order.formOpen {
        return Conflict;
      }
      var event := Row(CustomerFormStarted, OfOrder(order.order), FormKey(CustomerFormStarted, order.token), now);
      if input.eventName == "customer_submission_failed" {
        if input.reason !in REASONS || input.eventKey == "" || ByteLength(input.eventKey) > 100 {
          return BadRequest;
        }
        event := Row(CustomerSubmissionFailed, OfOrder(order.order), FailureKey(order.token, input.eventKey), now);
        var recentFailures := CountSince(rows, CustomerSubmissionFailed, order.order, now - VIEW_WINDOW);
        if recentFailures >= MAX_FAILURES {
          return NoContent;
        }
      }
      Insert(event);
      return NoContent;
    }
  }

  // ---------------------------------------------------------------- runs

  datatype Call =
    | View(name: Name, subject: Subject, now: Time)
    | Public(input: Input, target: Option<Target>, now: Time)

  predicate CallOk(c: Call) { c.View? ==> IsView(c.name) }

  predicate AllOk(calls: seq<Call>) { forall i :: 0 <= i < |calls| ==> CallOk(calls[i]) }

  function After(rows: seq<Row>, c: Call): seq<Row> {
    match c
    case View(name, subject, now) => Record(rows, ViewRow(name, subject, now))
    case Public(input, target, now) => AfterPublic(rows, input, target, now)
  }

  function Run(calls: seq<Call>): seq<Row> {
    if calls == [] then [] else After(Run(calls[..|calls| - 1]), calls[|calls| - 1])
  }

  /** The public endpoint inserts at most one row, and never a view. */
  lemma PublicStep(rows: seq<Row>, input: Input, target: Option<Target>, now: Time) returns (r: Row)
    ensures !IsView(r.name)
    ensures AfterPublic(rows, input, target, now) == rows || AfterPublic(rows, input, target, now) == Record(rows, r)
  {
    var t := target.GetOr(Target(0, "", false));
    r := if input.eventName == "customer_form_started"
         then Row(CustomerFormStarted, OfOrder(t.order), FormKey(CustomerFormStarted, t.token), now)
         else Row(CustomerSubmissionFailed, OfOrder(t.order), FailureKey(t.token, input.eventKey), now);
  }

  // ---------------------------------------------------------------- the failure cap

  /** Rows of one event name and order created in the closed interval [from, to]. */
  function CountIn(rows: seq<Row>, name: Name, order: nat, from: Time, to: Time): nat {
    if rows == [] then 0
    else
      var last := rows[|rows| - 1];
      CountIn(rows[..|rows| - 1], name, order, from, to)
      + (if last.name == name && last.subject == OfOrder(order) && from <= last.at <= to then 1 else 0)
  }

  lemma CountSnoc(rows: seq<Row>, r: Row, name: Name, order: nat, from: Time, to: Time)
    ensures CountIn(rows + [r], name, order, from, to)
            == CountIn(rows, name, order, from, to)
               + (if r.name == name && r.subject == OfOrder(order) && from <= r.at <= to then 1 else 0)
  {
    assert (rows + [r])[..|rows|] == rows;
  }

  lemma {:induction false} FewerWithin(rows: seq<Row>, name: Name, order: nat, since: Time, from: Time, to: Time)
    requires since <= from
    ensures CountIn(rows, name, order, from, to) <= CountSince(rows, name, order, since)
  {
    if rows != [] {
      FewerWithin(rows[..|rows| - 1], name, order, since, from, to);
    }
  }

  predicate Capped(rows: seq<Row>, order: nat, from: Time) {
    CountIn(rows, CustomerSubmissionFailed, order, from, from + VIEW_WINDOW) <= MAX_FAILURES
  }

  lemma AppendKeepsCap(rows: seq<Row>, r: Row, order: nat, from: Time)
    requires Capped(rows, order, from)
    requires r.name.CustomerSubmissionFailed? && r.subject == OfOrder(order) ==>
               CountSince(rows, CustomerSubmissionFailed, order, r.at - VIEW_WINDOW) < MAX_FAILURES
    ensures Capped(Record(rows, r), order, from)
  {
    CountSnoc(rows, r, CustomerSubmissionFailed, order, from, from + VIEW_WINDOW);
    if r.name.CustomerSubmissionFailed? && r.subject == OfOrder(order) && r.at <= from + VIEW_WINDOW {
      FewerWithin(rows, CustomerSubmissionFailed, order, r.at - VIEW_WINDOW, from, from + VIEW_WINDOW);
    }
  }

  lemma PublicKeepsCap(rows: seq<Row>, input: Input, target: Option<Target>, now: Time, order: nat, from: Time)
    requires Capped(rows, order, from)
    ensures Capped(AfterPublic(rows, input, target, now), order, from)
  {
    var t := target.GetOr(Target(0, "", false));
    if AfterPublic(rows, input, target, now) == rows {
    } else if input.eventName == "customer_form_started" {
      var started := Row(CustomerFormStarted, OfOrder(t.order), FormKey(CustomerFormStarted, t.token), now);
      AppendKeepsCap(rows, started, order, from);
    } else {
      var failure := Row(CustomerSubmissionFailed, OfOrder(t.order), FailureKey(t.token, input.eventKey), now);
      AppendKeepsCap(rows, failure, order, from);
    }
  }

  lemma PublicKeeps(rows: seq<Row>, input: Input, target: Option<Target>, now: Time)
    requires Indexed(rows)
    ensures Indexed(AfterPublic(rows, input, target, now))
    ensures forall order, from :: Capped(rows, order, from) ==>
            Capped(AfterPublic(rows, input, target, now), order, from)
  {
    var r := PublicStep(rows, input, target, now);
    RecordKeepsIndex(rows, r);
    forall order, from | Capped(rows, order, from) ensures Capped(AfterPublic(rows, input, target, now), order, from) {
      PublicKeepsCap(rows, input, target, now, order, from);
    }
  }

  /** In every run, any closed thirty minutes hold at most twenty failure rows of one order. The
      guard counts every row since a cutoff no later than the interval's start, so the bound needs
      no assumption on the clock. */
  lemma {:induction false} FailuresAreCapped(calls: seq<Call>, order: nat, from: Time)
    requires AllOk(calls)
    ensures Capped(Run(calls), order, from)
  {
    if calls != [] {
      var before, c := calls[..|calls| - 1], calls[|calls| - 1];
      FailuresAreCapped(before, order, from);
      var rows := Run(before);
      match c
      case View(name, subject, now) =>
        AppendKeepsCap(rows, ViewRow(name, subject, now), order, from);
      case Public(input, target, now) =>
        PublicKeepsCap(rows, input, target, now, order, from);
    }
  }

  /** The failure rows of an order at or after a time, by their positions. */
  function FailuresSince(rows: seq<Row>, order: nat, since: Time): set<int> {
    set i | 0 <= i < |rows| && rows[i].name == CustomerSubmissionFailed && rows[i].subject == OfOrder(order)
            && rows[i].at >= since
  }

  lemma {:induction false} CountSinceIsSize(rows: seq<Row>, order: nat, since: Time)
    ensures CountSince(rows, CustomerSubmissionFailed, order, since) == |FailuresSince(rows, order, since)|
  {
    if rows != [] {
      var n := |rows| - 1;
      CountSinceIsSize(rows[..n], order, since);
      var r := rows[n];
      assert FailuresSince(rows, order, since) == FailuresSince(rows[..n], order, since)
          + (if r.name == CustomerSubmissionFailed && r.subject == OfOrder(order) && r.at >= since then {n} else {});
    }
  }

  predicate KnownReason(reason: string) {
    reason == "client_validation" || reason == "conflict" || reason == "request" || reason == "network"
    || reason == "server"
  }

  /** A report is stored exactly when it is the form's first opening while the form is open, or a failure
      with a known reason and a key not used before, of an order with fewer than twenty of them in the
      last thirty minutes. */
  lemma PublicStoresIff(rows: seq<Row>, input: Input, target: Option<Target>, now: Time)
    ensures var after := AfterPublic(rows, input, target, now);
            if target.None? then after == rows
            else
              var Target(order, token, formOpen) := target.value;
              var started := Row(CustomerFormStarted, OfOrder(order), FormKey(CustomerFormStarted, token), now);
              var failed := Row(CustomerSubmissionFailed, OfOrder(order), FailureKey(token, input.eventKey), now);
              if input.eventName == "customer_form_started" && formOpen && !Recorded(rows, started.name, started.key)
              then after == rows + [started]
              else if input.eventName == "customer_submission_failed" && KnownReason(input.reason)
                      && 1 <= ByteLength(input.eventKey) <= 100 && !Recorded(rows, failed.name, failed.key)
                      && |FailuresSince(rows, order, now - 30 * 60 * 1_000_000)| < 20
              then after == rows + [failed]
              else after == rows
  {
    if target.Some? { CountSinceIsSize(rows, target.value.order, now - VIEW_WINDOW); }
    assert ByteLength(input.eventKey) == 0 <==> input.eventKey == "";
    hide CountSince, FailuresSince, ByteLength, Recorded;
  }

  /** 404 for a link that leads nowhere, 409 for a form opened after it closed, 400 for anything but the
      two known events in their proper form, and 204 otherwise, whether or not a row was stored. */
  lemma PublicIsAnswered(input: Input, target: Option<Target>)
    ensures var known := input.eventName == "customer_form_started" || input.eventName == "customer_submission_failed";
            var started := input.eventName == "customer_form_started";
            var answer := PublicAnswer(input, target);
            && (answer == NotFound <==> known && target.None?)
            && (answer == Conflict <==> started && target.Some? && !target.value.formOpen)
            && (answer == BadRequest <==>
                  || !known
                  || (!started && target.Some?
                      && !(KnownReason(input.reason) && 1 <= ByteLength(input.eventKey) <= 100)))
  {
    assert ByteLength(input.eventKey) == 0 <==> input.eventKey == "";
    hide ByteLength;
  }

  // ---------------------------------------------------------------- views

  /** Rows are distinct by name and key, and a view's key is made of its own columns. */
  predicate Indexed(rows: seq<Row>) {
    && (forall i, j :: 0 <= i < j < |rows| ==> !(rows[i].name == rows[j].name && rows[i].key == rows[j].key))
    && (forall i :: 0 <= i < |rows| && IsView(rows[i].name) ==>
          rows[i].key == ViewKey(rows[i].name, Bucket(rows[i].at), rows[i].subject))
  }

  lemma RecordKeepsIndex(rows: seq<Row>, r: Row)
    requires Indexed(rows) && (IsView(r.name) ==> r.key == ViewKey(r.name, Bucket(r.at), r.subject))
    ensures Indexed(Record(rows, r))
  {
  }

  lemma {:induction false} RunIndexed(calls: seq<Call>)
    requires AllOk(calls)
    ensures Indexed(Run(calls))
  {
    if calls != [] {
      var before, c := calls[..|calls| - 1], calls[|calls| - 1];
      RunIndexed(before);
      if c.View? {
        RecordKeepsIndex(Run(before), ViewRow(c.name, c.subject, c.now));
      } else {
        var r := PublicStep(Run(before), c.input, c.target, c.now);
        RecordKeepsIndex(Run(before), r);
      }
    }
  }

  function CountViews(rows: seq<Row>, name: Name, subject: Subject, from: Time, to: Time): nat {
    if rows == [] then 0
    else
      var last := rows[|rows| - 1];
      CountViews(rows[..|rows| - 1], name, subject, from, to)
      + (if last.name == name && last.subject == subject && from <= last.at <= to then 1 else 0)
  }

  function CountKey(rows: seq<Row>, name: Name, key: Key): nat {
    if rows == [] then 0
    else
      var last := rows[|rows| - 1];
      CountKey(rows[..|rows| - 1], name, key) + (if last.name == name && last.key == key then 1 else 0)
  }

  lemma {:induction false} KeyAtMostOnce(rows: seq<Row>, name: Name, key: Key)
    requires Indexed(rows)
    ensures CountKey(rows, name, key) <= 1
    ensures CountKey(rows, name, key) == 0 <==> !Recorded(rows, name, key)
  {
    if rows != [] {
      KeyAtMostOnce(rows[..|rows| - 1], name, key);
    }
  }

  lemma TwoBuckets(from: Time, at: Time)
    requires from <= at <= from + VIEW_WINDOW
    ensures Bucket(at) == Bucket(from) || Bucket(at) == Bucket(from) + 1
  {
  }

  lemma {:induction false} ViewsByBucket(rows: seq<Row>, name: Name, subject: Subject, from: Time)
    requires Indexed(rows) && IsView(name)
    ensures CountViews(rows, name, subject, from, from + VIEW_WINDOW)
            <= CountKey(rows, name, ViewKey(name, Bucket(from), subject))
               + CountKey(rows, name, ViewKey(name, Bucket(from) + 1, subject))
  {
    if rows != [] {
      ViewsByBucket(rows[..|rows| - 1], name, subject, from);
      var last := rows[|rows| - 1];
      if from <= last.at <= from + VIEW_WINDOW {
        TwoBuckets(from, last.at);
      }
    }
  }

  /** Two views share a bucket exactly when they fall into the same half hour of the clock. */
  lemma SameBucketIff(a: Time, b: Time)
    ensures Bucket(a) == Bucket(b) <==>
              exists k: int :: && k * 1_800_000_000 <= a < (k + 1) * 1_800_000_000
                               && k * 1_800_000_000 <= b < (k + 1) * 1_800_000_000
  {
    var k := Bucket(a);
    assert k * 1_800_000_000 <= a < (k + 1) * 1_800_000_000;
  }

  /** Any closed thirty minutes hold at most two rows of one view by one subject. */
  lemma ViewsAreThinned(calls: seq<Call>, name: Name, subject: Subject, from: Time)
    requires AllOk(calls) && IsView(name)
    ensures CountViews(Run(calls), name, subject, from, from + VIEW_WINDOW) <= 2
  {
    RunIndexed(calls);
    ViewsByBucket(Run(calls), name, subject, from);
    KeyAtMostOnce(Run(calls), name, ViewKey(name, Bucket(from), subject));
    KeyAtMostOnce(Run(calls), name, ViewKey(name, Bucket(from) + 1, subject));
  }

  lemma RecordedAfter(rows: seq<Row>, r: Row, name: Name, key: Key)
    ensures Recorded(Record(rows, r), name, key) <==> Recorded(rows, name, key) || (r.name == name && r.key == key)
  {
    var after := Record(rows, r);
    assert forall i :: 0 <= i < |rows| ==> after[i] == rows[i];
    if after != rows {
      assert after[|rows|] == r;
    }
  }

  predicate Seen(calls: seq<Call>, name: Name, subject: Subject, bucket: int) {
    exists i :: 0 <= i < |calls| && calls[i].View? && calls[i].name == name && calls[i].subject == subject
                && Bucket(calls[i].now) == bucket
  }

  /** Thinning loses no bucket: a bucket has a row exactly when it had a view. */
  lemma {:induction false} BucketsAreExact(calls: seq<Call>, name: Name, subject: Subject, bucket: int)
    requires AllOk(calls) && IsView(name)
    ensures Recorded(Run(calls), name, ViewKey(name, bucket, subject)) <==> Seen(calls, name, subject, bucket)
  {
    if calls != [] {
      var before, c := calls[..|calls| - 1], calls[|calls| - 1];
      BucketsAreExact(before, name, subject, bucket);
      assert forall i :: 0 <= i < |before| ==> before[i] == calls[i];
      if c.View? {
        RecordedAfter(Run(before), ViewRow(c.name, c.subject, c.now), name, ViewKey(name, bucket, subject));
      } else {
        var r := PublicStep(Run(before), c.input, c.target, c.now);
        hide AfterPublic, Record;
        RecordedAfter(Run(before), r, name, ViewKey(name, bucket, subject));
      }
    }
  }
}
