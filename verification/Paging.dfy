/** The paged order list: the server's four sort orders and its pages, and the browser that shows
    them while queries change and responses arrive in any order. The table is fixed. */
module Paging {
  import opened Wrappers
  import opened Customers

  type Time = int

  /** The columns a list is filtered and sorted by; due is the delivery date as a day number. */
  datatype Row = Row(id: int, status: Status, due: int, created: Time, updated: Time, amount: int)

  datatype View = Active | Archive | All

  datatype Sort = Due | Updated | ByAmount | Recent

  /** A resolved query; found holds the ids the search condition matches, if there is a search. */
  datatype Query = Query(view: View, status: Option<Status>, sort: Sort, found: Option<set<int>>)

  const PAGE: nat := 20

  // ---------------------------------------------------------------- the sort orders

  predicate Archived(r: Row) { r.status == Shipped || r.status == Cancelled }

  /** The ORDER BY columns, descending ones negated. */
  function SortKey(sort: Sort, r: Row): (k: seq<int>)
    ensures |k| > 0 && k[|k| - 1] == -r.id
  {
    match sort
    case Due => [if Archived(r) then 1 else 0, r.due, -r.created, -r.id]
    case Updated => [-r.updated, -r.id]
    case ByAmount => [-r.amount, -r.created, -r.id]
    case Recent => [-r.created, -r.id]
  }

  predicate LexLess(a: seq<int>, b: seq<int>) {
    a != [] && b != [] && (a[0] < b[0] || (a[0] == b[0] && LexLess(a[1..], b[1..])))
  }

  predicate Before(sort: Sort, a: Row, b: Row) {
    LexLess(SortKey(sort, a), SortKey(sort, b))
  }

  lemma {:induction false} LexTransitive(a: seq<int>, b: seq<int>, c: seq<int>)
    requires LexLess(a, b) && LexLess(b, c)
    ensures LexLess(a, c)
  {
    if a[0] == b[0] == c[0] {
      LexTransitive(a[1..], b[1..], c[1..]);
    }
  }

  lemma {:induction false} LexIrreflexive(a: seq<int>)
    ensures !LexLess(a, a)
  {
    if a != [] {
      LexIrreflexive(a[1..]);
    }
  }

  lemma {:induction false} LexTotal(a: seq<int>, b: seq<int>)
    requires |a| == |b| && a != b
    ensures LexLess(a, b) || LexLess(b, a)
  {
    if a[0] == b[0] {
      assert a == [a[0]] + a[1..] && b == [b[0]] + b[1..];
      LexTotal(a[1..], b[1..]);
    }
  }

  /** Each sort order is a strict total order on rows with distinct ids. */
  lemma SortIsStrictTotal(sort: Sort, a: Row, b: Row, c: Row)
    ensures !Before(sort, a, a)
    ensures Before(sort, a, b) && Before(sort, b, c) ==> Before(sort, a, c)
    ensures a.id != b.id ==> (Before(sort, a, b) <==> !Before(sort, b, a))
  {
    var x, y, z := SortKey(sort, a), SortKey(sort, b), SortKey(sort, c);
    LexIrreflexive(x);
    if Before(sort, a, b) && Before(sort, b, c) { LexTransitive(x, y, z); }
    if a.id != b.id {
      LexTotal(x, y);
      if Before(sort, a, b) && Before(sort, b, a) { LexTransitive(x, y, x); }
    }
  }

  // ---------------------------------------------------------------- the list behind a query

  predicate Matches(q: Query, r: Row) {
    && (match q.view case Active => !Archived(r) case Archive => Archived(r) case All => true)
    && (q.status.Some? ==> r.status == q.status.value)
    && (q.found.Some? ==> r.id in q.found.value)
  }

  predicate DistinctIds(table: seq<Row>) {
    forall i, j :: 0 <= i < j < |table| ==> table[i].id != table[j].id
  }

  predicate Ordered(sort: Sort, list: seq<Row>) {
    forall i, j :: 0 <= i < j < |list| ==> Before(sort, list[i], list[j])
  }

  /** The result set of a query: the matching rows, each once, in order. */
  ghost predicate IsListing(table: seq<Row>, q: Query, list: seq<Row>) {
    && Ordered(q.sort, list)
    && (forall r :: r in list <==> r in table && Matches(q, r))
  }

  function Place(sort: Sort, r: Row, list: seq<Row>): seq<Row> {
    if list == [] || Before(sort, r, list[0]) then [r] + list else [list[0]] + Place(sort, r, list[1..])
  }

  function Listing(table: seq<Row>, q: Query): seq<Row> {
    if table == [] then []
    else if Matches(q, table[0]) then Place(q.sort, table[0], Listing(table[1..], q))
    else Listing(table[1..], q)
  }

  lemma {:induction false} PlaceFacts(sort: Sort, r: Row, list: seq<Row>)
    requires Ordered(sort, list) && forall x :: x in list ==> x.id != r.id
    ensures Ordered(sort, Place(sort, r, list))
    ensures forall x :: x in Place(sort, r, list) <==> x == r || x in list
  {
    var placed := Place(sort, r, list);
    if list == [] {
    } else if Before(sort, r, list[0]) {
      forall i | 0 <= i < |list| ensures Before(sort, r, list[i]) {
        SortIsStrictTotal(sort, r, list[0], list[i]);
      }
    } else {
      PlaceFacts(sort, r, list[1..]);
      SortIsStrictTotal(sort, list[0], r, r);
      var rest := Place(sort, r, list[1..]);
      forall i | 0 <= i < |rest| ensures Before(sort, list[0], rest[i]) {
        assert rest[i] in rest;
      }
    }
  }

  lemma {:induction false} ListingIsListing(table: seq<Row>, q: Query)
    requires DistinctIds(table)
    ensures IsListing(table, q, Listing(table, q))
  {
    if table != [] {
      var rest := Listing(table[1..], q);
      ListingIsListing(table[1..], q);
      forall x | x in rest ensures x.id != table[0].id {
        assert x in table[1..];
      }
      assert forall x :: x in table <==> x == table[0] || x in table[1..];
      if Matches(q, table[0]) {
        PlaceFacts(q.sort, table[0], rest);
      }
    }
  }

  lemma OrderedTail(sort: Sort, list: seq<Row>)
    requires list != [] && Ordered(sort, list)
    ensures Ordered(sort, list[1..]) && forall x :: x in list[1..] <==> x in list && x != list[0]
  {
    SortIsStrictTotal(sort, list[0], list[0], list[0]);
    assert forall x :: x in list[1..] ==> Before(sort, list[0], x);
    assert forall x :: x in list <==> x == list[0] || x in list[1..];
  }

  lemma {:induction false} OrderedUnique(sort: Sort, a: seq<Row>, b: seq<Row>)
    requires Ordered(sort, a) && Ordered(sort, b) && forall x :: x in a <==> x in b
    ensures a == b
  {
    assert a != [] ==> a[0] in b;
    assert b != [] ==> b[0] in a;
    if a != [] {
      if a[0] != b[0] {
        assert Before(sort, a[0], b[0]) && Before(sort, b[0], a[0]);
        SortIsStrictTotal(sort, a[0], b[0], a[0]);
        assert false;
      }
      OrderedTail(sort, a);
      OrderedTail(sort, b);
      OrderedUnique(sort, a[1..], b[1..]);
      assert a == [a[0]] + a[1..] && b == [b[0]] + b[1..];
    }
  }

  /** A query has exactly one result list, whatever order the table is read in. */
  lemma ListingIsUnique(table: seq<Row>, q: Query, list: seq<Row>)
    requires DistinctIds(table)
    ensures IsListing(table, q, list) <==> list == Listing(table, q)
  {
    ListingIsListing(table, q);
    if IsListing(table, q, list) {
      OrderedUnique(q.sort, list, Listing(table, q));
    }
  }

  /** Which rows a list holds: of the active view those neither shipped nor cancelled, of the archive the
      others; with a status filter only that status, with a search only the orders it found. */
  lemma ListingHolds(table: seq<Row>, q: Query, r: Row)
    requires DistinctIds(table)
    ensures r in Listing(table, q) <==>
              && r in table
              && (q.view == Active ==> r.status != Shipped && r.status != Cancelled)
              && (q.view == Archive ==> r.status == Shipped || r.status == Cancelled)
              && (q.status != None ==> q.status == Some(r.status))
              && (q.found != None ==> r.id in q.found.value)
  {
    ListingIsListing(table, q);
  }

  /** A row stands before another in a list only if the sort says so: by delivery date with the archived
      ones last, or by change, amount or creation with the greatest first; ties by creation, then id. */
  lemma ListingIsSorted(table: seq<Row>, q: Query, i: nat, j: nat)
    requires DistinctIds(table) && i < j < |Listing(table, q)|
    ensures var a, b := Listing(table, q)[i], Listing(table, q)[j];
            var newer := a.created > b.created || (a.created == b.created && a.id > b.id);
            match q.sort
            case Due =>
              var closed := {Shipped, Cancelled};
              || (a.status !in closed && b.status in closed)
              || ((a.status in closed <==> b.status in closed) && (a.due < b.due || (a.due == b.due && newer)))
            case Updated => a.updated > b.updated || (a.updated == b.updated && a.id > b.id)
            case ByAmount => a.amount > b.amount || (a.amount == b.amount && newer)
            case Recent => newer
  {
    ListingIsListing(table, q);
    var a, b := Listing(table, q)[i], Listing(table, q)[j];
    assert Before(q.sort, a, b);
    hide Listing, Ordered, Matches;
    var x, y := SortKey(q.sort, a), SortKey(q.sort, b);
    LexUnfolds(x, y);
    var k :| 0 <= k < |x| && x[..k] == y[..k] && x[k] < y[k];
    assert forall m :: 0 <= m < k ==> x[m] == x[..k][m] == y[..k][m] == y[m];
    assert (k > 0 ==> x[0] == y[0]) && (k > 1 ==> x[1] == y[1]) && (k > 2 ==> x[2] == y[2]);
    hide LexLess;
    match q.sort { case Due => case Updated => case ByAmount => case Recent => }
  }

  /** The first column in which two keys differ decides. */
  lemma {:induction false} LexUnfolds(x: seq<int>, y: seq<int>)
    requires LexLess(x, y) && |x| == |y|
    ensures exists k :: 0 <= k < |x| && x[..k] == y[..k] && x[k] < y[k]
  {
    if x[0] < y[0] {
      assert x[..0] == y[..0];
    } else {
      LexUnfolds(x[1..], y[1..]);
      var k :| 0 <= k < |x| - 1 && x[1..][..k] == y[1..][..k] && x[1..][k] < y[1..][k];
      assert x[..k + 1] == [x[0]] + x[1..][..k] && y[..k + 1] == [y[0]] + y[1..][..k];
    }
  }

  // ---------------------------------------------------------------- pages

  datatype Page = Page(rows: seq<Row>, hasMore: bool)

  /** Offset and Limit(21), then the twenty-first row becomes hasMore. */
  function PageAt(list: seq<Row>, offset: nat): Page {
    var start := if offset <= |list| then offset else |list|;
    var limited := list[start..if start + PAGE + 1 <= |list| then start + PAGE + 1 else |list|];
    if |limited| > PAGE then Page(limited[..PAGE], true) else Page(limited, false)
  }

  /** What a page means: the next twenty rows, and whether any come after them. */
  lemma PageContinues(list: seq<Row>, offset: nat)
    requires offset <= |list|
    ensures var page := PageAt(list, offset);
            && list[..offset] + page.rows <= list
            && |page.rows| == (if |list| - offset <= PAGE then |list| - offset else PAGE)
            && (page.hasMore <==> offset + |page.rows| < |list|)
  {
    var page := PageAt(list, offset);
    assert page.rows == list[offset..offset + |page.rows|];
    assert list[..offset] + page.rows == list[..offset + |page.rows|];
  }

  /** Following hasMore from an offset: the rows received and the number of requests. */
  function Follow(list: seq<Row>, offset: nat): (seq<Row>, nat)
    decreases |list| - offset
  {
    var page := PageAt(list, offset);
    if page.hasMore && offset < |list| then
      var (rows, requests) := Follow(list, offset + |page.rows|);
      (page.rows + rows, requests + 1)
    else (page.rows, 1)
  }

  lemma {:induction false} FollowFrom(list: seq<Row>, offset: nat)
    requires offset <= |list|
    ensures Follow(list, offset).0 == list[offset..]
    ensures Follow(list, offset).1 == if offset == |list| then 1 else (|list| - offset + PAGE - 1) / PAGE
    decreases |list| - offset
  {
    PageContinues(list, offset);
    var page := PageAt(list, offset);
    if page.hasMore {
      FollowFrom(list, offset + PAGE);
      assert list[offset..] == page.rows + list[offset + PAGE..];
    }
  }

  /** Paging refines sorting: following hasMore from the start ends after max(1, ceil(n/20))
      requests with exactly the sorted, filtered list. */
  lemma FollowingPagesYieldsTheList(table: seq<Row>, q: Query)
    requires DistinctIds(table)
    ensures var (rows, requests) := Follow(Listing(table, q), 0);
            IsListing(table, q, rows) && requests == if rows == [] then 1 else (|rows| + PAGE - 1) / PAGE
  {
    ListingIsListing(table, q);
    FollowFrom(Listing(table, q), 0);
  }

  // ---------------------------------------------------------------- the browser

  /** A request on its way; number is the value of listRequest when it was sent. */
  datatype Message = First(number: nat, query: Query) | More(number: nat, query: Query, offset: nat)

  /** The component: query is what the address bar asks for, asked what the last effect asked the
      server for, and due says that an effect has still to run. */
  datatype Client = Client(
    query: Query, asked: Query, due: bool, listRequest: nat, orders: seq<Row>, hasMore: bool,
    loading: bool, loadingMore: bool, failed: bool, flight: seq<Message>)

  datatype Event =
    | Render(query: Query)      // the query changes, or is asked again; the old list is still there
    | Effect                    // the effect of the last render
    | ClickMore                 // effects that are due run before a click is handled
    | Arrive(i: nat)            // the answer to the ith request in flight
    | Break(i: nat)             // its failure

  /** The effect of a query: everything is reset and the first page asked for. */
  function Start(c: Client): Client {
    var number := c.listRequest + 1;
    Client(c.query, c.query, false, number, [], false, true, false, false, c.flight + [First(number, c.query)])
  }

  /** The cleanup of the previous effect: its request is no longer the current one. */
  function Cleanup(c: Client): Client {
    c.(listRequest := c.listRequest + 1)
  }

  function Without(flight: seq<Message>, i: nat): seq<Message>
    requires i < |flight|
  {
    flight[..i] + flight[i + 1..]
  }

  /** What the server answers: the page of the message's query at its offset. */
  function Answer(m: Message, table: seq<Row>): Page {
    PageAt(Listing(table, m.query), if m.More? then m.offset else 0)
  }

  /** The answer to a request that is no longer the current one is dropped. */
  function Receive(c: Client, m: Message, page: Page): Client {
    if m.number != c.listRequest then c
    else if m.First? then c.(orders := page.rows, hasMore := page.hasMore, loading := false)
    else c.(orders := c.orders + page.rows, hasMore := page.hasMore, loadingMore := false)
  }

  function Fail(c: Client, m: Message): Client {
    if m.number != c.listRequest then c
    else if m.First? then c.(failed := true, loading := false)
    else c.(failed := true, loadingMore := false)
  }

  function Step(c: Client, e: Event, table: seq<Row>): Client {
    match e
    case Render(query) => c.(query := query, due := true)
    case Effect => if c.due then Start(Cleanup(c)) else c
    case ClickMore =>
      if c.hasMore && !c.loadingMore && !c.due
      then c.(loadingMore := true, failed := false, flight := c.flight + [More(c.listRequest, c.query, |c.orders|)])
      else c
    case Arrive(i) =>
      if i < |c.flight| then Receive(c, c.flight[i], Answer(c.flight[i], table)).(flight := Without(c.flight, i)) else c
    case Break(i) =>
      if i < |c.flight| then Fail(c, c.flight[i]).(flight := Without(c.flight, i)) else c
  }

  function Unstarted(query: Query): Client {
    Client(query, query, true, 0, [], false, true, false, false, [])
  }

  function Visit(query: Query, events: seq<Event>, table: seq<Row>): Client {
    if events == [] then Start(Unstarted(query))
    else Step(Visit(query, events[..|events| - 1], table), events[|events| - 1], table)
  }

  // ---------------------------------------------------------------- what every visit keeps

  /** A request whose answer the page still waits for. */
  predicate Awaited(c: Client, m: Message) {
    && m.number == c.listRequest && m.query == c.asked
    && match m
       case First(_, _) => c.loading && !c.loadingMore && !c.hasMore && c.orders == []
       case More(_, _, offset) => !c.loading && c.loadingMore && offset == |c.orders|
  }

  predicate NumbersOld(c: Client) {
    forall i :: 0 <= i < |c.flight| ==> c.flight[i].number <= c.listRequest
  }

  predicate CurrentAwaited(c: Client) {
    forall i :: 0 <= i < |c.flight| && c.flight[i].number == c.listRequest ==> Awaited(c, c.flight[i])
  }

  predicate OneCurrent(c: Client) {
    forall i, j :: 0 <= i < j < |c.flight| ==>
        !(c.flight[i].number == c.listRequest && c.flight[j].number == c.listRequest)
  }

  predicate WaitsHaveMessages(c: Client) {
    c.loading || c.loadingMore ==> exists i :: 0 <= i < |c.flight| && c.flight[i].number == c.listRequest
  }

  /** What is shown is a prefix of the list asked for, and hasMore tells whether it is proper. */
  predicate ShowsPrefix(c: Client, table: seq<Row>) {
    var list := Listing(table, c.asked);
    && c.orders <= list
    && (c.hasMore ==> !c.loading && |c.orders| < |list|)
    && (!c.loading && !c.hasMore && !c.failed ==> c.orders == list)
  }

  predicate Coherent(c: Client, table: seq<Row>) {
    && NumbersOld(c) && CurrentAwaited(c) && OneCurrent(c) && WaitsHaveMessages(c)
    && ShowsPrefix(c, table) && (c.due || c.asked == c.query)
  }

  lemma StartCoheres(c: Client, table: seq<Row>)
    requires NumbersOld(c)
    ensures Coherent(Start(c), table)
  {
    var after := Start(c);
    assert after.flight[|c.flight|].number == after.listRequest;
  }

  lemma ClickCoheres(c: Client, table: seq<Row>)
    requires Coherent(c, table) && c.hasMore && !c.loadingMore && !c.due
    ensures Coherent(Step(c, ClickMore, table), table)
  {
    var after := Step(c, ClickMore, table);
    assert after.flight[|c.flight|].number == after.listRequest;
    forall i | 0 <= i < |c.flight| ensures c.flight[i].number != c.listRequest {
      assert c.flight[i].number == c.listRequest ==> Awaited(c, c.flight[i]);
    }
  }

  lemma ReceiveShows(c: Client, m: Message, table: seq<Row>)
    requires ShowsPrefix(c, table) && (m.number == c.listRequest ==> Awaited(c, m))
    ensures ShowsPrefix(Receive(c, m, Answer(m, table)), table)
  {
    var list := Listing(table, c.asked);
    if m.number == c.listRequest {
      var offset := if m.First? then 0 else m.offset;
      PageContinues(list, offset);
      assert c.orders == list[..offset];
    }
  }

  lemma LeavingFlight(c: Client, i: nat, after: Client)
    requires NumbersOld(c) && CurrentAwaited(c) && OneCurrent(c) && WaitsHaveMessages(c) && i < |c.flight|
    requires after.flight == Without(c.flight, i) && after.listRequest == c.listRequest
    requires c.flight[i].number != c.listRequest ==> after == c.(flight := after.flight)
    requires c.flight[i].number == c.listRequest ==> !after.loading && !after.loadingMore
    ensures NumbersOld(after) && CurrentAwaited(after) && OneCurrent(after) && WaitsHaveMessages(after)
  {
    assert forall k :: 0 <= k < |after.flight| ==> after.flight[k] == c.flight[if k < i then k else k + 1];
    if c.flight[i].number != c.listRequest {
      if c.loading || c.loadingMore {
        var k :| 0 <= k < |c.flight| && c.flight[k].number == c.listRequest;
        assert after.flight[if k < i then k else k - 1] == c.flight[k];
      }
    }
  }

  lemma DeliveryCoheres(c: Client, e: Event, table: seq<Row>)
    requires Coherent(c, table) && (e.Arrive? || e.Break?) && e.i < |c.flight|
    ensures Coherent(Step(c, e, table), table)
  {
    var m := c.flight[e.i];
    if e.Arrive? {
      ReceiveShows(c, m, table);
    }
    LeavingFlight(c, e.i, Step(c, e, table));
  }

  lemma StepCoheres(c: Client, e: Event, table: seq<Row>)
    requires Coherent(c, table)
    ensures Coherent(Step(c, e, table), table)
  {
    match e
    case Render(_) =>
    case Effect => if c.due { StartCoheres(Cleanup(c), table); }
    case ClickMore => if c.hasMore && !c.loadingMore && !c.due { ClickCoheres(c, table); }
    case Arrive(i) => if i < |c.flight| { DeliveryCoheres(c, e, table); }
    case Break(i) => if i < |c.flight| { DeliveryCoheres(c, e, table); }
  }

  lemma {:induction false} VisitCoheres(query: Query, events: seq<Event>, table: seq<Row>)
    ensures Coherent(Visit(query, events, table), table)
  {
    if events == [] {
      StartCoheres(Unstarted(query), table);
    } else {
      VisitCoheres(query, events[..|events| - 1], table);
      StepCoheres(Visit(query, events[..|events| - 1], table), events[|events| - 1], table);
    }
  }

  /** Under any order of renders, effects, clicks, arrivals and failures, the displayed list is a
      prefix of the list last asked for, which is the current query's whenever no effect is due: a
      proper prefix while more is offered, and the whole list once loading has ended without an error
      and nothing more is offered. */
  lemma DisplayIsAlwaysAPrefix(query: Query, events: seq<Event>, table: seq<Row>, list: seq<Row>)
    requires DistinctIds(table) && IsListing(table, Visit(query, events, table).asked, list)
    ensures var c := Visit(query, events, table);
            && c.orders <= list
            && (c.hasMore ==> c.orders < list)
            && (!c.loading && !c.failed && !c.hasMore ==> c.orders == list)
            && (c.due || c.asked == c.query)
  {
    var c := Visit(query, events, table);
    VisitCoheres(query, events, table);
    ListingIsUnique(table, c.asked, list);
  }

  // ---------------------------------------------------------------- the component in place

  /** The component's state, changed as its handlers run; table and flight are the server's rows and
      the messages on their way, of which the component sees only what arrives. */
  class OrdersPage {
    var query: Query
    var asked: Query
    var due: bool
    var listRequest: nat
    var orders: seq<Row>
    var hasMore: bool
    var loading: bool
    var loadingMore: bool
    var failed: bool
    ghost const table: seq<Row>
    ghost var flight: seq<Message>

    ghost function State(): Client
      reads this
    {
      Client(query, asked, due, listRequest, orders, hasMore, loading, loadingMore, failed, flight)
    }

    ghost predicate Valid()
      reads this
    {
      Coherent(State(), table)
    }

    /** The first effect has run: nothing is shown yet and the first page is on its way. */
    constructor (first: Query, ghost rows: seq<Row>)
      ensures Valid() && table == rows && orders == [] && asked == query == first && !due
    {
      query, asked, due, listRequest, orders := first, first, false, 1, [];
      hasMore, loading, loadingMore, failed := false, true, false, false;
      table := rows;
      flight := [Message.First(1, first)];
      new;
      StartCoheres(Unstarted(first), table);
      assert State() == Start(Unstarted(first));
    }

    /** A new query is rendered over the old list, which stays a prefix of the old query's. */
    method Render(next: Query)
      requires Valid()
      modifies this`query, this`due
      ensures Valid() && query == next && due
      ensures State() == Step(old(State()), Event.Render(next), table)
    {
      query, due := next, true;
    }

    /** Nothing of the old query is left, and no answer to an earlier request will be shown. */
    method Effect() returns (sent: Message)
      requires Valid() && due
      modifies this
      ensures Valid() && orders == [] && asked == query == old(query) && !due
      ensures sent == First(listRequest, query) && flight == old(flight) + [sent]
      ensures forall i :: 0 <= i < |old(flight)| ==> flight[i].number != listRequest
      ensures State() == Step(old(State()), Event.Effect, table)
    {
      StepCoheres(State(), Event.Effect, table);
      assert NumbersOld(State());
      hide Coherent;
      listRequest := listRequest + 1;
      listRequest := listRequest + 1;
      asked, due, loading, loadingMore, failed := query, false, true, false, false;
      orders, hasMore := [], false;
      sent := First(listRequest, query);
      flight := flight + [sent];
    }

    /** The rows asked for are the next ones of the current query's list, at least one of them, and no
        second request for them can be sent meanwhile. */
    method LoadMore() returns (sent: Message)
      requires Valid() && hasMore && !loadingMore && !due
      modifies this`loadingMore, this`failed, this`flight
      ensures Valid() && loadingMore && flight == old(flight) + [sent]
      ensures orders + Answer(sent, table).rows <= Listing(table, query) && Answer(sent, table).rows != []
      ensures State() == Step(old(State()), ClickMore, table)
    {
      StepCoheres(State(), ClickMore, table);
      PageContinues(Listing(table, query), |orders|);
      loadingMore, failed := true, false;
      sent := More(listRequest, query, |orders|);
      flight := flight + [sent];
    }

    /** The answer to an earlier request changes nothing on the screen. The answer to the current one
        leaves a longer prefix of the list asked for, or all of it when nothing more is offered. */
    method Arrived(ghost i: nat, m: Message, response: Page)
      requires Valid() && i < |flight| && m == flight[i] && response == Answer(m, table)
      modifies this
      ensures Valid() && listRequest == old(listRequest)
      ensures m.number != listRequest ==> orders == old(orders) && hasMore == old(hasMore) && loading == old(loading)
      ensures m.number == listRequest ==> !loading && !loadingMore && old(orders) <= orders <= Listing(table, asked)
      ensures m.number == listRequest ==> (hasMore <==> orders != Listing(table, asked))
      ensures State() == Step(old(State()), Arrive(i), table)
    {
      StepCoheres(State(), Arrive(i), table);
      assert m.number == listRequest ==> Awaited(State(), m);
      assert orders <= Listing(table, asked);
      PageContinues(Listing(table, asked), |orders|);
      hide Coherent, Listing, PageAt, Matches;
      flight := Without(flight, i);
      if m.number != listRequest {
        return;
      }
      if m.First? {
        orders, hasMore := response.rows, response.hasMore;
        loading := false;
      } else {
        orders := orders + response.rows;
        hasMore := response.hasMore;
        loadingMore := false;
      }
    }

    /** A failure of the current request is reported and can be followed by another try; the rows stay. */
    method Broke(ghost i: nat, m: Message)
      requires Valid() && i < |flight| && m == flight[i]
      modifies this
      ensures Valid() && orders == old(orders) && hasMore == old(hasMore) && listRequest == old(listRequest)
      ensures m.number == listRequest ==> failed && !loading && !loadingMore
      ensures m.number != listRequest ==>
              failed == old(failed) && loading == old(loading) && loadingMore == old(loadingMore)
      ensures State() == Step(old(State()), Break(i), table)
    {
      StepCoheres(State(), Break(i), table);
      assert m.number == listRequest ==> Awaited(State(), m);
      hide Coherent;
      flight := Without(flight, i);
      if m.number != listRequest {
        return;
      }
      failed := true;
      if m.First? {
        loading := false;
      } else {
        loadingMore := false;
      }
    }
  }
}
