/** The two creation requests: in-place normalisation, validation and the request fingerprint. */
module Intake {
  import opened Wrappers
  import opened Text
  import opened Pricing
  import opened Customers

  // ---------------------------------------------------------------- JSON values and the digest

  /** The field names the fingerprint objects use. */
  datatype Key =
    | CreateKey | ShopId | Items | ProductId | Quantity | Amount | InitialPaymentAmount | EstimatedDeliveryDate
    | StatusKey | CustomerFullName | CustomerMobile | CustomerAddress | CustomerPostalCode
    | InstagramUsername | InternalNote | SalesChannel | Kind | Input | ReceiptHash

  /** JSON values; FileSum is the hexadecimal digest of an uploaded file, never the empty string. */
  datatype Json =
    | Num(n: int)
    | Str(s: string)
    | FileSum(content: string)
    | Arr(elements: seq<Json>)
    | Obj(fields: map<Key, Json>)

  /** SHA-256 over the encoded object, taken as injective. */
  datatype Fingerprint = Sha256(json: Json)

  function LineJson(line: Line): Json {
    Obj(map[ProductId := Num(line.product), Quantity := Num(line.quantity)])
  }

  function LinesJson(lines: seq<Line>): Json {
    Arr(seq(|lines|, i requires 0 <= i < |lines| => LineJson(lines[i])))
  }

  lemma LinesJsonInjective(a: seq<Line>, b: seq<Line>)
    requires LinesJson(a) == LinesJson(b)
    ensures a == b
  {
    var x, y := LinesJson(a).elements, LinesJson(b).elements;
    assert |a| == |x| == |y| == |b|;
    forall i | 0 <= i < |a| ensures a[i] == b[i] {
      assert x[i] == LineJson(a[i]) && y[i] == LineJson(b[i]);
      assert x[i].fields[ProductId] == Num(a[i].product) && x[i].fields[Quantity] == Num(a[i].quantity);
      assert y[i].fields[ProductId] == Num(b[i].product) && y[i].fields[Quantity] == Num(b[i].quantity);
    }
  }

  // ---------------------------------------------------------------- sorting by product id

  function InsertLine(line: Line, sorted: seq<Line>): seq<Line> {
    if sorted == [] || line.product <= sorted[0].product then [line] + sorted
    else [sorted[0]] + InsertLine(line, sorted[1..])
  }

  /** The item list in the order sort.Slice leaves it. */
  function SortLines(lines: seq<Line>): seq<Line> {
    if lines == [] then [] else InsertLine(lines[0], SortLines(lines[1..]))
  }

  predicate Sorted(lines: seq<Line>) {
    forall i, j :: 0 <= i < j < |lines| ==> lines[i].product <= lines[j].product
  }

  lemma {:induction false} InsertLineAdds(line: Line, sorted: seq<Line>)
    ensures multiset(InsertLine(line, sorted)) == multiset(sorted) + multiset{line}
  {
    if sorted != [] && line.product > sorted[0].product {
      InsertLineAdds(line, sorted[1..]);
      assert sorted == [sorted[0]] + sorted[1..];
    }
  }

  predicate AllFrom(lines: seq<Line>, p: nat) {
    forall i :: 0 <= i < |lines| ==> p <= lines[i].product
  }

  lemma {:induction false} InsertLineKeeps(line: Line, sorted: seq<Line>)
    requires Sorted(sorted)
    ensures Sorted(InsertLine(line, sorted))
    ensures forall p: nat :: p <= line.product && AllFrom(sorted, p) ==> AllFrom(InsertLine(line, sorted), p)
  {
    if sorted != [] && line.product > sorted[0].product {
      InsertLineKeeps(line, sorted[1..]);
      assert AllFrom(sorted[1..], sorted[0].product);
      forall p: nat | p <= line.product && AllFrom(sorted, p) ensures AllFrom(InsertLine(line, sorted), p) {
        assert AllFrom(sorted[1..], p);
      }
    }
  }

  lemma {:induction false} SortLinesCorrect(lines: seq<Line>)
    ensures Sorted(SortLines(lines))
    ensures multiset(SortLines(lines)) == multiset(lines)
  {
    if lines != [] {
      SortLinesCorrect(lines[1..]);
      InsertLineAdds(lines[0], SortLines(lines[1..]));
      InsertLineKeeps(lines[0], SortLines(lines[1..]));
      assert lines == [lines[0]] + lines[1..];
    }
  }

  predicate DistinctProducts(lines: seq<Line>) {
    forall i, j :: 0 <= i < j < |lines| ==> lines[i].product != lines[j].product
  }

  lemma SameSmallest(a: seq<Line>, b: seq<Line>)
    requires a != [] && b != [] && Sorted(a) && Sorted(b) && multiset(a) == multiset(b)
    ensures a[0].product == b[0].product
  {
    assert a[0] in multiset(b) && b[0] in multiset(a);
    var i :| 0 <= i < |b| && b[i] == a[0];
    var j :| 0 <= j < |a| && a[j] == b[0];
    assert b[0].product <= b[i].product && a[0].product <= a[j].product;
  }

  lemma SameFirst(a: seq<Line>, b: seq<Line>)
    requires a != [] && b != [] && Sorted(a) && Sorted(b) && DistinctProducts(a) && multiset(a) == multiset(b)
    ensures a[0] == b[0]
  {
    SameSmallest(a, b);
    assert b[0] in multiset(a);
    var j :| 0 <= j < |a| && a[j] == b[0];
    assert j == 0;
  }

  /** Two sorted lists of the same lines with distinct products are the same list. */
  lemma {:induction false} SortedUnique(a: seq<Line>, b: seq<Line>)
    requires Sorted(a) && Sorted(b) && DistinctProducts(a) && multiset(a) == multiset(b)
    ensures a == b
  {
    assert |b| == |multiset(b)| == |multiset(a)| == |a|;
    if a != [] {
      SameFirst(a, b);
      WithoutFirst(a);
      WithoutFirst(b);
      SortedUnique(a[1..], b[1..]);
    }
  }

  lemma WithoutFirst(a: seq<Line>)
    requires a != []
    ensures multiset(a[1..]) == multiset(a) - multiset{a[0]}
    ensures a == [a[0]] + a[1..]
  {
    assert a == [a[0]] + a[1..];
  }

  /** Distinctness can be read off the multiset, so it survives sorting. */
  lemma {:induction false} DistinctSurvivesSorting(lines: seq<Line>)
    requires DistinctProducts(lines)
    ensures DistinctProducts(SortLines(lines))
  {
    var s := SortLines(lines);
    SortLinesCorrect(lines);
    forall i, j | 0 <= i < j < |s| ensures s[i].product != s[j].product {
      if s[i].product == s[j].product {
        assert s[i] in multiset(lines) && s[j] in multiset(lines);
        var k :| 0 <= k < |lines| && lines[k] == s[i];
        var l :| 0 <= l < |lines| && lines[l] == s[j];
        assert k == l;
        TwiceInSequence(s, i, j);
        OnceInSequence(lines, k);
        assert false;
      }
    }
  }

  lemma TwiceInSequence(s: seq<Line>, i: nat, j: nat)
    requires i < j < |s| && s[i] == s[j]
    ensures multiset(s)[s[i]] >= 2
  {
    assert s == s[..i] + [s[i]] + s[i + 1..j] + [s[j]] + s[j + 1..];
  }

  lemma OnceInSequence(s: seq<Line>, k: nat)
    requires k < |s| && DistinctProducts(s)
    ensures multiset(s)[s[k]] == 1
  {
    assert s == s[..k] + [s[k]] + s[k + 1..];
    assert s[k] !in s[..k] && s[k] !in s[k + 1..];
  }

  // ---------------------------------------------------------------- normal creation

  datatype NormalForm = NormalForm(
    createKey: string, shopId: nat, items: seq<Line>, amount: int, initialPayment: Option<int>,
    deliveryDate: string, salesChannel: string, conversationReference: string, instagramUsername: string,
    internalNote: string, elapsedMs: int)

  const TEN_MINUTES_MS: int := 10 * 60 * 1000

  function Instagram(handle: string): string {
    Trim(TrimPrefix(Trim(handle), "@"))
  }

  /** The form after the handler's in-place normalisation. */
  function CleanNormal(f: NormalForm): NormalForm {
    var reference := Trim(f.conversationReference);
    var channel := Trim(f.salesChannel);
    f.(createKey := Trim(f.createKey),
       deliveryDate := Trim(f.deliveryDate),
       salesChannel := if channel == "" then "instagram" else channel,
       conversationReference :=
         if reference == "" && Trim(f.instagramUsername) != "" then Instagram(f.instagramUsername) else reference,
       internalNote := Trim(f.internalNote),
       items := SortLines(f.items),
       elapsedMs := if f.elapsedMs < 0 then 0 else if f.elapsedMs > TEN_MINUTES_MS then TEN_MINUTES_MS else f.elapsedMs)
  }

  predicate ValidChannel(s: string) {
    s in {"instagram", "whatsapp", "telegram", "bale", "other"}
  }

  /** The checks of createOrder on the normalised form; dateOk says the delivery date is today or later. */
  predicate AcceptsNormal(c: NormalForm, dateOk: bool) {
    && c.createKey != "" && ByteLength(c.createKey) <= 100 && c.shopId != 0
    && 0 < |c.items| <= 50 && c.amount > 0
    && (c.initialPayment.Some? ==> 0 < c.initialPayment.value < c.amount)
    && dateOk
    && ValidChannel(c.salesChannel)
    && AcceptableLines(c.items)
    && |c.conversationReference| <= 100 && |c.internalNote| <= 1000
  }

  function NormalJson(c: NormalForm): Json {
    var base := map[ShopId := Num(c.shopId), Items := LinesJson(c.items), Amount := Num(c.amount),
                    EstimatedDeliveryDate := Str(c.deliveryDate),
                    InstagramUsername := Str(c.conversationReference), InternalNote := Str(c.internalNote)];
    var channelled := if c.salesChannel != "instagram" then base[SalesChannel := Str(c.salesChannel)] else base;
    Obj(if c.initialPayment.Some? then channelled[InitialPaymentAmount := Num(c.initialPayment.value)] else channelled)
  }

  function NormalFingerprint(c: NormalForm): Fingerprint {
    Sha256(NormalJson(c))
  }

  /** The same order asked for: normalised fields equal, items in any order; the create key and the
      elapsed time do not matter. */
  predicate SameNormal(a: NormalForm, b: NormalForm) {
    var x, y := CleanNormal(a), CleanNormal(b);
    && x.shopId == y.shopId && multiset(a.items) == multiset(b.items) && x.amount == y.amount
    && x.initialPayment == y.initialPayment && x.deliveryDate == y.deliveryDate
    && x.salesChannel == y.salesChannel && x.conversationReference == y.conversationReference
    && x.internalNote == y.internalNote
  }

  lemma {:induction false} SameItemsIff(a: seq<Line>, b: seq<Line>)
    requires DistinctProducts(a)
    ensures SortLines(a) == SortLines(b) <==> multiset(a) == multiset(b)
  {
    SortLinesCorrect(a);
    SortLinesCorrect(b);
    DistinctSurvivesSorting(a);
    if multiset(a) == multiset(b) {
      SortedUnique(SortLines(a), SortLines(b));
    }
  }

  lemma NormalJsonInjective(x: NormalForm, y: NormalForm)
    requires NormalJson(x) == NormalJson(y)
    ensures x.shopId == y.shopId && x.items == y.items && x.amount == y.amount && x.initialPayment == y.initialPayment
    ensures x.deliveryDate == y.deliveryDate && x.salesChannel == y.salesChannel
    ensures x.conversationReference == y.conversationReference && x.internalNote == y.internalNote
  {
    var f, g := NormalJson(x).fields, NormalJson(y).fields;
    assert f[ShopId] == g[ShopId] && f[Items] == g[Items] && f[Amount] == g[Amount];
    assert f[EstimatedDeliveryDate] == g[EstimatedDeliveryDate];
    assert f[InstagramUsername] == g[InstagramUsername] && f[InternalNote] == g[InternalNote];
    LinesJsonInjective(x.items, y.items);
    assert SalesChannel in f <==> x.salesChannel != "instagram";
    assert SalesChannel in g <==> y.salesChannel != "instagram";
    assert InitialPaymentAmount in f <==> x.initialPayment.Some?;
    assert InitialPaymentAmount in g <==> y.initialPayment.Some?;
    if SalesChannel in f { assert f[SalesChannel] == g[SalesChannel]; }
    if InitialPaymentAmount in f { assert f[InitialPaymentAmount] == g[InitialPaymentAmount]; }
  }

  /** Equal fingerprints mean the same order was asked for, and conversely. */
  lemma NormalFingerprintIff(a: NormalForm, b: NormalForm)
    requires DistinctProducts(a.items)
    ensures NormalFingerprint(CleanNormal(a)) == NormalFingerprint(CleanNormal(b)) <==> SameNormal(a, b)
  {
    SameItemsIff(a.items, b.items);
    if NormalFingerprint(CleanNormal(a)) == NormalFingerprint(CleanNormal(b)) {
      NormalJsonInjective(CleanNormal(a), CleanNormal(b));
    }
  }

  /** Acceptance looks through the sorting, so accepted forms have distinct products. */
  lemma AcceptedItemsDistinct(f: NormalForm, dateOk: bool)
    requires AcceptsNormal(CleanNormal(f), dateOk)
    ensures DistinctProducts(f.items)
  {
    DistinctBackwards(f.items);
  }

  lemma {:induction false} DistinctBackwards(lines: seq<Line>)
    requires DistinctProducts(SortLines(lines))
    ensures DistinctProducts(lines)
  {
    var s := SortLines(lines);
    SortLinesCorrect(lines);
    forall i, j | 0 <= i < j < |lines| ensures lines[i].product != lines[j].product {
      if lines[i].product == lines[j].product {
        assert lines[i] in multiset(s) && lines[j] in multiset(s);
        var k :| 0 <= k < |s| && s[k] == lines[i];
        var l :| 0 <= l < |s| && s[l] == lines[j];
        assert k == l;
        TwiceInSequence(lines, i, j);
        OnceInSequence(s, k);
        assert false;
      }
    }
  }

  // ---------------------------------------------------------------- historical import

  datatype HistoricalForm = HistoricalForm(
    createKey: string, shopId: nat, items: seq<Line>, amount: int, deliveryDate: string, status: string,
    customer: Details, instagramUsername: string, internalNote: string, salesChannel: string,
    conversationReference: string)

  function CleanHistorical(f: HistoricalForm): HistoricalForm {
    var handle := Instagram(f.instagramUsername);
    var reference := Trim(f.conversationReference);
    var channel := Trim(f.salesChannel);
    f.(createKey := Trim(f.createKey),
       deliveryDate := Trim(f.deliveryDate),
       status := Trim(f.status),
       customer := Details(Trim(f.customer.fullName), NormalizeMobile(f.customer.mobile), Trim(f.customer.address),
                           NormalizeDigits(f.customer.postalCode), ""),
       instagramUsername := handle,
       conversationReference := if reference == "" then handle else reference,
       salesChannel := if channel == "" then "instagram" else channel,
       internalNote := Trim(f.internalNote),
       items := SortLines(f.items))
  }

  /** The checks of importHistoricalOrder; dateOk says the delivery date parses. */
  predicate AcceptsHistorical(c: HistoricalForm, hasReceipt: bool, dateOk: bool) {
    && c.createKey != "" && ByteLength(c.createKey) <= 100 && c.shopId != 0
    && 0 < |c.items| <= 50 && 0 < c.amount <= MAX_SAFE_INTEGER
    && dateOk
    && ParseStatus(c.status).Some? && ParseStatus(c.status).value != WaitingInfo
    && ValidChannel(c.salesChannel)
    && (ParseStatus(c.status).value == WaitingPayment ==> hasReceipt)
    && ValidDetails(c.customer)
    && |c.conversationReference| <= 100 && |c.internalNote| <= 1000
    && AcceptableLines(c.items)
  }

  function ReceiptSum(receipt: Option<string>): Json {
    match receipt
    case None => Str("")
    case Some(content) => FileSum(content)
  }

  /** The value the marshalled input struct holds under a name: the reference moves into the
      legacy field, so the reference field itself is empty and omitted. */
  function HistoricalField(c: HistoricalForm, key: Key): Json {
    match key
    case CreateKey => Str(c.createKey)
    case ShopId => Num(c.shopId)
    case Items => LinesJson(c.items)
    case Amount => Num(c.amount)
    case EstimatedDeliveryDate => Str(c.deliveryDate)
    case StatusKey => Str(c.status)
    case CustomerFullName => Str(c.customer.fullName)
    case CustomerMobile => Str(c.customer.mobile)
    case CustomerAddress => Str(c.customer.address)
    case CustomerPostalCode => Str(c.customer.postalCode)
    case InstagramUsername => Str(c.conversationReference)
    case InternalNote => Str(c.internalNote)
    case SalesChannel => Str(c.salesChannel)
    case _ => Str("")
  }

  /** The names present: the default channel is emptied before marshalling, and so omitted. */
  predicate HistoricalHas(c: HistoricalForm, key: Key) {
    match key
    case ProductId => false
    case Quantity => false
    case InitialPaymentAmount => false
    case Kind => false
    case Input => false
    case ReceiptHash => false
    case SalesChannel => c.salesChannel != "instagram"
    case _ => true
  }

  function HistoricalInputJson(c: HistoricalForm): Json {
    Obj(map key: Key | HistoricalHas(c, key) :: HistoricalField(c, key))
  }

  function HistoricalFingerprint(c: HistoricalForm, receipt: Option<string>): Fingerprint {
    Sha256(Obj(map[Kind := Str("historical"), Input := HistoricalInputJson(c), ReceiptHash := ReceiptSum(receipt)]))
  }

  /** The same import: every normalised field including the create key, and the same receipt. */
  predicate SameHistorical(a: HistoricalForm, ra: Option<string>, b: HistoricalForm, rb: Option<string>) {
    var x, y := CleanHistorical(a), CleanHistorical(b);
    && x.createKey == y.createKey && x.shopId == y.shopId && multiset(a.items) == multiset(b.items)
    && x.amount == y.amount && x.deliveryDate == y.deliveryDate && x.status == y.status && x.customer == y.customer
    && x.salesChannel == y.salesChannel && x.conversationReference == y.conversationReference
    && x.internalNote == y.internalNote && ra == rb
  }

  lemma HistoricalFieldsAgree(x: HistoricalForm, y: HistoricalForm, key: Key)
    requires HistoricalInputJson(x) == HistoricalInputJson(y)
    ensures HistoricalHas(x, key) == HistoricalHas(y, key)
    ensures HistoricalHas(x, key) ==> HistoricalField(x, key) == HistoricalField(y, key)
  {
    var f, g := HistoricalInputJson(x).fields, HistoricalInputJson(y).fields;
    assert key in f <==> HistoricalHas(x, key);
    assert key in g <==> HistoricalHas(y, key);
    if key in f { assert f[key] == g[key]; }
  }

  lemma HistoricalCustomerAgrees(x: HistoricalForm, y: HistoricalForm)
    requires HistoricalInputJson(x) == HistoricalInputJson(y) && x.customer.note == y.customer.note
    ensures x.customer == y.customer
  {
    HistoricalFieldsAgree(x, y, CustomerFullName);
    HistoricalFieldsAgree(x, y, CustomerMobile);
    HistoricalFieldsAgree(x, y, CustomerAddress);
    HistoricalFieldsAgree(x, y, CustomerPostalCode);
  }

  lemma HistoricalOrderAgrees(x: HistoricalForm, y: HistoricalForm)
    requires HistoricalInputJson(x) == HistoricalInputJson(y)
    ensures x.createKey == y.createKey && x.shopId == y.shopId && x.items == y.items && x.amount == y.amount
    ensures x.deliveryDate == y.deliveryDate && x.status == y.status
    ensures x.salesChannel == y.salesChannel && x.conversationReference == y.conversationReference
    ensures x.internalNote == y.internalNote
  {
    HistoricalFieldsAgree(x, y, CreateKey);
    HistoricalFieldsAgree(x, y, ShopId);
    HistoricalFieldsAgree(x, y, Items);
    HistoricalFieldsAgree(x, y, Amount);
    HistoricalFieldsAgree(x, y, EstimatedDeliveryDate);
    HistoricalFieldsAgree(x, y, StatusKey);
    HistoricalFieldsAgree(x, y, InstagramUsername);
    HistoricalFieldsAgree(x, y, InternalNote);
    HistoricalFieldsAgree(x, y, SalesChannel);
    LinesJsonInjective(x.items, y.items);
  }

  lemma SameFieldsSameJson(x: HistoricalForm, y: HistoricalForm)
    requires x.(instagramUsername := "") == y.(instagramUsername := "")
    ensures HistoricalInputJson(x) == HistoricalInputJson(y)
  {
    assert forall key ::
        HistoricalHas(x, key) == HistoricalHas(y, key) && HistoricalField(x, key) == HistoricalField(y, key);
  }

  lemma HistoricalFingerprintIff(a: HistoricalForm, ra: Option<string>, b: HistoricalForm, rb: Option<string>)
    requires DistinctProducts(a.items)
    ensures HistoricalFingerprint(CleanHistorical(a), ra) == HistoricalFingerprint(CleanHistorical(b), rb)
            <==> SameHistorical(a, ra, b, rb)
  {
    SameItemsIff(a.items, b.items);
    var p, q := HistoricalFingerprint(CleanHistorical(a), ra), HistoricalFingerprint(CleanHistorical(b), rb);
    if SameHistorical(a, ra, b, rb) {
      SameFieldsSameJson(CleanHistorical(a), CleanHistorical(b));
    }
    if p == q {
      assert p.json.fields[Input] == q.json.fields[Input];
      assert p.json.fields[ReceiptHash] == q.json.fields[ReceiptHash];
      HistoricalOrderAgrees(CleanHistorical(a), CleanHistorical(b));
      HistoricalCustomerAgrees(CleanHistorical(a), CleanHistorical(b));
    }
  }

  /** A normal creation and an import never share a fingerprint. */
  lemma KindsNeverCoincide(c: NormalForm, h: HistoricalForm, receipt: Option<string>)
    ensures NormalFingerprint(c) != HistoricalFingerprint(h, receipt)
  {
    assert Kind in HistoricalFingerprint(h, receipt).json.fields;
    assert Kind !in NormalJson(c).fields;
  }

  // ---------------------------------------------------------------- what is accepted, from the form as sent

  predicate ItemsAccepted(items: seq<Line>) {
    && 1 <= |items| <= 50
    && (forall i :: 0 <= i < |items| ==> items[i].product != 0 && 1 <= items[i].quantity <= 99)
    && (forall i, j :: 0 <= i < j < |items| ==> items[i].product != items[j].product)
  }

  lemma SortingKeepsAcceptance(items: seq<Line>)
    ensures (0 < |SortLines(items)| <= 50 && AcceptableLines(SortLines(items))) <==> ItemsAccepted(items)
  {
    var sorted := SortLines(items);
    SortLinesCorrect(items);
    assert |sorted| == |multiset(sorted)| == |multiset(items)| == |items|;
    if AcceptableLines(sorted) {
      DistinctBackwards(items);
      forall i | 0 <= i < |items| ensures LineOk(items[i]) {
        assert items[i] in multiset(sorted);
      }
    }
    if ItemsAccepted(items) {
      DistinctSurvivesSorting(items);
      forall i | 0 <= i < |sorted| ensures LineOk(sorted[i]) {
        assert sorted[i] in multiset(items);
      }
    }
  }

  predicate ReferenceFits(reference: string, handle: string) {
    if Trim(reference) != "" then |Trim(reference)| <= 100
    else |Trim(TrimPrefix(Trim(handle), "@"))| <= 100
  }

  predicate ChannelKnown(channel: string) {
    Trim(channel) == "" || ValidChannel(Trim(channel))
  }

  /** The request of the create page is accepted exactly so, whatever order its items are in. */
  lemma NormalAcceptedIff(f: NormalForm, dateOk: bool)
    ensures AcceptsNormal(CleanNormal(f), dateOk) <==>
              && Trim(f.createKey) != "" && ByteLength(Trim(f.createKey)) <= 100 && f.shopId != 0
              && ItemsAccepted(f.items) && f.amount > 0
              && (f.initialPayment.Some? ==> 0 < f.initialPayment.value < f.amount)
              && dateOk && ChannelKnown(f.salesChannel)
              && ReferenceFits(f.conversationReference, f.instagramUsername) && |Trim(f.internalNote)| <= 1000
  {
    SortingKeepsAcceptance(f.items);
    NothingTrimmed();
    hide SortLines, AcceptableLines, ItemsAccepted, Trim, ByteLength;
  }

  /** The time the seller took is kept between nothing and ten minutes. */
  lemma ElapsedIsClamped(f: NormalForm)
    ensures var kept := CleanNormal(f).elapsedMs;
            && 0 <= kept <= 600_000
            && (0 <= f.elapsedMs <= 600_000 ==> kept == f.elapsedMs)
            && (kept < f.elapsedMs ==> kept == 600_000) && (kept > f.elapsedMs ==> kept == 0)
  {
    hide Trim, SortLines;
  }

  lemma NothingTrimmed()
    ensures Trim(TrimPrefix("", "@")) == ""
  {
  }

  lemma CleanDetailsAccepted(d: Details)
    ensures ValidDetails(Details(Trim(d.fullName), NormalizeMobile(d.mobile), Trim(d.address),
                                 NormalizeDigits(d.postalCode), "")) <==>
              && 1 <= |Trim(d.fullName)| <= 150 && IsMobile(NormalizeMobile(d.mobile))
              && 1 <= |Trim(d.address)| <= 2000
              && (|NormalizeDigits(d.postalCode)| == 0 || |NormalizeDigits(d.postalCode)| == 10)
  {
    assert AllDigits(NormalizeMobile(d.mobile));
    ByteLengthOfDigits(NormalizeMobile(d.mobile));
    ByteLengthOfDigits(NormalizeDigits(d.postalCode));
    hide Trim, ByteLength, NormalizeMobile, NormalizeDigits;
  }

  /** An import is accepted exactly so: a parsable date, a status past waiting for information, a receipt if
      the payment awaits approval, and details a customer could have sent. */
  lemma HistoricalAcceptedIff(f: HistoricalForm, hasReceipt: bool, dateOk: bool)
    ensures AcceptsHistorical(CleanHistorical(f), hasReceipt, dateOk) <==>
              && Trim(f.createKey) != "" && ByteLength(Trim(f.createKey)) <= 100 && f.shopId != 0
              && ItemsAccepted(f.items) && 0 < f.amount <= 9_007_199_254_740_991
              && dateOk && ChannelKnown(f.salesChannel)
              && Trim(f.status) in {"waiting_payment", "paid", "preparing", "shipped", "cancelled"}
              && (Trim(f.status) == "waiting_payment" ==> hasReceipt)
              && 1 <= |Trim(f.customer.fullName)| <= 150 && IsMobile(NormalizeMobile(f.customer.mobile))
              && 1 <= |Trim(f.customer.address)| <= 2000
              && (|NormalizeDigits(f.customer.postalCode)| == 0 || |NormalizeDigits(f.customer.postalCode)| == 10)
              && ReferenceFits(f.conversationReference, f.instagramUsername) && |Trim(f.internalNote)| <= 1000
  {
    SortingKeepsAcceptance(f.items);
    CleanDetailsAccepted(f.customer);
    hide SortLines, AcceptableLines, ItemsAccepted, Trim, ByteLength, NormalizeMobile, NormalizeDigits, IsMobile;
    hide ValidDetails;
  }
}
