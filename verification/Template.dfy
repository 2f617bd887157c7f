/** The message a shop shares with a customer: the template the server stores and the page's
    rendering of it. */
module Template {
  import opened Wrappers
  import opened Text

  datatype Placeholder = ShopName | OrderCode | CustomerUrl | Amount | DeliveryDate

  function Name(p: Placeholder): string {
    match p
    case ShopName => "{shopName}"
    case OrderCode => "{orderCode}"
    case CustomerUrl => "{customerUrl}"
    case Amount => "{amount}"
    case DeliveryDate => "{deliveryDate}"
  }

  /** What the page substitutes; any strings at all. */
  datatype Values = Values(
    shopName: string, orderCode: string, customerUrl: string, amount: string, deliveryDate: string)

  function ValueOf(v: Values, p: Placeholder): string {
    match p
    case ShopName => v.shopName
    case OrderCode => v.orderCode
    case CustomerUrl => v.customerUrl
    case Amount => v.amount
    case DeliveryDate => v.deliveryDate
  }

  /** The alternative of the regular expression that matches at the start of s. */
  function Match(s: string): (p: Option<Placeholder>)
    ensures p.Some? ==> HasPrefix(s, Name(p.value)) && |Name(p.value)| > 0
  {
    if HasPrefix(s, Name(ShopName)) then Some(ShopName)
    else if HasPrefix(s, Name(OrderCode)) then Some(OrderCode)
    else if HasPrefix(s, Name(CustomerUrl)) then Some(CustomerUrl)
    else if HasPrefix(s, Name(Amount)) then Some(Amount)
    else if HasPrefix(s, Name(DeliveryDate)) then Some(DeliveryDate)
    else None
  }

  /** One global replace: scan left to right, copy what does not match, resume after a match. */
  function Render(template: string, v: Values): string
    decreases |template|
  {
    if template == "" then ""
    else match Match(template)
      case Some(p) => ValueOf(v, p) + Render(template[|Name(p)|..], v)
      case None => [template[0]] + Render(template[1..], v)
  }

  const DEFAULT_HEAD: string :=
    "مرسی که {shopName} رو انتخاب کردین 🤍\n"
    + "سفارش شما با کد {orderCode} ثبت شد ✨\n\n"
    + "برای مشاهده جزئیات سفارش و پرداخت مبلغ {amount}، از لینک زیر وارد صفحه سفارشتون بشین 👇\n"
  const DEFAULT_TAIL: string :=
    "\n\nاطلاعات پرداخت داخل همون صفحه در دسترستونه و بعد از واریز می‌تونین تصویر رسید پرداخت رو هم همون‌جا ارسال کنین.\n\n"
    + "از همین لینک می‌تونین وضعیت سفارش و مراحل آماده‌سازی و ارسال رو هم پیگیری کنین 🌿\n\n"
    + "زمان تقریبی تحویل: {deliveryDate}\n\n"
    + "مرسی از اعتمادتون 🤍"
  const DEFAULT_TEMPLATE: string := DEFAULT_HEAD + Name(CustomerUrl) + DEFAULT_TAIL

  /** orderShareMessage: an empty stored template means the default. */
  function ShareMessage(stored: string, v: Values): string {
    Render(if stored == "" then DEFAULT_TEMPLATE else stored, v)
  }

  /** strings.Contains */
  predicate Contains(s: string, part: string) {
    exists i :: 0 <= i <= |s| && HasPrefix(s[i..], part)
  }

  /** The template part of updateShopSupport: what it stores, or None for a rejection. An omitted
      field keeps the stored template, which is checked again. */
  function SaveTemplate(stored: string, input: Option<string>): Option<string> {
    var template := if input.Some? then Trim(input.value) else stored;
    if |template| > 1000 then None
    else if template != "" && !Contains(template, Name(CustomerUrl)) then None
    else Some(template)
  }

  // ---------------------------------------------------------------- where placeholders can match

  /** A placeholder opens with its only '{' and closes with its only '}'. */
  lemma NameShape(p: Placeholder)
    ensures |Name(p)| > 1 && Name(p)[0] == '{' && Name(p)[|Name(p)| - 1] == '}'
    ensures forall i :: 0 < i < |Name(p)| ==> Name(p)[i] != '{'
    ensures forall i :: 0 <= i < |Name(p)| - 1 ==> Name(p)[i] != '}'
  {
  }

  lemma NameLength(p: Placeholder, q: Placeholder)
    requires |Name(p)| == |Name(q)|
    ensures p == q
  {
  }

  /** At most one alternative matches at a position. */
  lemma MatchIs(s: string, p: Placeholder)
    requires HasPrefix(s, Name(p))
    ensures Match(s) == Some(p)
  {
    assert Match(s).Some? by {
      match p { case ShopName => case OrderCode => case CustomerUrl => case Amount => case DeliveryDate => }
    }
    var q := Match(s).value;
    NameShape(p);
    NameShape(q);
    assert s[|Name(p)| - 1] == Name(p)[|Name(p)| - 1];
    assert s[|Name(q)| - 1] == Name(q)[|Name(q)| - 1];
    NameLength(p, q);
  }

  /** No match straddles the start of a placeholder: the text before it decides alone. */
  lemma MatchBefore(a: string, p: Placeholder, b: string)
    requires a != ""
    ensures Match(a + (Name(p) + b)) == Match(a)
  {
    var s := a + (Name(p) + b);
    NameShape(p);
    if Match(s).Some? {
      var q := Match(s).value;
      NameShape(q);
      assert s[|a|] == '{';
      assert forall i :: 0 <= i < |Name(q)| ==> Name(q)[i] == s[..|Name(q)|][i] == s[i];
      if |Name(q)| > |a| {
        assert false;
      }
      assert a[..|Name(q)|] == s[..|Name(q)|];
      MatchIs(a, q);
    } else if Match(a).Some? {
      var q := Match(a).value;
      assert s[..|Name(q)|] == a[..|Name(q)|];
      MatchIs(s, q);
    }
  }

  // ---------------------------------------------------------------- the rendering theorem

  lemma RenderHole(p: Placeholder, b: string, v: Values)
    ensures Render(Name(p) + b, v) == ValueOf(v, p) + Render(b, v)
  {
    var s := Name(p) + b;
    assert HasPrefix(s, Name(p));
    MatchIs(s, p);
    hide Name, ValueOf;
    assert s[|Name(p)|..] == b;
  }

  /** Every occurrence of a placeholder is replaced, wherever it stands and whatever surrounds it;
      the two sides are rendered on their own, so substituted text is never scanned again. */
  lemma {:induction false} EveryPlaceholderIsReplaced(a: string, p: Placeholder, b: string, v: Values)
    ensures Render(a + (Name(p) + b), v) == Render(a, v) + (ValueOf(v, p) + Render(b, v))
    decreases |a|
  {
    hide Name, ValueOf, Match;
    RenderHole(p, b, v);
    var tail := Name(p) + b;
    if a == "" {
      assert a + tail == tail;
    } else {
      MatchBefore(a, p, b);
      var n := match Match(a) case Some(q) => |Name(q)| case None => 1;
      EveryPlaceholderIsReplaced(a[n..], p, b, v);
      assert (a + tail)[n..] == a[n..] + tail;
    }
  }

  /** Text in which no placeholder matches anywhere. */
  predicate Plain(text: string) {
    forall i :: 0 <= i <= |text| ==> Match(text[i..]) == None
  }

  lemma {:induction false} PlainIsUnchanged(text: string, v: Values)
    requires Plain(text)
    ensures Render(text, v) == text
  {
    if text != "" {
      assert text[0..] == text;
      assert forall i :: 0 <= i <= |text| - 1 ==> text[1..][i..] == text[i + 1..];
      PlainIsUnchanged(text[1..], v);
    }
  }

  /** A template cut at its placeholders: plain text before each one, and plain text at the end. */
  datatype Cut = End(text: string) | Hole(text: string, p: Placeholder, rest: Cut)

  function Join(c: Cut): string {
    match c
    case End(text) => text
    case Hole(text, p, rest) => text + (Name(p) + Join(rest))
  }

  predicate PlainCut(c: Cut) {
    Plain(c.text) && (c.Hole? ==> PlainCut(c.rest))
  }

  function Fill(c: Cut, v: Values): string {
    match c
    case End(text) => text
    case Hole(text, p, rest) => text + (ValueOf(v, p) + Fill(rest, v))
  }

  /** Rendering fills the holes and nothing else. */
  lemma {:induction false} RenderFillsHoles(c: Cut, v: Values)
    requires PlainCut(c)
    ensures Render(Join(c), v) == Fill(c, v)
  {
    PlainIsUnchanged(c.text, v);
    if c.Hole? {
      RenderFillsHoles(c.rest, v);
      EveryPlaceholderIsReplaced(c.text, c.p, Join(c.rest), v);
    }
  }

  /** Cut a template, with `read` the plain text already passed. */
  function CutAt(read: string, template: string): Cut
    decreases |template|
  {
    if template == "" then End(read)
    else match Match(template)
      case Some(p) => Hole(read, p, CutAt("", template[|Name(p)|..]))
      case None => CutAt(read + [template[0]], template[1..])
  }

  /** No placeholder matches inside read, even with the text still to come. */
  predicate Passed(read: string, template: string) {
    forall i :: 0 <= i < |read| ==> Match((read + template)[i..]) == None
  }

  lemma PassedIsPlain(read: string, template: string)
    requires Passed(read, template)
    ensures Plain(read)
  {
    forall i | 0 <= i <= |read| ensures Match(read[i..]) == None {
      if Match(read[i..]).Some? {
        var p := Match(read[i..]).value;
        NameShape(p);
        assert (read + template)[i..][..|Name(p)|] == read[i..][..|Name(p)|];
        MatchIs((read + template)[i..], p);
      }
    }
  }

  lemma PassedOn(read: string, template: string)
    requires Passed(read, template) && template != "" && Match(template) == None
    ensures Passed(read + [template[0]], template[1..])
    ensures (read + [template[0]]) + template[1..] == read + template
  {
    hide Match;
    assert (read + [template[0]]) + template[1..] == read + template;
    assert (read + template)[|read|..] == template;
  }

  lemma {:induction false} CutFacts(read: string, template: string)
    requires Passed(read, template)
    ensures PlainCut(CutAt(read, template)) && Join(CutAt(read, template)) == read + template
    decreases |template|
  {
    PassedIsPlain(read, template);
    hide Match, Name, Plain;
    if template != "" {
      match Match(template)
      case Some(p) =>
        CutFacts("", template[|Name(p)|..]);
        assert "" + template[|Name(p)|..] == template[|Name(p)|..];
        assert template == Name(p) + template[|Name(p)|..];
      case None =>
        PassedOn(read, template);
        hide Passed;
        CutFacts(read + [template[0]], template[1..]);
    }
  }

  /** Every template can be cut, so RenderFillsHoles describes the rendering of every template. */
  lemma EveryTemplateCuts(template: string)
    ensures exists c: Cut :: PlainCut(c) && Join(c) == template
  {
    CutFacts("", template);
    assert "" + template == template;
  }

  // ---------------------------------------------------------------- the customer's link

  lemma ContainsMiddle(a: string, part: string, b: string)
    ensures Contains(a + (part + b), part)
  {
    assert (a + (part + b))[|a|..] == part + b;
    assert (part + b)[..|part|] == part;
  }

  lemma RenderedPart(a: string, b: string, v: Values)
    ensures Contains(Render(a + (Name(CustomerUrl) + b), v), v.customerUrl)
  {
    hide Render, Name;
    EveryPlaceholderIsReplaced(a, CustomerUrl, b, v);
    ContainsMiddle(Render(a, v), v.customerUrl, Render(b, v));
  }

  lemma AroundPart(s: string, part: string) returns (a: string, b: string)
    requires Contains(s, part)
    ensures s == a + (part + b)
  {
    var i :| 0 <= i <= |s| && HasPrefix(s[i..], part);
    a, b := s[..i], s[i + |part|..];
  }

  lemma DefaultHasTheLink()
    ensures DEFAULT_TEMPLATE == DEFAULT_HEAD + (Name(CustomerUrl) + DEFAULT_TAIL)
    ensures DEFAULT_TEMPLATE != ""
  {
  }

  /** Whatever template the server accepts, the message carries the order's link. */
  lemma AcceptedTemplatesCarryTheLink(stored: string, input: Option<string>, v: Values)
    requires SaveTemplate(stored, input).Some?
    ensures Contains(ShareMessage(SaveTemplate(stored, input).value, v), v.customerUrl)
  {
    var template := SaveTemplate(stored, input).value;
    hide Render, Name, Contains, HasPrefix;
    if template == "" {
      DefaultHasTheLink();
      RenderedPart(DEFAULT_HEAD, DEFAULT_TAIL, v);
    } else {
      var a, b := AroundPart(template, Name(CustomerUrl));
      RenderedPart(a, b, v);
    }
  }

  /** A stored template is the one the page renders; only the empty one means the default. */
  lemma MessageUsesTheStoredTemplate(c: Cut, v: Values)
    requires PlainCut(c)
    ensures Join(c) != "" ==> ShareMessage(Join(c), v) == Fill(c, v)
    ensures ShareMessage("", v) == Render(DEFAULT_HEAD, v) + (v.customerUrl + Render(DEFAULT_TAIL, v))
  {
    RenderFillsHoles(c, v);
    DefaultHasTheLink();
    EveryPlaceholderIsReplaced(DEFAULT_HEAD, CustomerUrl, DEFAULT_TAIL, v);
    hide Render, Fill, Join, PlainCut;
  }

  /** The five placeholders by name. */
  lemma PlaceholdersByName(v: Values)
    ensures Render("{shopName}", v) == v.shopName && Render("{orderCode}", v) == v.orderCode
    ensures Render("{customerUrl}", v) == v.customerUrl && Render("{amount}", v) == v.amount
    ensures Render("{deliveryDate}", v) == v.deliveryDate
  {
    Alone(ShopName, v);
    Alone(OrderCode, v);
    Alone(CustomerUrl, v);
    Alone(Amount, v);
    Alone(DeliveryDate, v);
    hide Render;
  }

  lemma Alone(p: Placeholder, v: Values)
    ensures Render(Name(p), v) == ValueOf(v, p)
  {
    RenderHole(p, "", v);
    hide Name, ValueOf;
    assert Name(p) + "" == Name(p);
    assert ValueOf(v, p) + "" == ValueOf(v, p);
  }
}
