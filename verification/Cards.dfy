/** Payment cards: a shop keeps several cards and shows customers one of them, whose number, IBAN
    and instructions are copied onto the shop row. Every handler runs under the shop's row lock or
    inserts a single row, so each is one step. */
module Cards {
  import opened Wrappers
  import opened Text
  import opened Orders

  datatype Card = Card(shop: ShopId, payment: Payment)

  /** The shop rows' payment columns, the card table and the access table. */
  datatype Bank = Bank(shops: map<ShopId, Payment>, cards: map<nat, Card>, access: set<(AdminId, ShopId)>)

  // ---------------------------------------------------------------- input

  datatype CardInput = CardInput(cardNumber: string, iban: string, instructions: string)

  predicate ValidInstructions(s: string) { 0 < |s| <= 1000 }

  /** The card as it will be stored, if all three fields are valid. */
  function ReadCard(input: CardInput): Option<Payment> {
    match (NormalizeCard(input.cardNumber), NormalizeIBAN(input.iban))
    case (Some(number), Some(iban)) =>
      var instructions := Trim(input.instructions);
      if ValidInstructions(instructions) then Some(Payment(number, iban, instructions)) else None
    case _ => None
  }

  // ---------------------------------------------------------------- the four handlers as functions

  predicate HasShop(b: Bank, admin: AdminId) {
    exists p :: p in b.access && p.0 == admin
  }

  /** createSelfServiceShop; profileOk stands for the checks of the name and the Instagram handle. */
  function CreateShop(b: Bank, admin: AdminId, hasMobile: bool, profileOk: bool, input: CardInput, shop: ShopId,
      id: nat): Outcome<Bank> {
    match ReadCard(input)
    case None => Rejected(BadRequest)
    case Some(payment) =>
      if !profileOk then Rejected(BadRequest)
      else if !hasMobile then Rejected(Forbidden)
      else if HasShop(b, admin) then Rejected(Conflict)
      else Done(Bank(b.shops[shop := payment], b.cards[id := Card(shop, payment)], b.access + {(admin, shop)}))
  }

  predicate NumberTaken(b: Bank, shop: ShopId, number: string) {
    exists c :: c in b.cards && b.cards[c].shop == shop && b.cards[c].payment.card == number
  }

  function AddCard(b: Bank, shop: ShopId, input: CardInput, id: nat): Outcome<Bank> {
    match ReadCard(input)
    case None => Rejected(BadRequest)
    case Some(payment) =>
      if NumberTaken(b, shop, payment.card) then Rejected(Conflict)
      else Done(b.(cards := b.cards[id := Card(shop, payment)]))
  }

  /** A card of the shop; 404 otherwise. */
  predicate Owned(b: Bank, shop: ShopId, id: nat) {
    id in b.cards && b.cards[id].shop == shop
  }

  predicate IsActive(b: Bank, id: nat) {
    id in b.cards && b.cards[id].shop in b.shops && b.shops[b.cards[id].shop].card == b.cards[id].payment.card
  }

  /** New instructions, and a new IBAN unless the field was omitted. */
  function Revise(p: Payment, instructions: string, iban: Option<string>): Payment {
    p.(instructions := instructions, iban := iban.GetOr(p.iban))
  }

  function UpdateCard(b: Bank, shop: ShopId, id: nat, instructions: string, iban: Option<string>): Outcome<Bank> {
    var text := Trim(instructions);
    var normalized := if iban.Some? then NormalizeIBAN(iban.value) else None;
    if !ValidInstructions(text) || (iban.Some? && normalized.None?) then Rejected(BadRequest)
    else if shop !in b.shops || !Owned(b, shop, id) then Rejected(NotFound)
    else
      var cards := b.cards[id := b.cards[id].(payment := Revise(b.cards[id].payment, text, normalized))];
      var shops := if IsActive(b, id) then b.shops[shop := Revise(b.shops[shop], text, normalized)] else b.shops;
      Done(b.(cards := cards, shops := shops))
  }

  function Activate(b: Bank, shop: ShopId, id: nat): Outcome<Bank> {
    if shop !in b.shops || !Owned(b, shop, id) then Rejected(NotFound)
    else Done(b.(shops := b.shops[shop := b.cards[id].payment]))
  }

  // ---------------------------------------------------------------- what the handlers do, from their input

  predicate GoodInput(input: CardInput) {
    && NormalizeCard(input.cardNumber).Some? && NormalizeIBAN(input.iban).Some?
    && 1 <= |Trim(input.instructions)| <= 1000
  }

  /** The card a good input describes. */
  predicate Describes(input: CardInput, p: Payment) {
    && NormalizeCard(input.cardNumber) == Some(p.card) && NormalizeIBAN(input.iban) == Some(p.iban)
    && p.instructions == Trim(input.instructions)
  }

  /** A new shop shows its first card and is the seller's; it needs a good input, a known mobile number,
      and no earlier shop of that seller. */
  lemma CreateShopIsDecided(b: Bank, admin: AdminId, hasMobile: bool, profileOk: bool, input: CardInput, shop: ShopId,
      id: nat)
    ensures match CreateShop(b, admin, hasMobile, profileOk, input, shop, id)
            case Rejected(BadRequest) => !GoodInput(input) || !profileOk
            case Rejected(Forbidden) => GoodInput(input) && profileOk && !hasMobile
            case Rejected(reason) =>
              reason == Conflict && GoodInput(input) && profileOk && hasMobile
              && exists other :: (admin, other) in b.access
            case Done(after) =>
              && GoodInput(input) && profileOk && hasMobile && (forall other :: (admin, other) !in b.access)
              && shop in after.shops && Describes(input, after.shops[shop])
              && after.shops == b.shops[shop := after.shops[shop]]
              && after.cards == b.cards[id := Card(shop, after.shops[shop])]
              && after.access == b.access + {(admin, shop)}
  {
    hide NormalizeCard, NormalizeIBAN, Trim;
    if p :| p in b.access && p.0 == admin { assert p == (admin, p.1); }
  }

  /** A new card is stored as its input describes it unless the shop has one with that number; the shop
      goes on showing the card it showed. */
  lemma AddCardIsDecided(b: Bank, shop: ShopId, input: CardInput, id: nat)
    requires id !in b.cards
    ensures var taken := exists c :: c in b.cards && b.cards[c].shop == shop
                                     && NormalizeCard(input.cardNumber) == Some(b.cards[c].payment.card);
            match AddCard(b, shop, input, id)
            case Rejected(reason) => reason == if GoodInput(input) then Conflict else BadRequest
            case Done(after) =>
              && GoodInput(input) && !taken
              && id in after.cards && after.cards[id].shop == shop && Describes(input, after.cards[id].payment)
              && after.cards == b.cards[id := after.cards[id]]
              && after.shops == b.shops && after.access == b.access
    ensures GoodInput(input) && AddCard(b, shop, input, id).Rejected? ==>
              exists c :: c in b.cards && b.cards[c].shop == shop
                          && NormalizeCard(input.cardNumber) == Some(b.cards[c].payment.card)
  {
    hide NormalizeCard, NormalizeIBAN, Trim;
  }

  /** An edit stores the trimmed instructions and, when one is sent, the normalised IBAN, on the card and
      on the shop row that shows it; numbers, other cards and other shops stay as they are. */
  lemma UpdateCardIsDecided(b: Bank, shop: ShopId, id: nat, instructions: string, iban: Option<string>)
    ensures var good := 1 <= |Trim(instructions)| <= 1000 && (iban.Some? ==> NormalizeIBAN(iban.value).Some?);
            var owned := shop in b.shops && id in b.cards && b.cards[id].shop == shop;
            match UpdateCard(b, shop, id, instructions, iban)
            case Rejected(reason) => !(good && owned) && reason == if good then NotFound else BadRequest
            case Done(after) =>
              && good && owned && after.access == b.access
              && id in after.cards && after.cards == b.cards[id := after.cards[id]]
              && after.cards[id].shop == shop
                  && EditedPayment(b.cards[id].payment, after.cards[id].payment, instructions, iban)
              && shop in after.shops && after.shops == b.shops[shop := after.shops[shop]]
              && if b.shops[shop].card == b.cards[id].payment.card
                 then EditedPayment(b.shops[shop], after.shops[shop], instructions, iban)
                 else after.shops[shop] == b.shops[shop]
  {
    hide NormalizeIBAN, Trim;
  }

  predicate EditedPayment(was: Payment, now: Payment, instructions: string, iban: Option<string>) {
    && now.card == was.card && now.instructions == Trim(instructions)
    && (iban == None ==> now.iban == was.iban)
    && (iban.Some? ==> NormalizeIBAN(iban.value) == Some(now.iban))
  }

  // ---------------------------------------------------------------- the tables in place

  class CardTables {
    var shops: map<ShopId, Payment>
    var cards: map<nat, Card>
    var access: set<(AdminId, ShopId)>

    function Contents(): Bank
      reads this
    {
      Bank(shops, cards, access)
    }

    constructor ()
      ensures Contents() == Bank(map[], map[], {})
    {
      shops, cards, access := map[], map[], {};
    }

    method CreateSelfServiceShop(admin: AdminId, hasMobile: bool, profileOk: bool, input: CardInput, shop: ShopId,
        id: nat)
      returns (outcome: Outcome<()>)
      requires shop !in shops && id !in cards
      modifies this
      ensures match CreateShop(old(Contents()), admin, hasMobile, profileOk, input, shop, id)
              case Rejected(reason) => outcome == Rejected(reason) && Contents() == old(Contents())
              case Done(after) => outcome == Done(()) && Contents() == after
    {
      var payment := ReadCard(input);
      if payment.None? || !profileOk {
        return Rejected(BadRequest);
      }
      if !hasMobile {
        return Rejected(Forbidden);
      }
      if HasShop(Contents(), admin) {
        return Rejected(Conflict);
      }
      shops := shops[shop := payment.value];
      access := access + {(admin, shop)};
      cards := cards[id := Card(shop, payment.value)];
      return Done(());
    }

    method CreateCard(shop: ShopId, input: CardInput, id: nat) returns (outcome: Outcome<()>)
      requires id !in cards
      modifies this
      ensures match AddCard(old(Contents()), shop, input, id)
              case Rejected(reason) => outcome == Rejected(reason) && Contents() == old(Contents())
              case Done(after) => outcome == Done(()) && Contents() == after
    {
      var payment := ReadCard(input);
      if payment.None? {
        return Rejected(BadRequest);
      }
      if NumberTaken(Contents(), shop, payment.value.card) {
        return Rejected(Conflict);
      }
      cards := cards[id := Card(shop, payment.value)];
      return Done(());
    }

    /** The outcome carries the active flag of the response. */
    method UpdatePaymentCard(shop: ShopId, id: nat, instructions: string, iban: Option<string>)
        returns (outcome: Outcome<bool>)
      modifies this
      ensures match UpdateCard(old(Contents()), shop, id, instructions, iban)
              case Rejected(reason) => outcome == Rejected(reason) && Contents() == old(Contents())
              case Done(after) => outcome == Done(IsActive(after, id)) && Contents() == after
    {
      var text := Trim(instructions);
      if !ValidInstructions(text) {
        return Rejected(BadRequest);
      }
      var normalized := None;
      if iban.Some? {
        normalized := NormalizeIBAN(iban.value);
        if normalized.None? {
          return Rejected(BadRequest);
        }
      }
      if shop !in shops || id !in cards || cards[id].shop != shop {
        return Rejected(NotFound);
      }
      var card := cards[id];
      var active := shops[shop].card == card.payment.card;
      card := card.(payment := card.payment.(instructions := text));
      if normalized.Some? {
        card := card.(payment := card.payment.(iban := normalized.value));
      }
      cards := cards[id := card];
      if active {
        var row := shops[shop].(instructions := text);
        if normalized.Some? {
          row := row.(iban := normalized.value);
        }
        shops := shops[shop := row];
      }
      return Done(active);
    }

    method ActivatePaymentCard(shop: ShopId, id: nat) returns (outcome: Outcome<()>)
      modifies this
      ensures match Activate(old(Contents()), shop, id)
              case Rejected(reason) => outcome == Rejected(reason) && Contents() == old(Contents())
              case Done(after) => outcome == Done(()) && Contents() == after
    {
      if shop !in shops || id !in cards || cards[id].shop != shop {
        return Rejected(NotFound);
      }
      shops := shops[shop := cards[id].payment];
      return Done(());
    }
  }

  // ---------------------------------------------------------------- every sequence of operations

  datatype Op =
    | NewShop(admin: AdminId, hasMobile: bool, profileOk: bool, input: CardInput, shop: ShopId, id: nat)
    | NewCard(shop: ShopId, input: CardInput, id: nat)
    | Edit(shop: ShopId, id: nat, instructions: string, iban: Option<string>)
    | Switch(shop: ShopId, id: nat)

  /** Ids come from sequences, so new ones are unused; a card handler runs for a shop that exists. */
  predicate Possible(b: Bank, op: Op) {
    match op
    case NewShop(_, _, _, _, shop, id) => shop !in b.shops && id !in b.cards
    case NewCard(shop, _, id) => shop in b.shops && id !in b.cards
    case _ => true
  }

  function Try(b: Bank, op: Op): Outcome<Bank> {
    match op
    case NewShop(admin, hasMobile, profileOk, input, shop, id) =>
        CreateShop(b, admin, hasMobile, profileOk, input, shop, id)
    case NewCard(shop, input, id) => AddCard(b, shop, input, id)
    case Edit(shop, id, instructions, iban) => UpdateCard(b, shop, id, instructions, iban)
    case Switch(shop, id) => Activate(b, shop, id)
  }

  function Apply(b: Bank, op: Op): Bank {
    if !Possible(b, op) then b
    else match Try(b, op)
      case Rejected(_) => b
      case Done(after) => after
  }

  function Run(ops: seq<Op>): Bank {
    if ops == [] then Bank(map[], map[], {}) else Apply(Run(ops[..|ops| - 1]), ops[|ops| - 1])
  }

  // ---------------------------------------------------------------- the projection

  predicate Canonical(p: Payment) {
    |p.card| == 16 && AllDigits(p.card) && (p.iban == "" || IsIBAN(p.iban)) && ValidInstructions(p.instructions)
  }

  predicate SameNumber(a: Card, b: Card) { a.shop == b.shop && a.payment.card == b.payment.card }

  predicate CardsOk(b: Bank) {
    && (forall c :: c in b.cards ==> b.cards[c].shop in b.shops && Canonical(b.cards[c].payment))
    && (forall c, d :: c in b.cards && d in b.cards && SameNumber(b.cards[c], b.cards[d]) ==> c == d)
  }

  /** The shop row is a copy of one of the shop's cards. */
  ghost predicate Shown(b: Bank, shop: ShopId) {
    shop in b.shops && exists c :: Owned(b, shop, c) && b.cards[c].payment == b.shops[shop]
  }

  ghost predicate BankOk(b: Bank) {
    && CardsOk(b)
    && (forall shop :: shop in b.shops ==> Shown(b, shop))
    && (forall p, q :: p in b.access && q in b.access && p.0 == q.0 ==> p == q)
  }

  lemma ReadCardCanonical(input: CardInput)
    requires ReadCard(input).Some?
    ensures Canonical(ReadCard(input).value)
  {
    ByteLengthOfDigits(NormalizeDigits(input.cardNumber));
  }

  /** A shop whose row and cards were left alone still shows one of them. */
  lemma ShownStays(b: Bank, after: Bank, shop: ShopId)
    requires Shown(b, shop) && shop in after.shops && after.shops[shop] == b.shops[shop]
    requires forall c :: Owned(b, shop, c) ==> c in after.cards && after.cards[c] == b.cards[c]
    ensures Shown(after, shop)
  {
    var c: nat :| Owned(b, shop, c) && b.cards[c].payment == b.shops[shop];
    assert Owned(after, shop, c);
  }

  /** A new card under a number the shop does not use. */
  lemma CardAdded(b: Bank, shop: ShopId, payment: Payment, id: nat, shops: map<ShopId, Payment>)
    requires CardsOk(b) && id !in b.cards && Canonical(payment)
    requires b.shops.Keys <= shops.Keys && shop in shops && !NumberTaken(b, shop, payment.card)
    ensures CardsOk(b.(cards := b.cards[id := Card(shop, payment)], shops := shops))
  {
    hide Canonical;
  }

  lemma CreateShopKeeps(b: Bank, admin: AdminId, hasMobile: bool, profileOk: bool, input: CardInput, shop: ShopId,
      id: nat)
    requires BankOk(b) && shop !in b.shops && id !in b.cards
    requires CreateShop(b, admin, hasMobile, profileOk, input, shop, id).Done?
    ensures BankOk(CreateShop(b, admin, hasMobile, profileOk, input, shop, id).value)
  {
    hide ReadCard, Canonical;
    ReadCardCanonical(input);
    var payment := ReadCard(input).value;
    var after := CreateShop(b, admin, hasMobile, profileOk, input, shop, id).value;
    CardAdded(b, shop, payment, id, after.shops);
    hide CardsOk;
    forall s | s in after.shops ensures Shown(after, s) {
      if s == shop {
        assert Owned(after, shop, id);
      } else {
        ShownStays(b, after, s);
      }
    }
  }

  lemma AddCardKeeps(b: Bank, shop: ShopId, input: CardInput, id: nat)
    requires BankOk(b) && shop in b.shops && id !in b.cards && AddCard(b, shop, input, id).Done?
    ensures BankOk(AddCard(b, shop, input, id).value)
  {
    hide ReadCard, Canonical;
    ReadCardCanonical(input);
    var after := AddCard(b, shop, input, id).value;
    CardAdded(b, shop, ReadCard(input).value, id, b.shops);
    hide CardsOk;
    forall s | s in after.shops ensures Shown(after, s) {
      ShownStays(b, after, s);
    }
  }

  lemma RevisedCanonical(p: Payment, instructions: string, iban: Option<string>)
    requires Canonical(p) && ValidInstructions(instructions)
    requires iban.Some? ==> iban.value == "" || IsIBAN(iban.value)
    ensures Canonical(Revise(p, instructions, iban))
  {
  }

  lemma CardReplaced(b: Bank, id: nat, payment: Payment, shops: map<ShopId, Payment>)
    requires CardsOk(b) && id in b.cards && Canonical(payment) && payment.card == b.cards[id].payment.card
    requires b.shops.Keys <= shops.Keys
    ensures CardsOk(b.(cards := b.cards[id := b.cards[id].(payment := payment)], shops := shops))
  {
    hide Canonical;
    var after := b.(cards := b.cards[id := b.cards[id].(payment := payment)], shops := shops);
    assert forall c, d :: c in b.cards && d in b.cards ==>
        (SameNumber(after.cards[c], after.cards[d]) <==> SameNumber(b.cards[c], b.cards[d]));
  }

  /** The row is revised exactly when the shop shows this card, and then like the card. */
  lemma UpdateCardKeeps(b: Bank, shop: ShopId, id: nat, instructions: string, iban: Option<string>)
    requires BankOk(b) && UpdateCard(b, shop, id, instructions, iban).Done?
    ensures BankOk(UpdateCard(b, shop, id, instructions, iban).value)
  {
    hide Trim, IsIBAN, Canonical;
    var after := UpdateCard(b, shop, id, instructions, iban).value;
    RevisedCanonical(b.cards[id].payment, Trim(instructions), if iban.Some? then NormalizeIBAN(iban.value) else None);
    hide NormalizeIBAN, ValidInstructions;
    CardReplaced(b, id, after.cards[id].payment, after.shops);
    forall s | s in after.shops && s != shop ensures Shown(after, s) {
      ShownStays(b, after, s);
    }
    var c: nat :| Owned(b, shop, c) && b.cards[c].payment == b.shops[shop];
    assert IsActive(b, id) <==> c == id by {
      assert IsActive(b, id) ==> SameNumber(b.cards[c], b.cards[id]);
    }
    hide CardsOk, IsActive;
    assert Owned(after, shop, c) && after.cards[c].payment == after.shops[shop];
  }

  lemma ActivateKeeps(b: Bank, shop: ShopId, id: nat)
    requires BankOk(b) && Activate(b, shop, id).Done?
    ensures BankOk(Activate(b, shop, id).value)
  {
    hide Canonical;
    var after := Activate(b, shop, id).value;
    forall s | s in after.shops ensures Shown(after, s) {
      if s == shop {
        assert Owned(after, shop, id);
      } else {
        ShownStays(b, after, s);
      }
    }
  }

  lemma {:induction false} RunKeeps(ops: seq<Op>)
    ensures BankOk(Run(ops))
  {
    if ops != [] {
      var b, op := Run(ops[..|ops| - 1]), ops[|ops| - 1];
      RunKeeps(ops[..|ops| - 1]);
      hide BankOk, CreateShop, AddCard, UpdateCard, Activate;
      if Possible(b, op) && Try(b, op).Done? {
        match op
        case NewShop(admin, hasMobile, profileOk, input, shop, id) =>
            CreateShopKeeps(b, admin, hasMobile, profileOk, input, shop, id);
        case NewCard(shop, input, id) => AddCardKeeps(b, shop, input, id);
        case Edit(shop, id, instructions, iban) => UpdateCardKeeps(b, shop, id, instructions, iban);
        case Switch(shop, id) => ActivateKeeps(b, shop, id);
      }
    }
  }

  ghost function ActiveCards(b: Bank, shop: ShopId): set<nat> {
    set c | c in b.cards && b.cards[c].shop == shop && IsActive(b, c)
  }

  /** After any operations: card numbers are distinct within a shop, exactly one card has the shop's
      number, and the shop's IBAN and instructions are that card's. */
  lemma ShopShowsExactlyOneCard(ops: seq<Op>, shop: ShopId)
    requires shop in Run(ops).shops
    ensures var b := Run(ops);
            && |ActiveCards(b, shop)| == 1
            && (forall c :: c in ActiveCards(b, shop) ==> b.cards[c].payment == b.shops[shop])
            && (forall c, d :: Owned(b, shop, c) && Owned(b, shop, d) && SameNumber(b.cards[c], b.cards[d]) ==> c == d)
            && Canonical(b.shops[shop])
  {
    RunKeeps(ops);
    hide Canonical;
    var b := Run(ops);
    assert Shown(b, shop);
    var c: nat :| Owned(b, shop, c) && b.cards[c].payment == b.shops[shop];
    assert ActiveCards(b, shop) == {c};
  }

  /** Switching makes exactly that card active and leaves all cards as they are, so switching back
      restores the tables. */
  lemma SwitchingBackRestores(ops: seq<Op>, shop: ShopId, c: nat, d: nat)
    requires var b := Run(ops); shop in b.shops && Owned(b, shop, c) && IsActive(b, c) && Owned(b, shop, d)
    ensures var there := Apply(Run(ops), Switch(shop, d));
            && ActiveCards(there, shop) == {d} && there.cards == Run(ops).cards
            && Apply(there, Switch(shop, c)) == Run(ops)
  {
    ShopShowsExactlyOneCard(ops, shop);
    hide Canonical, Run;
    var b := Run(ops);
    var there := Apply(b, Switch(shop, d));
    assert c in ActiveCards(b, shop);
    assert ActiveCards(there, shop) == {d};
    assert Apply(there, Switch(shop, c)).shops == b.shops;
  }
}
