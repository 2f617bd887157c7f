/** Order lines and the checked order total. */
module Pricing {
  import opened Wrappers

  /** One requested line: a product id and a quantity. */
  datatype Line = Line(product: nat, quantity: int)

  datatype Product = Product(id: nat, shop: nat, price: int, active: bool)

  const MAX_INT64: int := 0x7FFF_FFFF_FFFF_FFFF
  /** The largest price products.go accepts. */
  const MAX_SAFE_INTEGER: int := 9_007_199_254_740_991
  newtype int64 = x: int | -0x8000_0000_0000_0000 <= x <= 0x7FFF_FFFF_FFFF_FFFF

  // ---------------------------------------------------------------- duplicate detection

  predicate LineOk(line: Line) { line.product != 0 && 1 <= line.quantity <= 99 }

  predicate AcceptableLines(lines: seq<Line>) {
    && (forall i :: 0 <= i < |lines| ==> LineOk(lines[i]))
    && (forall i, j :: 0 <= i < j < |lines| ==> lines[i].product != lines[j].product)
  }

  function Products(lines: seq<Line>): set<nat> {
    set i | 0 <= i < |lines| :: lines[i].product
  }

  /** The quantity of each product, the last line winning. */
  function Quantities(lines: seq<Line>): map<nat, int> {
    if lines == [] then map[]
    else
      var last := |lines| - 1;
      Quantities(lines[..last])[lines[last].product := lines[last].quantity]
  }

  lemma {:induction false} QuantitiesKeys(lines: seq<Line>)
    ensures Quantities(lines).Keys == Products(lines)
  {
    if lines != [] {
      var last := |lines| - 1;
      QuantitiesKeys(lines[..last]);
      assert Products(lines) == Products(lines[..last]) + {lines[last].product};
    }
  }

  /** On acceptable lines the map gives every line its own quantity, and nothing else. */
  lemma {:induction false} QuantitiesExact(lines: seq<Line>)
    requires AcceptableLines(lines)
    ensures Quantities(lines).Keys == Products(lines)
    ensures forall i :: 0 <= i < |lines| ==> Quantities(lines)[lines[i].product] == lines[i].quantity
    ensures forall p :: p in Quantities(lines) ==> 1 <= Quantities(lines)[p] <= 99
  {
    QuantitiesKeys(lines);
    if lines != [] {
      var last := |lines| - 1;
      var front := lines[..last];
      QuantitiesExact(front);
      forall i | 0 <= i < |lines| ensures Quantities(lines)[lines[i].product] == lines[i].quantity {
        if i < last {
          assert front[i] == lines[i];
        }
      }
    }
  }

  lemma NextLine(lines: seq<Line>, i: nat)
    requires i < |lines| && AcceptableLines(lines[..i])
    ensures AcceptableLines(lines[..i + 1]) <==> LineOk(lines[i]) && lines[i].product !in Products(lines[..i])
  {
    var less, more := lines[..i], lines[..i + 1];
    assert more == less + [lines[i]];
    if lines[i].product in Products(less) {
      var j :| 0 <= j < i && less[j].product == lines[i].product;
      assert more[j].product == more[i].product;
    }
  }

  lemma AcceptablePrefix(lines: seq<Line>, i: nat)
    requires i <= |lines| && AcceptableLines(lines)
    ensures AcceptableLines(lines[..i])
  {
  }

  /** The validation loop: the quantity map doubles as the set of products already seen. */
  method CheckLines(lines: seq<Line>) returns (r: Option<map<nat, int>>)
    ensures r.Some? <==> AcceptableLines(lines)
    ensures r.Some? ==> r.value == Quantities(lines)
  {
    var quantities: map<nat, int> := map[];
    for i := 0 to |lines|
      invariant AcceptableLines(lines[..i]) && quantities == Quantities(lines[..i])
    {
      var item := lines[i];
      QuantitiesExact(lines[..i]);
      NextLine(lines, i);
      if AcceptableLines(lines) { AcceptablePrefix(lines, i + 1); }
      hide AcceptableLines;
      if item.product == 0 || item.quantity < 1 || item.quantity > 99
         || (if item.product in quantities then quantities[item.product] else 0) != 0 {
        return None;
      }
      assert lines[..i + 1][..i] == lines[..i];
      quantities := quantities[item.product := item.quantity];
    }
    assert lines[..|lines|] == lines;
    r := Some(quantities);
  }

  // ---------------------------------------------------------------- loaded products

  function Ids(rows: seq<Product>): set<nat> {
    set i | 0 <= i < |rows| :: rows[i].id
  }

  predicate DistinctIds(rows: seq<Product>) {
    forall i, j :: 0 <= i < j < |rows| ==> rows[i].id != rows[j].id
  }

  lemma {:induction false} IdsCount(rows: seq<Product>)
    requires DistinctIds(rows)
    ensures |Ids(rows)| == |rows|
  {
    if rows != [] {
      var last := |rows| - 1;
      IdsCount(rows[..last]);
      assert Ids(rows) == Ids(rows[..last]) + {rows[last].id};
    }
  }

  lemma {:induction false} ProductsCount(lines: seq<Line>)
    requires AcceptableLines(lines)
    ensures |Products(lines)| == |lines|
  {
    if lines != [] {
      var last := |lines| - 1;
      ProductsCount(lines[..last]);
      assert Products(lines) == Products(lines[..last]) + {lines[last].product};
    }
  }

  /** Equal counts mean the query loaded exactly the requested products. */
  lemma EqualCountsLoadEverything(lines: seq<Line>, rows: seq<Product>)
    requires AcceptableLines(lines) && DistinctIds(rows)
    requires Ids(rows) <= Products(lines)
    ensures |rows| == |lines| <==> Ids(rows) == Products(lines)
    ensures |rows| <= |lines|
  {
    IdsCount(rows);
    ProductsCount(lines);
    assert |Products(lines) - Ids(rows)| == |Products(lines)| - |Ids(rows)|;
  }

  // ---------------------------------------------------------------- the checked total

  function ExactTotal(rows: seq<Product>, quantities: map<nat, int>): int
    requires Ids(rows) <= quantities.Keys
  {
    if rows == [] then 0
    else
      var last := |rows| - 1;
      assert forall i :: 0 <= i < last ==> rows[..last][i] == rows[i];
      assert rows[last].id in Ids(rows);
      ExactTotal(rows[..last], quantities) + rows[last].price * quantities[rows[last].id]
  }

  /** Rows as the price check and the line check leave them. */
  predicate Priced(rows: seq<Product>, quantities: map<nat, int>) {
    && Ids(rows) <= quantities.Keys
    && (forall i :: 0 <= i < |rows| ==> 1 <= rows[i].price <= MAX_INT64)
    && (forall p :: p in quantities ==> 1 <= quantities[p] <= 99)
  }

  /** The total createOrder works with: absent when it does not fit 64 bits. */
  function CheckedTotal(rows: seq<Product>, quantities: map<nat, int>): Option<int>
    requires Ids(rows) <= quantities.Keys
  {
    if ExactTotal(rows, quantities) > MAX_INT64 then None else Some(ExactTotal(rows, quantities))
  }

  lemma PricedPrefix(rows: seq<Product>, quantities: map<nat, int>, n: nat)
    requires Priced(rows, quantities) && n <= |rows|
    ensures Priced(rows[..n], quantities)
  {
    IdsOfPart(rows, n);
  }

  lemma {:induction false} TotalGrows(rows: seq<Product>, quantities: map<nat, int>, n: nat)
    requires Priced(rows, quantities) && n <= |rows|
    ensures Priced(rows[..n], quantities)
    ensures 0 <= ExactTotal(rows[..n], quantities) <= ExactTotal(rows, quantities)
    decreases |rows| - n
  {
    PricedPrefix(rows, quantities, n);
    TotalNonNegative(rows[..n], quantities);
    if n == |rows| {
      assert rows[..n] == rows;
    } else {
      PricedPrefix(rows, quantities, n + 1);
      TotalGrows(rows, quantities, n + 1);
      TotalLast(rows[..n + 1], quantities);
      assert rows[..n + 1][..n] == rows[..n];
      assert rows[..n + 1][n] == rows[n];
      assert rows[n].price * quantities[rows[n].id] >= 0;
    }
  }

  lemma TotalLast(rows: seq<Product>, quantities: map<nat, int>)
    requires rows != [] && Ids(rows) <= quantities.Keys
    ensures Ids(rows[..|rows| - 1]) <= quantities.Keys && rows[|rows| - 1].id in quantities
    ensures ExactTotal(rows, quantities)
            == ExactTotal(rows[..|rows| - 1], quantities) + rows[|rows| - 1].price * quantities[rows[|rows| - 1].id]
  {
    IdsOfPart(rows, |rows| - 1);
    assert rows[|rows| - 1].id in Ids(rows);
  }

  lemma {:induction false} TotalNonNegative(rows: seq<Product>, quantities: map<nat, int>)
    requires Priced(rows, quantities)
    ensures ExactTotal(rows, quantities) >= 0
    decreases |rows|
  {
    if rows != [] {
      var last := |rows| - 1;
      assert forall i :: 0 <= i < last ==> rows[..last][i] == rows[i];
      assert Ids(rows[..last]) <= Ids(rows);
      assert rows[last].id in Ids(rows);
      TotalNonNegative(rows[..last], quantities);
    }
  }

  lemma DivisionGuard(price: int, quantity: int)
    requires price >= 1 && quantity >= 1
    ensures price > MAX_INT64 / quantity <==> price * quantity > MAX_INT64
  {
    var d := MAX_INT64 / quantity;
    assert d * quantity <= MAX_INT64 < (d + 1) * quantity;
    if price > d {
      assert price * quantity >= (d + 1) * quantity;
    } else {
      assert price * quantity <= d * quantity;
    }
  }

  /** The guarded loop, in 64-bit arithmetic throughout: it fails exactly when the exact sum
      does not fit, and returns the exact sum otherwise. */
  method Total(rows: seq<Product>, quantities: map<nat, int>) returns (r: Option<int64>)
    requires Priced(rows, quantities)
    ensures r.None? <==> ExactTotal(rows, quantities) > MAX_INT64
    ensures r.Some? ==> r.value as int == ExactTotal(rows, quantities)
  {
    var originalAmount: int64 := 0;
    for i := 0 to |rows|
      invariant originalAmount >= 0
      invariant Ids(rows[..i]) <= quantities.Keys
      invariant originalAmount as int == ExactTotal(rows[..i], quantities)
    {
      TotalGrows(rows, quantities, i + 1);
      assert rows[..i + 1][..i] == rows[..i];
      assert rows[i].id in Ids(rows);
      var quantity := quantities[rows[i].id] as int64;
      var price := rows[i].price as int64;
      DivisionGuard(price as int, quantity as int);
      if price > 0x7FFF_FFFF_FFFF_FFFF / quantity {
        return None;
      }
      var itemAmount := price * quantity;
      if originalAmount > 0x7FFF_FFFF_FFFF_FFFF - itemAmount {
        return None;
      }
      originalAmount := originalAmount + itemAmount;
    }
    assert rows[..|rows|] == rows;
    r := Some(originalAmount);
  }

  /** The sum does not depend on the order in which the query returned the rows. */
  lemma {:induction false} TotalIgnoresOrder(rows: seq<Product>, others: seq<Product>, quantities: map<nat, int>)
    requires Ids(rows) <= quantities.Keys && Ids(others) <= quantities.Keys
    requires multiset(rows) == multiset(others)
    ensures ExactTotal(rows, quantities) == ExactTotal(others, quantities)
    decreases |rows|
  {
    if rows == [] {
      assert |multiset(others)| == 0;
    } else {
      var last := |rows| - 1;
      var (k, rest) := MatchingRow(rows, others);
      IdsOfPart(rows, last);
      RemoveRow(others, k, quantities);
      TotalIgnoresOrder(rows[..last], rest, quantities);
    }
  }

  /** A row of the other enumeration equal to the last one of this, and what remains without it. */
  ghost function MatchingRow(rows: seq<Product>, others: seq<Product>): (r: (nat, seq<Product>))
    requires rows != [] && multiset(rows) == multiset(others)
    ensures r.0 < |others| && others[r.0] == rows[|rows| - 1]
    ensures r.1 == others[..r.0] + others[r.0 + 1..]
    ensures multiset(r.1) == multiset(rows[..|rows| - 1])
  {
    var last := |rows| - 1;
    assert rows[last] in multiset(others);
    var k :| 0 <= k < |others| && others[k] == rows[last];
    WithoutRow(others, k);
    WithoutRow(rows, last);
    assert rows[..last] + rows[last + 1..] == rows[..last];
    (k, others[..k] + others[k + 1..])
  }

  lemma WithoutRow(rows: seq<Product>, k: nat)
    requires k < |rows|
    ensures multiset(rows[..k] + rows[k + 1..]) == multiset(rows) - multiset{rows[k]}
  {
    assert rows == rows[..k] + ([rows[k]] + rows[k + 1..]);
  }

  lemma IdsOfPart(rows: seq<Product>, n: nat)
    requires n <= |rows|
    ensures Ids(rows[..n]) <= Ids(rows)
  {
    assert forall i :: 0 <= i < n ==> rows[..n][i] == rows[i];
  }

  lemma {:induction false} RemoveRow(rows: seq<Product>, k: nat, quantities: map<nat, int>)
    requires k < |rows| && Ids(rows) <= quantities.Keys
    ensures rows[k].id in quantities
    ensures Ids(rows[..k] + rows[k + 1..]) <= quantities.Keys
    ensures ExactTotal(rows, quantities)
            == ExactTotal(rows[..k] + rows[k + 1..], quantities) + rows[k].price * quantities[rows[k].id]
    decreases |rows|
  {
    var rest := rows[..k] + rows[k + 1..];
    assert rows[k].id in Ids(rows);
    assert forall i :: 0 <= i < |rest| ==> rest[i] == rows[if i < k then i else i + 1];
    assert forall i :: 0 <= i < |rest| ==> rest[i].id in Ids(rows);
    var last := |rows| - 1;
    if k == last {
      assert rest == rows[..last];
    } else {
      IdsOfPart(rows, last);
      RemoveRow(rows[..last], k, quantities);
      assert rows[..last][..k] + rows[..last][k + 1..] == rest[..|rest| - 1];
      assert rest[|rest| - 1] == rows[last];
    }
  }

  /** createOrder keeps the total only as the struck-through price of a discounted order. */
  function StoredOriginal(amount: int, total: int): (original: Option<int>)
    ensures original.Some? ==> original.value > amount
  {
    if amount < total then Some(total) else None
  }

  function UniformRows(n: nat, price: int): (rows: seq<Product>)
    ensures |rows| == n && forall i :: 0 <= i < n ==> rows[i] == Product(i + 1, 1, price, true)
  {
    seq(n, (i: nat) => Product(i + 1, 1, price, true))
  }

  lemma {:induction false} UniformTotal(n: nat, price: int, quantities: map<nat, int>)
    requires forall i :: 1 <= i <= n ==> i in quantities && quantities[i] == 99
    requires Ids(UniformRows(n, price)) <= quantities.Keys
    ensures ExactTotal(UniformRows(n, price), quantities) == n * (price * 99)
  {
    if n > 0 {
      assert UniformRows(n, price)[..n - 1] == UniformRows(n - 1, price);
      IdsOfPart(UniformRows(n, price), n - 1);
      UniformTotal(n - 1, price, quantities);
    }
  }

  /** The overflow branch is reachable: fifty lines of ninety-nine at the highest price. */
  lemma OverflowReachable()
    ensures exists rows: seq<Product>, quantities: map<nat, int> ::
              |rows| == 50 && Priced(rows, quantities) && DistinctIds(rows)
              && (forall i :: 0 <= i < |rows| ==> rows[i].price <= MAX_SAFE_INTEGER)
              && CheckedTotal(rows, quantities) == None
  {
    var rows := UniformRows(50, MAX_SAFE_INTEGER);
    var lines := seq(50, (i: nat) => Line(i + 1, 99));
    QuantitiesExact(lines);
    var quantities := Quantities(lines);
    forall p | 1 <= p <= 50 ensures p in quantities && quantities[p] == 99 {
      assert lines[p - 1] == Line(p, 99);
    }
    UniformTotal(50, MAX_SAFE_INTEGER, quantities);
    assert Priced(rows, quantities);
  }
}
