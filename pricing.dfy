/** The item loop of one order (ubiqua-integration-test.py:82-103): the running
    subtotal, the taxes and total recomputed on every item, and one OrderItem
    per order-item row. */
module Pricing {
  import opened Records

  /** Every product lookup of `lines` found a row. */
  predicate AllPriced(lines: seq<Line>) {
    forall j | 0 <= j < |lines| :: lines[j].product.Some?
  }

  /** The position of the first line whose product lookup found nothing,
      or |lines| when every lookup succeeded. */
  function FirstMissingProduct(lines: seq<Line>): (k: nat)
    ensures k <= |lines|
    ensures forall j | 0 <= j < k :: lines[j].product.Some?
    ensures k < |lines| ==> lines[k].product.None?
  {
    if |lines| == 0 then 0
    else if lines[0].product.None? then 0
    else
      var k := FirstMissingProduct(lines[1..]);
      assert forall j | 1 <= j < k + 1 :: lines[j] == lines[1..][j - 1];
      1 + k
  }

  /** Quantity times unit price of one priced line. */
  function Amount(line: Line): real
    requires line.product.Some?
  {
    line.detail.quantity as real * line.product.value.unitPrice
  }

  /** Sum of Amount over the lines, accumulated from the first line on. */
  function Subtotal(lines: seq<Line>): real
    requires AllPriced(lines)
  {
    if |lines| == 0 then 0.0
    else Subtotal(lines[..|lines| - 1]) + Amount(lines[|lines| - 1])
  }

  /** The tax as the source computes it: the last line's tax rate applied to
      the whole cumulative subtotal; zero when there are no lines. */
  function Taxes(lines: seq<Line>): real
    requires AllPriced(lines)
  {
    if |lines| == 0 then 0.0
    else Subtotal(lines) * lines[|lines| - 1].product.value.taxRate
  }

  /** The alternative reading the source does not implement: each line taxed
      at its own product's rate. */
  function PerItemTaxes(lines: seq<Line>): real
    requires AllPriced(lines)
  {
    if |lines| == 0 then 0.0
    else PerItemTaxes(lines[..|lines| - 1])
         + Amount(lines[|lines| - 1]) * lines[|lines| - 1].product.value.taxRate
  }

  /** The OrderItem built for one priced line: identity, price, name and brand
      from the product row, quantity from the order-item row. */
  function ItemOf(line: Line): (item: OrderItem)
    requires line.product.Some?
  {
    var p := line.product.value;
    OrderItem(p.uid, line.detail.quantity, p.unitPrice, p.name, p.brand)
  }

  /** Sum of quantity times price over OrderItems, first item first. */
  function ItemsValue(items: seq<OrderItem>): real {
    if |items| == 0 then 0.0
    else items[0].quantity as real * items[0].price + ItemsValue(items[1..])
  }

  /** What the item loop leaves behind. */
  datatype Tally = Tally(subtotal: real, taxes: real, total: real, items: seq<OrderItem>)

  /** `t` is the state of the item loop after running over all of `lines`. */
  ghost predicate IsTally(lines: seq<Line>, t: Tally) {
    && AllPriced(lines)
    && t.subtotal == Subtotal(lines)
    && t.taxes == Taxes(lines)
    && t.total == t.subtotal + t.taxes
    && |t.items| == |lines|
    && forall j | 0 <= j < |lines| :: t.items[j] == ItemOf(lines[j])
  }

  /** The item loop. It stops at the first line whose product is missing,
      where the source raises on subscripting `None`. */
  method TallyLines(lines: seq<Line>) returns (r: Result<Tally, AggregationError>)
    ensures r.Success? <==> AllPriced(lines)
    ensures r.Success? ==> IsTally(lines, r.value)
    ensures r.Success? && |lines| == 0 ==> r.value.subtotal == 0.0 && r.value.taxes == 0.0 && r.value.total == 0.0
    ensures r.Failure? ==> r.error == MissingProduct(lines[FirstMissingProduct(lines)].detail.productUid)
  {
    var items: seq<OrderItem> := [];
    var subtotal, taxes, total := 0.0, 0.0, 0.0;
    var i := 0;
    while i < |lines|
      invariant 0 <= i <= |lines|
      invariant AllPriced(lines[..i])
      invariant subtotal == Subtotal(lines[..i])
      invariant taxes == Taxes(lines[..i])
      invariant total == subtotal + taxes
      invariant |items| == i
      invariant forall j | 0 <= j < i :: items[j] == ItemOf(lines[j])
    {
      var line := lines[i];
      if line.product.None? {
        assert FirstMissingProduct(lines) == i;
        return Failure(MissingProduct(line.detail.productUid));
      }
      var product := line.product.value;
      assert lines[..i + 1][..i] == lines[..i];
      subtotal := subtotal + line.detail.quantity as real * product.unitPrice;
      taxes := subtotal * product.taxRate;
      total := subtotal + taxes;
      items := items + [OrderItem(product.uid, line.detail.quantity, product.unitPrice, product.name, product.brand)];
      i := i + 1;
    }
    assert lines[..i] == lines;
    r := Success(Tally(subtotal, taxes, total, items));
  }

  /** Appending lines adds their subtotals. */
  lemma {:induction false} SubtotalAppend(a: seq<Line>, b: seq<Line>)
    requires AllPriced(a) && AllPriced(b)
    ensures AllPriced(a + b)
    ensures Subtotal(a + b) == Subtotal(a) + Subtotal(b)
    decreases |b|
  {
    if |b| > 0 {
      var b' := b[..|b| - 1];
      assert (a + b)[..|a + b| - 1] == a + b';
      SubtotalAppend(a, b');
    } else {
      assert a + b == a;
    }
  }

  /** The subtotal equals the value of the items built from the same lines,
      summed from the first item on. */
  lemma {:induction false} SubtotalIsItemsValue(lines: seq<Line>, items: seq<OrderItem>)
    requires AllPriced(lines)
    requires |items| == |lines|
    requires forall j | 0 <= j < |lines| :: items[j] == ItemOf(lines[j])
    ensures Subtotal(lines) == ItemsValue(items)
    decreases |lines|
  {
    if |lines| > 0 {
      var rest := lines[1..];
      SubtotalIsItemsValue(rest, items[1..]);
      SubtotalAppend([lines[0]], rest);
      assert [lines[0]] + rest == lines;
      assert [lines[0]][..0] == [];
    }
  }

  /** When every product has the same tax rate, the last-rate formula agrees
      with taxing each line at its own rate. */
  lemma {:induction false} UniformRateTaxesArePerItem(lines: seq<Line>, rate: real)
    requires AllPriced(lines)
    requires forall j | 0 <= j < |lines| :: lines[j].product.value.taxRate == rate
    ensures Taxes(lines) == PerItemTaxes(lines)
    ensures Taxes(lines) == Subtotal(lines) * rate
    decreases |lines|
  {
    if |lines| > 0 {
      var init := lines[..|lines| - 1];
      UniformRateTaxesArePerItem(init, rate);
      var last := lines[|lines| - 1];
      calc {
        Taxes(lines);
        Subtotal(lines) * rate;
        (Subtotal(init) + Amount(last)) * rate;
        Subtotal(init) * rate + Amount(last) * rate;
        { assert |init| == 0 ==> Subtotal(init) * rate == 0.0; }
        Taxes(init) + Amount(last) * rate;
        PerItemTaxes(lines);
      }
    }
  }

  /** A worked example: items (quantity 2, price 10, rate 0.1) then
      (quantity 1, price 5, rate 0.2) give subtotal 25, taxes 5 (the last rate
      on the whole subtotal) and total 30, where taxing per item would give 3;
      the same items in the other order give taxes 2.5. */
  lemma LastRateExample(first: OrderDetailRow, second: OrderDetailRow, p: ProductRow, q: ProductRow)
    requires first.quantity == 2 && p.unitPrice == 10.0 && p.taxRate == 0.1
    requires second.quantity == 1 && q.unitPrice == 5.0 && q.taxRate == 0.2
    ensures var lines := [Line(first, Some(p)), Line(second, Some(q))];
            && Subtotal(lines) == 25.0
            && Taxes(lines) == 5.0
            && Subtotal(lines) + Taxes(lines) == 30.0
            && PerItemTaxes(lines) == 3.0
    ensures Taxes([Line(second, Some(q)), Line(first, Some(p))]) == 2.5
  {
    var lines := [Line(first, Some(p)), Line(second, Some(q))];
    assert lines[..1] == [Line(first, Some(p))];
    assert lines[..1][..0] == [];
    assert Subtotal(lines[..1]) == 20.0;
    assert PerItemTaxes(lines[..1]) == 2.0;
    var swapped := [Line(second, Some(q)), Line(first, Some(p))];
    assert swapped[..1] == [Line(second, Some(q))];
    assert swapped[..1][..0] == [];
    assert Subtotal(swapped[..1]) == 5.0;
  }
}
