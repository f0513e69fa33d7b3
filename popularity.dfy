/** `max(order_items, key=lambda oi: oi.quantity)` (ubiqua-integration-test.py:106):
    the first item, in iteration order, whose quantity is largest. Python's `max`
    keeps its current candidate unless a later key is strictly greater, and
    raises on an empty sequence (that case is handled by the caller). */
module Popularity {
  import opened Records

  /** Item `k` has the largest quantity and every item before it a strictly
      smaller one. */
  predicate IsFirstMostPopular(items: seq<OrderItem>, k: nat) {
    && k < |items|
    && (forall j | 0 <= j < |items| :: items[j].quantity <= items[k].quantity)
    && (forall j | 0 <= j < k :: items[j].quantity < items[k].quantity)
  }

  /** The index `max` settles on, scanning from the first item. */
  function MostPopularIndex(items: seq<OrderItem>): (k: nat)
    requires |items| > 0
    ensures IsFirstMostPopular(items, k)
  {
    if |items| == 1 then 0
    else
      var init := items[..|items| - 1];
      var k := MostPopularIndex(init);
      assert forall j | 0 <= j < |init| :: init[j] == items[j];
      if items[|items| - 1].quantity > items[k].quantity then |items| - 1 else k
  }

  /** At most one index is the first most popular one. */
  lemma FirstMostPopularIsUnique(items: seq<OrderItem>, k1: nat, k2: nat)
    requires IsFirstMostPopular(items, k1) && IsFirstMostPopular(items, k2)
    ensures k1 == k2
  {
    assert items[k1].quantity == items[k2].quantity;
  }

  /** A tie on the largest quantity goes to the earliest item: quantities
      3, 3, 1 with brands A, B, C pick A. */
  lemma TieGoesToFirstItem(items: seq<OrderItem>, k: nat)
    requires |items| == 3
    requires items[0].quantity == 3 && items[0].brand == "A"
    requires items[1].quantity == 3 && items[1].brand == "B"
    requires items[2].quantity == 1 && items[2].brand == "C"
    requires IsFirstMostPopular(items, k)
    ensures k == 0 && items[k].brand == "A"
  {
  }
}
