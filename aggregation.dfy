/** The per-order aggregation and the outer order loop of the batch job
    (ubiqua-integration-test.py:77-125). The store lookups are replaced by
    their results (an OrderSource per order row); the weekday abbreviation
    (`weekday_short_name` with its default locale) is the parameter
    `weekdayShortName`. */
module Aggregation {
  import opened Records
  import opened Pricing
  import opened Popularity

  /** The order's rows let aggregation finish: every product and the client
      were found, and there is at least one order-item row. */
  predicate Aggregatable(src: OrderSource) {
    AllPriced(src.lines) && src.client.Some? && |src.lines| > 0
  }

  /** `o` is the Order built from `src`: the order row's uid, date, status and
      coordinates and the client row's uid, name and address copied unchanged;
      subtotal, taxes, total and items as the item loop leaves them; the
      promotion flag set exactly when the order's weekday code equals the
      client's preference; the brand of the first item of largest quantity. */
  ghost predicate IsOrderOf(src: OrderSource, weekdayShortName: DateTime -> string, o: Order) {
    && Aggregatable(src)
    && var row, client := src.order, src.client.value;
    && o.uid == row.uid
    && o.dateOfOrder == row.dateOfOrder
    && o.clientUid == client.uid
    && o.clientName == client.name
    && o.clientAddress == client.address
    && o.latitude == row.latitude
    && o.longitude == row.longitude
    && o.status == row.status
    && IsTally(src.lines, Tally(o.subtotal, o.taxes, o.total, o.orderItems))
    && o.isPromotionDay == (weekdayShortName(row.dateOfOrder) == client.promotionDay)
    && exists k | 0 <= k < |o.orderItems| ::
         IsFirstMostPopular(o.orderItems, k) && o.mostPopularBrand == o.orderItems[k].brand
  }

  /** `r` is the outcome of aggregating `src`. The failures come in the order
      the source meets them: a missing product inside the item loop, then the
      missing client when the promotion flag is computed, then `max` of no
      items. */
  ghost predicate IsAggregation(src: OrderSource, weekdayShortName: DateTime -> string,
                                r: Result<Order, AggregationError>)
  {
    var k := FirstMissingProduct(src.lines);
    if k < |src.lines| then r == Failure(MissingProduct(src.lines[k].detail.productUid))
    else if src.client.None? then r == Failure(MissingClient(src.order.clientUid))
    else if |src.lines| == 0 then r == Failure(NoOrderItems(src.order.uid))
    else r.Success? && IsOrderOf(src, weekdayShortName, r.value)
  }

  /** Builds one Order from an order row, its client lookup and its item rows. */
  method AggregateOrder(src: OrderSource, weekdayShortName: DateTime -> string)
    returns (r: Result<Order, AggregationError>)
    ensures IsAggregation(src, weekdayShortName, r)
    ensures r.Success? <==> Aggregatable(src)
  {
    var tally :- TallyLines(src.lines);
    if src.client.None? {
      return Failure(MissingClient(src.order.clientUid));
    }
    var client := src.client.value;
    var isPromotionDay := weekdayShortName(src.order.dateOfOrder) == client.promotionDay;
    if |tally.items| == 0 {
      return Failure(NoOrderItems(src.order.uid));
    }
    var mostPopularBrand := tally.items[MostPopularIndex(tally.items)].brand;
    r := Success(Order(
      src.order.uid, src.order.dateOfOrder,
      client.uid, client.name, client.address,
      src.order.latitude, src.order.longitude, src.order.status,
      tally.subtotal, tally.taxes, tally.total,
      isPromotionDay, mostPopularBrand, tally.items));
  }

  /** Aggregation is a function of its inputs: the specification leaves no
      freedom in the outcome. */
  lemma AggregationIsDeterministic(src: OrderSource, weekdayShortName: DateTime -> string,
                                   r1: Result<Order, AggregationError>, r2: Result<Order, AggregationError>)
    requires IsAggregation(src, weekdayShortName, r1)
    requires IsAggregation(src, weekdayShortName, r2)
    ensures r1 == r2
  {
    if r1.Success? && r2.Success? {
      var o1, o2 := r1.value, r2.value;
      assert o1.orderItems == o2.orderItems;
      var k1 :| 0 <= k1 < |o1.orderItems| && IsFirstMostPopular(o1.orderItems, k1)
                && o1.mostPopularBrand == o1.orderItems[k1].brand;
      var k2 :| 0 <= k2 < |o2.orderItems| && IsFirstMostPopular(o2.orderItems, k2)
                && o2.mostPopularBrand == o2.orderItems[k2].brand;
      FirstMostPopularIsUnique(o1.orderItems, k1, k2);
    }
  }

  /** An order without order-item rows yields no Order: when its client is
      present, aggregation fails because `max` has nothing to choose from. */
  lemma EmptyOrderIsRejected(src: OrderSource, weekdayShortName: DateTime -> string,
                             r: Result<Order, AggregationError>)
    requires |src.lines| == 0
    requires IsAggregation(src, weekdayShortName, r)
    ensures r.Failure?
    ensures r.error == if src.client.None? then MissingClient(src.order.clientUid)
                       else NoOrderItems(src.order.uid)
  {
  }

  /** An Order's subtotal is the value of its own items, and its total is
      subtotal plus taxes. */
  lemma OrderSubtotalMatchesItems(src: OrderSource, weekdayShortName: DateTime -> string, o: Order)
    requires IsAggregation(src, weekdayShortName, Success(o))
    ensures o.subtotal == ItemsValue(o.orderItems)
    ensures o.total == o.subtotal + o.taxes
  {
    SubtotalIsItemsValue(src.lines, o.orderItems);
  }

  /** The taxes of an Order are the last item's rate on the whole subtotal;
      only when every product shares one rate do they equal the sum of the
      per-item taxes. */
  lemma OrderTaxesUseLastRate(src: OrderSource, weekdayShortName: DateTime -> string, o: Order)
    requires IsAggregation(src, weekdayShortName, Success(o))
    ensures o.taxes == o.subtotal * src.lines[|src.lines| - 1].product.value.taxRate
    ensures o.total == o.subtotal * (1.0 + src.lines[|src.lines| - 1].product.value.taxRate)
    ensures (forall j | 0 <= j < |src.lines| :: src.lines[j].product.value.taxRate
                                                == src.lines[0].product.value.taxRate)
            ==> o.taxes == PerItemTaxes(src.lines)
  {
    if forall j | 0 <= j < |src.lines| :: src.lines[j].product.value.taxRate
                                          == src.lines[0].product.value.taxRate {
      UniformRateTaxesArePerItem(src.lines, src.lines[0].product.value.taxRate);
    }
  }

  /** Quantities 3, 3, 1 with brands A, B, C make A the most popular brand. */
  lemma TiedOrderPicksFirstBrand(src: OrderSource, weekdayShortName: DateTime -> string, o: Order)
    requires |src.lines| == 3 && AllPriced(src.lines)
    requires src.lines[0].detail.quantity == 3 && src.lines[0].product.value.brand == "A"
    requires src.lines[1].detail.quantity == 3 && src.lines[1].product.value.brand == "B"
    requires src.lines[2].detail.quantity == 1 && src.lines[2].product.value.brand == "C"
    requires IsAggregation(src, weekdayShortName, Success(o))
    ensures o.mostPopularBrand == "A"
  {
  }

  /** The outer loop: one Order per order row, in query order. The first
      order that cannot be aggregated aborts the whole run, as the uncaught
      exception does in the source, so no Order list is produced. */
  method BuildOrders(sources: seq<OrderSource>, weekdayShortName: DateTime -> string)
    returns (r: Result<seq<Order>, AggregationError>)
    ensures r.Success? <==> forall i | 0 <= i < |sources| :: Aggregatable(sources[i])
    ensures r.Success? ==> |r.value| == |sources|
    ensures r.Success? ==> forall i | 0 <= i < |sources| ::
              IsAggregation(sources[i], weekdayShortName, Success(r.value[i]))
    ensures r.Success? ==> forall i | 0 <= i < |sources| :: r.value[i].uid == sources[i].order.uid
    ensures r.Failure? ==> exists k | 0 <= k < |sources| ::
              && (forall j | 0 <= j < k :: Aggregatable(sources[j]))
              && IsAggregation(sources[k], weekdayShortName, Failure(r.error))
  {
    var orders: seq<Order> := [];
    var i := 0;
    while i < |sources|
      invariant 0 <= i <= |sources|
      invariant |orders| == i
      invariant forall j | 0 <= j < i :: Aggregatable(sources[j])
      invariant forall j | 0 <= j < i :: IsAggregation(sources[j], weekdayShortName, Success(orders[j]))
    {
      var order := AggregateOrder(sources[i], weekdayShortName);
      if order.Failure? {
        assert IsAggregation(sources[i], weekdayShortName, Failure(order.error));
        return Failure(order.error);
      }
      orders := orders + [order.value];
      i := i + 1;
    }
    r := Success(orders);
  }
}
