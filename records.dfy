/** Rows read from the relational store and the denormalized records built
    from them (ubiqua-integration-test.py, the OrderItem and Order dataclasses).
    Monetary amounts and coordinates are `real`: the source's `float(...)`
    conversions only normalise decimals. */
module Records {

  datatype Option<+T> = None | Some(value: T)

  /** Success/Failure, usable with `:-`. */
  datatype Result<+R, +E> = Success(value: R) | Failure(error: E) {
    predicate IsFailure() {
      Failure?
    }

    function PropagateFailure<U>(): Result<U, E>
      requires Failure?
    {
      Failure(error)
    }

    function Extract(): R
      requires Success?
    {
      value
    }
  }

  /** A timestamp as the store returns it; the aggregation only copies it and
      hands it to the weekday resolver. */
  datatype DateTime = DateTime(year: int, month: int, day: int,
                               hour: int, minute: int, second: int, microsecond: int)

  /** A row of `orders`. */
  datatype OrderRow = OrderRow(uid: string, dateOfOrder: DateTime, clientUid: string,
                               latitude: real, longitude: real, status: string)

  /** A row of `clients`. */
  datatype ClientRow = ClientRow(uid: string, name: string, address: string, promotionDay: string)

  /** A row of `order_items`. */
  datatype OrderDetailRow = OrderDetailRow(orderUid: string, productUid: string, quantity: int)

  /** A row of `products`. */
  datatype ProductRow = ProductRow(uid: string, name: string, brand: string,
                                   unitPrice: real, taxRate: real)

  /** One order-item row with the result of its product lookup
      (`None` when the lookup found no row). */
  datatype Line = Line(detail: OrderDetailRow, product: Option<ProductRow>)

  /** Everything the reader fetched for one order row: the client lookup
      (`None` when it found no row) and the order's item rows in query order. */
  datatype OrderSource = OrderSource(order: OrderRow, client: Option<ClientRow>, lines: seq<Line>)

  datatype OrderItem = OrderItem(uid: string, quantity: int, price: real, name: string, brand: string)

  datatype Order = Order(
    uid: string,
    dateOfOrder: DateTime,
    clientUid: string,
    clientName: string,
    clientAddress: string,
    latitude: real,
    longitude: real,
    status: string,
    subtotal: real,
    taxes: real,
    total: real,
    isPromotionDay: bool,
    mostPopularBrand: string,
    orderItems: seq<OrderItem>)

  /** Why one order could not be aggregated. In the source each of these is
      an exception (subscripting `None`, or `max` of an empty sequence). */
  datatype AggregationError =
    | MissingProduct(productUid: string)
    | MissingClient(clientUid: string)
    | NoOrderItems(orderUid: string)
}
