# Order aggregation of the ubiqua integration batch job

The job reads every row of `orders` from PostgreSQL. For each order it looks up the client, the order-item rows and, per item, the product. It builds one denormalized `Order` document per order and bulk-inserts the documents into MongoDB. This project models the part with logic in it: the per-order aggregation and the loop over orders (`ubiqua-integration-test.py`, lines 77-125).

Per order, the aggregation:

- runs over the (order-item, product) pairs in query order and keeps a running subtotal of quantity × unit price;
- on every item, recomputes the taxes as the *current* product's tax rate times the *cumulative* subtotal, and the total as subtotal plus taxes, so the values left at the end use the last product's rate;
- appends one `OrderItem` per pair;
- sets the promotion flag when the order date's weekday code equals the client's `promotion_day`;
- picks the brand of the first item with the largest quantity, as Python's `max` does.

Modules:

- `records.dfy`, module `Records`: the rows (`OrderRow`, `ClientRow`, `OrderDetailRow`, `ProductRow`), the output records (`OrderItem`, `Order`), `Option`/`Result`, and the ways one order can fail (`AggregationError`).
- `pricing.dfy`, module `Pricing`: the item loop. The imperative method `TallyLines` is proved against the specification functions `Subtotal`, `Taxes` and `ItemOf`, and lemmas relate those functions to an independent per-item sum and to the per-item tax reading.
- `popularity.dfy`, module `Popularity`: the stable argmax behind `most_popular_brand`.
- `aggregation.dfy`, module `Aggregation`: `AggregateOrder` (one order) and `BuildOrders` (the outer loop). Both are methods proved against the relational specification `IsAggregation`.

Inputs stand in for the I/O. The result of every lookup is an `OrderSource`: the order row, the client lookup as an `Option` (`fetchone()` may return `None`), and the item rows each paired with its product lookup. The weekday code is the function parameter `weekdayShortName`, which stands for `weekday_short_name` with its default locale.

Failures follow the order in which the source meets them:

1. A missing product raises inside the item loop (line 91).
2. A missing client raises when the promotion flag is computed (line 105).
3. An order with no item rows makes `max` raise (line 106).

Any of these exceptions ends the whole run, so `BuildOrders` returns the failure of the first order that cannot be aggregated and no list.

## Model

| member | source | states |
|---|---|---|
| `Pricing.FirstMissingProduct` | ubiqua-integration-test.py:87-91 | The index of the first item row whose product lookup found nothing (every earlier lookup succeeded), or the number of rows when all succeeded |
| `Pricing.TallyLines` | ubiqua-integration-test.py:82-103 | The item loop succeeds exactly when every product was found. It then leaves subtotal = sum of quantity × unit price, taxes = that subtotal × the last product's tax rate, total = subtotal + taxes (all 0 with no rows), and one item per row, in row order, with uid, price, name and brand from the product and quantity from the item row. Otherwise it fails with the first missing product's uid |
| `Pricing.SubtotalAppend` | ubiqua-integration-test.py:83-91 | The running subtotal is additive: the subtotal of two row sequences in a row is the sum of their subtotals |
| `Pricing.SubtotalIsItemsValue` | ubiqua-integration-test.py:91-103 | The subtotal equals the value of the built items, summed first to last as quantity × item price |
| `Pricing.UniformRateTaxesArePerItem` | ubiqua-integration-test.py:91-93 | When all products share one tax rate, the last-rate formula equals the sum of per-item taxes, i.e. subtotal × rate |
| `Pricing.LastRateExample` | ubiqua-integration-test.py:91-93 | Items (2 × 10 at rate 0.1) then (1 × 5 at rate 0.2) give subtotal 25, taxes 5 and total 30, while per-item taxes would be 3. In the reverse order the taxes are 2.5, so the result depends on the row order |
| `Popularity.MostPopularIndex` | ubiqua-integration-test.py:106 | `max` by quantity selects an item whose quantity no item exceeds, and every earlier item's quantity is strictly smaller |
| `Popularity.FirstMostPopularIsUnique` | ubiqua-integration-test.py:106 | That characterisation admits one index only |
| `Popularity.TieGoesToFirstItem` | ubiqua-integration-test.py:106 | Quantities 3, 3, 1 with brands A, B, C select the first item, brand A |
| `Aggregation.AggregateOrder` | ubiqua-integration-test.py:82-123 | Succeeds exactly when every product and the client were found and there is at least one item row. On success the Order copies the order row's uid, date, status and coordinates and the client row's uid, name and address. Its totals and items are as the item loop leaves them. `is_promotion_day` holds exactly when the weekday code of the date equals the client's `promotion_day`. `most_popular_brand` is the brand of the first item of largest quantity. On failure the error is the first missing product, else the missing client, else the empty item list |
| `Aggregation.AggregationIsDeterministic` | ubiqua-integration-test.py:82-123 | The specification of one order's aggregation determines its outcome uniquely |
| `Aggregation.EmptyOrderIsRejected` | ubiqua-integration-test.py:82-106 | An order with no item rows produces no Order: it fails for the missing client if there is none, otherwise because `max` gets an empty sequence |
| `Aggregation.OrderSubtotalMatchesItems` | ubiqua-integration-test.py:91-103 | An Order's subtotal equals the value of its own items, and its total is subtotal + taxes |
| `Aggregation.OrderTaxesUseLastRate` | ubiqua-integration-test.py:91-93 | An Order's taxes are its full subtotal × the last product's tax rate, and its total is subtotal × (1 + that rate). They equal the per-item tax sum when all rates agree |
| `Aggregation.TiedOrderPicksFirstBrand` | ubiqua-integration-test.py:106 | An order whose rows have quantities 3, 3, 1 and brands A, B, C gets most popular brand A |
| `Aggregation.BuildOrders` | ubiqua-integration-test.py:77-125 | The order loop succeeds exactly when every order can be aggregated. It then returns one Order per order row, in query order, each the aggregation of its row (same uid). Otherwise it returns the failure of the first order that cannot be aggregated, with all earlier orders aggregatable |

## Left out

- PostgreSQL connection, cursor and queries (lines 72-81, 88-90): I/O. Their results are the `OrderSource` inputs, in the order the queries return them.
- The outer iteration and the lookups share one named cursor (lines 73-90). Re-executing that cursor while it is being iterated may end the outer iteration early. The model assumes every order row is delivered; cursor behaviour is I/O and is not modelled.
- `weekday_short_name` and `setlocale` (lines 46-65): locale state, a lock (a fresh one per call) and `strftime` formatting. They are the abstract parameter `weekdayShortName`, with the locale fixed at the default.
- The MongoDB writer (lines 127-143): index creation, `asdict` serialisation, `insert_many` and the swallowed `DuplicateKeyError`/`BulkWriteError`. These are foreign library calls and I/O.
- Environment configuration and logging (lines 15-16, 69-70, 133): plumbing.
- IEEE floating point: amounts, rates and coordinates are exact `real`s, so the rounding of the `float(...)` conversions and of the arithmetic is not modelled.
- Python's dynamic typing: quantities are modelled as integers and every row as having the columns the code reads. A missing column or a non-numeric value (a `KeyError` or `TypeError` in the source) is not modelled.
- The timestamp is only copied and passed to the weekday resolver, so `DateTime` is a plain record with no calendar rules.
