# Price resolution

A Dafny model of the lookup at the heart of the prices service: given a
product id, a brand id and an instant, pick the one row of the PRICES table
that applies. A row applies when it belongs to the brand and the product
and its validity window `[startDate, endDate]` contains the instant, both
ends included. When several rows apply, the one with the highest
`priority` wins. When none applies, the answer is "no price", which is a
normal outcome and not an error.

The model follows the code's structure:

- `Domain` (price.dfy) holds the `Price` row. Every NOT NULL column is a
  plain field, so the start and end dates, the currency, the priority, the
  brand and the product are always present. Brand and product are reduced
  to their ids. `WellFormed` states the column constraints: 64-bit keys, a
  32-bit priority, a currency of at most three characters and an amount
  that fits DECIMAL(15, 2). `UniqueIds` states the primary key.
- `PriceSpecifications` (specifications.dfy) models `onDate`,
  `brandIs` and `productIs`. The JPA `Specification` they return is
  modelled as a small expression tree (`Spec`): `conjunction()`,
  `between`, `equal` and AND. `Holds` evaluates that tree against a row.
  A missing argument yields `Conjunction`, which every row passes.
- `PriceRequests` (request.dfy) holds the lookup's three nullable fields
  and the Bean Validation constraints on them. `Violations` returns every
  failed constraint with the source's message. `@Positive` accepts a
  missing value, so a missing id reports only "cannot be void". The service
  input (`PriceDTO`) has the same three fields, so one `Lookup` type
  stands for both.
- `PriceService` (service.dfy) models `getProductPriceOfBrandOnDate` as
  the repository query written out in steps: keep the rows that pass the
  combined filter, sort them by priority descending, take page 0 of size 1,
  then take the first row (`findFirst`, written inline). `ResolveByScan`
  does the same lookup in one pass and is proved to agree with the query.
- `PriceResponses` (response.dfy) models `PriceResponse.from`, a
  field-for-field projection, and its inverse up to the two dropped
  columns.
- `Scenarios` (scenarios.dfy) states the six end-to-end lookups of the
  application tests as lemmas over a four-row table for product 35455 and
  brand 1.
- `DateTimes` (datetimes.dfy) turns a `LocalDateTime`, nanoseconds
  included, into an integer `Instant` by packing it as yyyyMMddHHmmss
  followed by nine digits of nanoseconds. A requested instant may carry a
  fraction of a second, as `LocalDateTime.toString()` writes it. The filters
  only compare instants. A lemma shows that this packing orders valid
  date-times the same way as the calendar (date first, then time of day).

What the code does and does not constrain:

- The code does not require `startDate <= endDate`. A row with an inverted
  window is accepted into the table and never matches any instant
  (`InvertedWindowNeverOnDate`).
- The priority is any 32-bit int; the code does not require it to be
  non-negative.
- The currency column is VARCHAR(3): it holds at most three characters, not
  necessarily exactly three.
- The resolver does not require a valid lookup. As in the code, a missing
  field turns its filter into pass-through. Validity is stated separately
  (`ValidLookupFiltersEverything`).

The scenario table is built from what the application tests assert about
each row: its price list, window and amount. The tests never assert a
priority or a currency, so the priorities (0 for list 1 and 1 for lists 2
to 4) and the currency EUR are assumed. Those priorities are what the
tests' answers need: list 2 must outrank list 1 at 2020-06-14 16:00.

## Model

| member | source | states |
|---|---|---|
| DateTimes.ToInstantIsChronological | src/main/java/com/inditex/technicaltest/prices/repositories/PriceSpecifications.java:15 | For valid date-times down to the nanosecond, one instant is smaller than another exactly when its date-time comes first in calendar order, and two instants are equal exactly when the date-times are. So comparing instants is comparing LocalDateTimes. |
| Domain.IdIdentifiesRow | src/main/java/com/inditex/technicaltest/prices/models/domain/Price.java:17-20 | The primary key `id` picks out at most one row: two rows of the table with the same id are the same row. |
| PriceSpecifications.OnDate | src/main/java/com/inditex/technicaltest/prices/repositories/PriceSpecifications.java:10-17 | With no date, the filter is `conjunction()` and every row passes. With a date d, a row passes exactly when startDate <= d <= endDate. |
| PriceSpecifications.BrandIs | src/main/java/com/inditex/technicaltest/prices/repositories/PriceSpecifications.java:19-26 | With no brand, the filter is `conjunction()` and every row passes. With a brand b, a row passes exactly when brand.id == b. |
| PriceSpecifications.ProductIs | src/main/java/com/inditex/technicaltest/prices/repositories/PriceSpecifications.java:28-35 | With no product, the filter is `conjunction()` and every row passes. With a product p, a row passes exactly when product.id == p. |
| PriceSpecifications.OnDateBoundsInclusive | src/main/java/com/inditex/technicaltest/prices/repositories/PriceSpecifications.java:15 | BETWEEN includes both ends: the start instant and the end instant of a window are both on that window. |
| PriceSpecifications.InvertedWindowNeverOnDate | src/main/java/com/inditex/technicaltest/prices/repositories/PriceSpecifications.java:15 | A row whose start is after its end fails onDate(d) for every present d. |
| PriceSpecifications.HoldsReadsOnlyFilterColumns | src/main/java/com/inditex/technicaltest/prices/repositories/PriceSpecifications.java:10-35 | Every filter built from these criteria depends only on the row's brand id, product id and window. Two rows that agree on those columns pass or fail together, whatever their currency, priority or amount. |
| PriceRequests.Violations | src/main/java/com/inditex/technicaltest/prices/dtos/PriceRequest.java:19-29 | The lookup breaks no constraint exactly when both ids are present and positive and the date is present. A missing field reports "cannot be void". A present id that is not positive reports "must be positive". No field reports more than one violation. Every violation reported is one of the five declared constraints with its message. |
| PriceService.Combined | src/main/java/com/inditex/technicaltest/prices/services/PriceServiceImpl.java:31-35 | where(brandIs).and(productIs).and(onDate) passes a row exactly when each present lookup field matches its column. |
| PriceService.Matching | src/main/java/com/inditex/technicaltest/prices/services/PriceServiceImpl.java:31-35 | The filtered rows are exactly the store's rows that pass the filter, with no row gained. |
| PriceService.SortByPriorityDesc | src/main/java/com/inditex/technicaltest/prices/services/PriceServiceImpl.java:39 | The ordered result is a permutation of its input, sorted by priority from highest to lowest. |
| PriceService.FirstPage | src/main/java/com/inditex/technicaltest/prices/services/PriceServiceImpl.java:36-38 | Page 0 of size n is the input's first min(n, length) rows, in order. |
| PriceService.HeadHasTopPriority | src/main/java/com/inditex/technicaltest/prices/services/PriceServiceImpl.java:39-41 | The first row of a priority-descending sequence has a priority at least as high as every row in it. |
| PriceService.GetProductPriceOfBrandOnDate | src/main/java/com/inditex/technicaltest/prices/services/PriceServiceImpl.java:29-42 | A returned price is a row of the store that matches brand, product and date, and no matching row has a higher priority. The result is empty exactly when no row matches. |
| PriceService.ResolveByScan | src/main/java/com/inditex/technicaltest/prices/services/PriceServiceImpl.java:29-42 | A single pass over the store gives the same guarantees as the query. It finds a price exactly when the query does, with the same priority. |
| PriceService.ScanAgreesWithQuery | src/main/java/com/inditex/technicaltest/prices/services/PriceServiceImpl.java:36-41 | Any answer that satisfies the resolver's guarantees agrees with the query on presence and on priority. Only the choice among equal-priority rows is left open. |
| PriceService.UniqueTopIsReturned | src/main/java/com/inditex/technicaltest/prices/services/PriceServiceImpl.java:36-41 | When one matching row has a strictly higher priority than every other matching row, that row is the answer. |
| PriceService.SoleMatchIsReturned | src/main/java/com/inditex/technicaltest/prices/services/PriceServiceImpl.java:31-41 | When exactly one row matches, that row is the answer. |
| PriceService.ValidLookupFiltersEverything | src/main/java/com/inditex/technicaltest/prices/dtos/PriceRequest.java:19-29 | For a lookup that passes validation, none of the three builders takes its pass-through branch. The combined filter demands the brand, the product and the window. |
| PriceService.ForeignRowNeverReturned | src/main/java/com/inditex/technicaltest/prices/services/PriceServiceImpl.java:33-34 | For a valid lookup, a row of another brand or another product is never the answer, whatever its priority and window. |
| PriceResponses.FromProjectsFields | src/main/java/com/inditex/technicaltest/prices/dtos/PriceResponse.java:25-34 | priceList is the row's id, productId and brandId are the referenced ids, and startDate, endDate and value are copied unchanged. |
| PriceResponses.RestoreInvertsFrom | src/main/java/com/inditex/technicaltest/prices/dtos/PriceResponse.java:16-23 | Adding back the currency and the priority rebuilds the original row from its response. So the response drops exactly those two columns. |
| PriceResponses.FromIgnoresCurrencyAndPriority | src/main/java/com/inditex/technicaltest/prices/dtos/PriceResponse.java:16-32 | Changing a row's currency or priority does not change its response. |
| PriceResponses.PriceListIdentifiesRow | src/main/java/com/inditex/technicaltest/prices/dtos/PriceResponse.java:27 | Within one table, a response's priceList names a single row. |
| Scenarios.FixtureIsValidStore | src/main/java/com/inditex/technicaltest/prices/models/domain/Price.java:17-43 | The four-row scenario table meets every column constraint and has unique ids. |
| Scenarios.At20200614T1000 | src/test/java/com/inditex/technicaltest/prices/PricesApplicationTests.java:28-48 | At 2020-06-14 10:00 the answer is price list 1: 2020-06-14 00:00 to 2020-12-31 23:59:59, 35.50. |
| Scenarios.At20200614T1600 | src/test/java/com/inditex/technicaltest/prices/PricesApplicationTests.java:50-70 | At 2020-06-14 16:00 the answer is price list 2, 25.45, because its priority beats list 1. |
| Scenarios.At20200614T2100 | src/test/java/com/inditex/technicaltest/prices/PricesApplicationTests.java:72-92 | At 2020-06-14 21:00 the answer is price list 1 again. |
| Scenarios.At20200615T1000 | src/test/java/com/inditex/technicaltest/prices/PricesApplicationTests.java:94-114 | At 2020-06-15 10:00 the answer is price list 3, 30.50. |
| Scenarios.At20200616T2100 | src/test/java/com/inditex/technicaltest/prices/PricesApplicationTests.java:117-137 | At 2020-06-16 21:00 the answer is price list 4, 38.95. |
| Scenarios.At20210816T2100 | src/test/java/com/inditex/technicaltest/prices/PricesApplicationTests.java:140-154 | At 2021-08-16 21:00 there is no price, which the endpoint reports as not found. |
| Scenarios.HalfSecondAfterListTwoEnds | src/main/java/com/inditex/technicaltest/prices/repositories/PriceSpecifications.java:15 | At 2020-06-14 18:30:00.5, half a second after list 2 ends at 18:30:00, the answer is price list 1: the fraction of a second is compared, not dropped. |
| Scenarios.OtherBrandIgnored | src/main/java/com/inditex/technicaltest/prices/services/PriceServiceImpl.java:33-34 | Adding a higher-priority row of brand 2 whose window covers the instant leaves the 2020-06-14 16:00 answer at list 2. |

## Left out

- HTTP layer: the controller's mapping of an empty result to 404, the exception handler and the error body are transport plumbing. The scenarios stop at the optional response.
- Request-id servlet filter: it only sets a random correlation id in the logging context.
- Logging calls in the service: they have no effect on the result.
- The JPA repository and Criteria API: an in-memory sequence of rows replaces them, and the query is written out as filter, sort, page and first.
- Tie-break among equal-priority matches: the source leaves it to the database's row order. GetProductPriceOfBrandOnDate and ResolveByScan promise only a highest-priority match, not which one. The model's own sort and scan each make a fixed choice.
- Audit columns, and the other Brand and Product columns and relations: they are not read by resolution, which uses only the brand's and the product's id.
- Amount and currency contents: they are opaque payload. No arithmetic is done on them.
- Date parsing and formatting: text is not parsed; date-times are given as their fields, nanoseconds included, and packed into integers. The packed integer is not a count of time since an epoch.
- PriceDTO.from: it copies the same three fields, so it is folded into the `Lookup` type.
- Purity of the builders, read-only resolution and idempotence: Dafny functions over immutable values have these properties by construction, so no lemma states them separately.
- Store faults: a failing database propagates as an exception in the source. It is outside this pure model.
