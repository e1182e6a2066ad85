/** The body the price endpoint answers with: the identifying fields of the
    chosen row, its window and its amount.  Currency, priority and the audit
    columns are not part of it. */
module PriceResponses {
  import opened Optional
  import opened DateTimes
  import opened Domain

  datatype PriceResponse = PriceResponse(
    priceList: int,
    productId: int,
    brandId: int,
    startDate: Instant,
    endDate: Instant,
    value: Option<Money>)

  /** PriceResponse.from: a field-for-field projection of a row. */
  function From(p: Price): PriceResponse {
    PriceResponse(p.id, p.product.id, p.brand.id, p.startDate, p.endDate, p.value)
  }

  /** Rebuilds a row from a response and the two columns the response
      drops. */
  function Restore(r: PriceResponse, curr: string, priority: int): Price {
    Price(r.priceList, r.startDate, r.endDate, curr, priority, Brand(r.brandId), Product(r.productId), r.value)
  }

  /** Which field of the row each response field carries. */
  lemma FromProjectsFields(p: Price)
    ensures From(p).priceList == p.id
    ensures From(p).productId == p.product.id && From(p).brandId == p.brand.id
    ensures From(p).startDate == p.startDate && From(p).endDate == p.endDate
    ensures From(p).value == p.value
  {
  }

  /** The response loses exactly the currency and the priority: adding them
      back gives the row again. */
  lemma RestoreInvertsFrom(p: Price)
    ensures Restore(From(p), p.curr, p.priority) == p
  {
  }

  /** Rows that differ only in currency and priority answer alike. */
  lemma FromIgnoresCurrencyAndPriority(p: Price, curr: string, priority: int)
    ensures From(p.(curr := curr, priority := priority)) == From(p)
  {
  }

  /** Within one table, the priceList of a response names a single row. */
  lemma PriceListIdentifiesRow(store: seq<Price>, p: Price, q: Price)
    requires UniqueIds(store)
    requires p in store && q in store
    requires From(p).priceList == From(q).priceList
    ensures p == q
  {
    IdIdentifiesRow(store, p, q);
  }

}
