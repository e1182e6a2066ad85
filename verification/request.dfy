/** The lookup a caller submits: product, brand and instant, each of which may
    be missing.  The same three fields travel from the HTTP request to the
    service unchanged, so one datatype stands for both the request and the
    service's input. */
module PriceRequests {
  import opened Optional
  import opened DateTimes

  datatype Lookup = Lookup(productId: Option<int>, brandId: Option<int>, priceDate: Option<Instant>)

  datatype Field = ProductIdField | BrandIdField | PriceDateField

  /** One failed constraint: the field it is on and the message it reports. */
  datatype Violation = Violation(field: Field, message: string)

  const ProductIdVoid := "product id cannot be void"
  const ProductIdNotPositive := "product id must be positive"
  const BrandIdVoid := "brand id cannot be void"
  const BrandIdNotPositive := "brand id must be positive"
  const PriceDateVoid := "the application date cannot be void"

  /** Every violation the request's constraints can report. */
  function Constraints(): set<Violation> {
    { Violation(ProductIdField, ProductIdVoid), Violation(ProductIdField, ProductIdNotPositive),
      Violation(BrandIdField, BrandIdVoid), Violation(BrandIdField, BrandIdNotPositive),
      Violation(PriceDateField, PriceDateVoid) }
  }

  /** A lookup the controller lets through: both ids present and positive,
      the date present. */
  predicate Valid(q: Lookup) {
    && q.productId.Some? && q.productId.value > 0
    && q.brandId.Some? && q.brandId.value > 0
    && q.priceDate.Some?
  }

  /** The @NotNull and @Positive checks of one id.  @Positive accepts a
      missing value, so a missing id reports only that it is void. */
  function IdViolations(id: Option<int>, field: Field, voidMessage: string, notPositiveMessage: string): set<Violation> {
    match id
    case None => {Violation(field, voidMessage)}
    case Some(v) => if v > 0 then {} else {Violation(field, notPositiveMessage)}
  }

  /** Every constraint the lookup breaks. */
  function Violations(q: Lookup): (vs: set<Violation>)
    ensures vs == {} <==> Valid(q)
    ensures Violation(ProductIdField, ProductIdVoid) in vs <==> q.productId.None?
    ensures Violation(ProductIdField, ProductIdNotPositive) in vs <==> q.productId.Some? && q.productId.value <= 0
    ensures Violation(BrandIdField, BrandIdVoid) in vs <==> q.brandId.None?
    ensures Violation(BrandIdField, BrandIdNotPositive) in vs <==> q.brandId.Some? && q.brandId.value <= 0
    ensures Violation(PriceDateField, PriceDateVoid) in vs <==> q.priceDate.None?
    ensures forall v, w :: v in vs && w in vs && v.field == w.field ==> v == w
    ensures forall v :: v in vs ==> v in Constraints()
  {
    IdViolations(q.productId, ProductIdField, ProductIdVoid, ProductIdNotPositive)
    + IdViolations(q.brandId, BrandIdField, BrandIdVoid, BrandIdNotPositive)
    + (if q.priceDate.None? then {Violation(PriceDateField, PriceDateVoid)} else {})
  }

}
