/** The three filter builders of PriceSpecifications.  A JPA Specification is
    a deferred predicate the database evaluates; here it is a small expression
    tree (`Spec`) built from the criteria the builders use, and `Holds` is its
    evaluation against one row. */
module PriceSpecifications {
  import opened Optional
  import opened DateTimes
  import opened Domain

  datatype Spec =
    | Conjunction                     // the empty AND: every row passes
    | Between(at: Instant)            // at BETWEEN startDate AND endDate
    | BrandEquals(brandId: int)       // brand.id = brandId
    | ProductEquals(productId: int)   // product.id = productId
    | And(left: Spec, right: Spec)

  /** Whether row `p` satisfies `s`.  SQL BETWEEN includes both bounds. */
  predicate Holds(s: Spec, p: Price) {
    match s
    case Conjunction => true
    case Between(at) => p.startDate <= at && at <= p.endDate
    case BrandEquals(b) => p.brand.id == b
    case ProductEquals(pr) => p.product.id == pr
    case And(l, r) => Holds(l, p) && Holds(r, p)
  }

  /** Rows whose validity window contains the instant; no filtering when the
      instant is absent. */
  function OnDate(applicationDate: Option<Instant>): (s: Spec)
    ensures applicationDate.None? ==> s == Conjunction
    ensures forall p :: Holds(s, p) <==>
      (applicationDate.None? || p.startDate <= applicationDate.value <= p.endDate)
  {
    match applicationDate
    case None => Conjunction
    case Some(d) => Between(d)
  }

  /** Rows of the given brand; no filtering when the brand is absent. */
  function BrandIs(brand: Option<int>): (s: Spec)
    ensures brand.None? ==> s == Conjunction
    ensures forall p :: Holds(s, p) <==> (brand.None? || p.brand.id == brand.value)
  {
    match brand
    case None => Conjunction
    case Some(b) => BrandEquals(b)
  }

  /** Rows of the given product; no filtering when the product is absent. */
  function ProductIs(product: Option<int>): (s: Spec)
    ensures product.None? ==> s == Conjunction
    ensures forall p :: Holds(s, p) <==> (product.None? || p.product.id == product.value)
  {
    match product
    case None => Conjunction
    case Some(pr) => ProductEquals(pr)
  }

  /** Both ends of a window are inside it. */
  lemma OnDateBoundsInclusive(p: Price)
    requires p.startDate <= p.endDate
    ensures Holds(OnDate(Some(p.startDate)), p)
    ensures Holds(OnDate(Some(p.endDate)), p)
  {
  }

  /** A row whose window ends before it starts is never on any date. */
  lemma InvertedWindowNeverOnDate(p: Price, d: Instant)
    requires p.startDate > p.endDate
    ensures !Holds(OnDate(Some(d)), p)
  {
  }

  /** Every filter reads only the key and window columns: two rows that
      agree on those pass or fail together, whatever their currency,
      priority or amount. */
  lemma {:induction false} HoldsReadsOnlyFilterColumns(s: Spec, p: Price, q: Price)
    requires p.startDate == q.startDate && p.endDate == q.endDate
    requires p.brand.id == q.brand.id && p.product.id == q.product.id
    ensures Holds(s, p) == Holds(s, q)
  {
    match s
    case And(l, r) =>
      HoldsReadsOnlyFilterColumns(l, p, q);
      HoldsReadsOnlyFilterColumns(r, p, q);
    case _ =>
  }

}
