/** The PRICES table row and the entities it references.  Only the id of the
    brand and of the product takes part in resolution; the audit timestamps
    are not modelled. */
module Domain {
  import opened Optional
  import opened DateTimes

  /** The BRANDS row a price belongs to, reduced to its key. */
  datatype Brand = Brand(id: int)

  /** The PRODUCTS row a price belongs to, reduced to its key. */
  datatype Product = Product(id: int)

  /** A DECIMAL(15, 2) amount held as its unscaled integer: 35.50 is Money(3550). */
  datatype Money = Money(unscaled: int)

  /** One price list entry.  `id` is the price_list primary key; every
      column the table declares NOT NULL is a plain field here, so it is
      always present, and the nullable `price` column is an Option. */
  datatype Price = Price(
    id: int,
    startDate: Instant,
    endDate: Instant,
    curr: string,
    priority: int,
    brand: Brand,
    product: Product,
    value: Option<Money>)

  const MinLong: int := -0x8000_0000_0000_0000
  const MaxLong: int := 0x7fff_ffff_ffff_ffff
  const MinInt: int := -0x8000_0000
  const MaxInt: int := 0x7fff_ffff

  /** The currency column is VARCHAR(3). */
  const CurrencyLength: nat := 3

  /** DECIMAL(15, 2) holds at most fifteen digits. */
  const MoneyBound: int := 1_000_000_000_000_000

  predicate IsLong(x: int) {
    MinLong <= x <= MaxLong
  }

  predicate IsInt(x: int) {
    MinInt <= x <= MaxInt
  }

  /** What the column declarations guarantee of a stored row: 64-bit keys,
      a 32-bit priority, a currency of at most three characters and an
      amount that fits its precision. */
  predicate WellFormed(p: Price) {
    && IsLong(p.id)
    && IsLong(p.brand.id)
    && IsLong(p.product.id)
    && IsInt(p.priority)
    && |p.curr| <= CurrencyLength
    && (p.value.Some? ==> -MoneyBound < p.value.value.unscaled < MoneyBound)
  }

  /** `id` is the primary key: no two rows of the table share it. */
  predicate UniqueIds(store: seq<Price>) {
    forall i, j :: 0 <= i < |store| && 0 <= j < |store| && store[i].id == store[j].id ==> i == j
  }

  /** The table as the resolver sees it. */
  predicate ValidStore(store: seq<Price>) {
    && UniqueIds(store)
    && forall i :: 0 <= i < |store| ==> WellFormed(store[i])
  }

  /** A primary key picks out at most one row: two rows of a valid store
      with the same id are the same row. */
  lemma IdIdentifiesRow(store: seq<Price>, p: Price, q: Price)
    requires UniqueIds(store)
    requires p in store && q in store
    requires p.id == q.id
    ensures p == q
  {
    var i :| 0 <= i < |store| && store[i] == p;
    var j :| 0 <= j < |store| && store[j] == q;
  }

}
