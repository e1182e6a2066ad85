/** The price resolver.  The service asks the repository for the rows that
    pass brandIs AND productIs AND onDate, ordered by priority descending,
    first page of size one, and returns that page's first row if any.  The
    repository is an in-memory sequence of rows here; its query is
    written out as filter, sort, page and first. */
module PriceService {
  import opened Optional
  import opened Domain
  import opened PriceSpecifications
  import opened PriceRequests

  /** The page size the service requests: at most one row comes back. */
  const PageSize: nat := 1

  /** The row-level meaning of a lookup: each present field constrains the
      matching column, each missing field constrains nothing. */
  predicate Applies(q: Lookup, p: Price) {
    && (q.brandId.None? || p.brand.id == q.brandId.value)
    && (q.productId.None? || p.product.id == q.productId.value)
    && (q.priceDate.None? || p.startDate <= q.priceDate.value <= p.endDate)
  }

  /** where(brandIs(brand)).and(productIs(product)).and(onDate(date)) */
  function Combined(q: Lookup): (s: Spec)
    ensures forall p :: Holds(s, p) <==> Applies(q, p)
  {
    var s := And(And(BrandIs(q.brandId), ProductIs(q.productId)), OnDate(q.priceDate));
    assert forall p :: Holds(s, p) <==>
      Holds(BrandIs(q.brandId), p) && Holds(ProductIs(q.productId), p) && Holds(OnDate(q.priceDate), p);
    s
  }

  /** The rows of the store that satisfy `s`. */
  function Matching(store: seq<Price>, s: Spec): (r: seq<Price>)
    ensures forall p :: p in r <==> p in store && Holds(s, p)
    ensures multiset(r) <= multiset(store)
  {
    if |store| == 0 then []
    else
      var rest := Matching(store[1..], s);
      assert store == [store[0]] + store[1..];
      if Holds(s, store[0]) then [store[0]] + rest else rest
  }

  predicate SortedByPriorityDesc(s: seq<Price>) {
    forall i, j :: 0 <= i < j < |s| ==> s[i].priority >= s[j].priority
  }

  /** Places `p` in front of the first row whose priority is not higher. */
  function Insert(p: Price, s: seq<Price>): (r: seq<Price>)
    requires SortedByPriorityDesc(s)
    ensures SortedByPriorityDesc(r)
    ensures |r| == |s| + 1
    ensures r[0] == p || (|s| > 0 && r[0] == s[0])
    ensures multiset(r) == multiset(s) + multiset{p}
  {
    if |s| == 0 || s[0].priority <= p.priority then [p] + s
    else
      var rest := Insert(p, s[1..]);
      assert s == [s[0]] + s[1..];
      assert s[0].priority >= rest[0].priority;
      [s[0]] + rest
  }

  /** ORDER BY priority DESC.  The order among rows of equal priority is the
      database's; this one is a choice of the model. */
  function SortByPriorityDesc(s: seq<Price>): (r: seq<Price>)
    ensures SortedByPriorityDesc(r)
    ensures multiset(r) == multiset(s)
  {
    if |s| == 0 then []
    else
      assert s == [s[0]] + s[1..];
      Insert(s[0], SortByPriorityDesc(s[1..]))
  }

  /** Page 0 of `size` rows: the leading rows of the input, in order. */
  function FirstPage(s: seq<Price>, size: nat): (r: seq<Price>)
    requires size >= 1
    ensures |r| == if |s| < size then |s| else size
    ensures forall i :: 0 <= i < |r| ==> r[i] == s[i]
  {
    if |s| <= size then s else s[..size]
  }

  /** The head of a priority-descending sequence has the highest priority
      of all its rows. */
  lemma HeadHasTopPriority(s: seq<Price>, p: Price)
    requires SortedByPriorityDesc(s)
    requires p in s
    ensures p.priority <= s[0].priority
  {
    var i :| 0 <= i < |s| && s[i] == p;
    if i > 0 {
      assert s[0].priority >= s[i].priority;
    }
  }

  /** getProductPriceOfBrandOnDate: the matching row of highest priority,
      or nothing when no row matches. */
  function GetProductPriceOfBrandOnDate(store: seq<Price>, q: Lookup): (r: Option<Price>)
    ensures r.Some? ==> r.value in store && Applies(q, r.value)
    ensures r.Some? ==> forall p :: p in store && Applies(q, p) ==> p.priority <= r.value.priority
    ensures r.None? <==> forall p :: p in store ==> !Applies(q, p)
  {
    var matches := Matching(store, Combined(q));
    var sorted := SortByPriorityDesc(matches);
    assert forall p :: p in sorted <==> p in matches by {
      forall p ensures p in sorted <==> p in matches {
        assert p in sorted <==> p in multiset(sorted);
        assert p in matches <==> p in multiset(matches);
      }
    }
    var page := FirstPage(sorted, PageSize);
    var r := if |page| == 0 then None else Some(page[0]);
    assert r.Some? ==> forall p :: p in store && Applies(q, p) ==> p.priority <= r.value.priority by {
      forall p | r.Some? && p in store && Applies(q, p) ensures p.priority <= r.value.priority {
        HeadHasTopPriority(sorted, p);
      }
    }
    r
  }

  /** The same lookup as one pass over the store, keeping the best row seen
      so far and replacing it only by a strictly higher priority. */
  method ResolveByScan(store: seq<Price>, q: Lookup) returns (r: Option<Price>)
    ensures r.Some? ==> r.value in store && Applies(q, r.value)
    ensures r.Some? ==> forall p :: p in store && Applies(q, p) ==> p.priority <= r.value.priority
    ensures r.None? <==> forall p :: p in store ==> !Applies(q, p)
    ensures r.None? <==> GetProductPriceOfBrandOnDate(store, q).None?
    ensures r.Some? ==> r.value.priority == GetProductPriceOfBrandOnDate(store, q).value.priority
  {
    var s := Combined(q);
    r := None;
    for i := 0 to |store|
      invariant r.Some? ==> r.value in store && Applies(q, r.value)
      invariant r.Some? ==> forall k :: 0 <= k < i && Applies(q, store[k]) ==> store[k].priority <= r.value.priority
      invariant r.None? <==> forall k :: 0 <= k < i ==> !Applies(q, store[k])
    {
      if Holds(s, store[i]) && (r.None? || r.value.priority < store[i].priority) {
        r := Some(store[i]);
      }
    }
    ScanAgreesWithQuery(store, q, r);
  }

  /** The scan and the query agree on whether a price exists and on its
      priority; they may differ only in which of several equal-priority rows
      they pick. */
  lemma ScanAgreesWithQuery(store: seq<Price>, q: Lookup, r: Option<Price>)
    requires r.Some? ==> r.value in store && Applies(q, r.value)
    requires r.Some? ==> forall p :: p in store && Applies(q, p) ==> p.priority <= r.value.priority
    requires r.None? <==> forall p :: p in store ==> !Applies(q, p)
    ensures r.None? <==> GetProductPriceOfBrandOnDate(store, q).None?
    ensures r.Some? ==> r.value.priority == GetProductPriceOfBrandOnDate(store, q).value.priority
  {
  }

  /** When one matching row outranks every other matching row, it is the
      answer. */
  lemma UniqueTopIsReturned(store: seq<Price>, q: Lookup, i: int)
    requires 0 <= i < |store| && Applies(q, store[i])
    requires forall j :: 0 <= j < |store| && Applies(q, store[j]) && store[j] != store[i] ==>
      store[j].priority < store[i].priority
    ensures GetProductPriceOfBrandOnDate(store, q) == Some(store[i])
  {
    var r := GetProductPriceOfBrandOnDate(store, q);
    assert store[i] in store;
    var j :| 0 <= j < |store| && store[j] == r.value;
  }

  /** A row that is the only match is the answer. */
  lemma SoleMatchIsReturned(store: seq<Price>, q: Lookup, i: int)
    requires 0 <= i < |store| && Applies(q, store[i])
    requires forall j :: 0 <= j < |store| && Applies(q, store[j]) ==> store[j] == store[i]
    ensures GetProductPriceOfBrandOnDate(store, q) == Some(store[i])
  {
    UniqueTopIsReturned(store, q, i);
  }

  /** For a lookup the controller accepts, no builder falls back to its
      pass-through branch: brand, product and date all constrain the rows. */
  lemma ValidLookupFiltersEverything(q: Lookup)
    requires Valid(q)
    ensures BrandIs(q.brandId) == BrandEquals(q.brandId.value)
    ensures ProductIs(q.productId) == ProductEquals(q.productId.value)
    ensures OnDate(q.priceDate) == Between(q.priceDate.value)
    ensures forall p :: Holds(Combined(q), p) <==>
      && p.brand.id == q.brandId.value
      && p.product.id == q.productId.value
      && p.startDate <= q.priceDate.value <= p.endDate
  {
  }

  /** A row of another brand or product is never the answer, whatever its
      priority and window. */
  lemma ForeignRowNeverReturned(store: seq<Price>, q: Lookup, p: Price)
    requires Valid(q)
    requires p.brand.id != q.brandId.value || p.product.id != q.productId.value
    ensures GetProductPriceOfBrandOnDate(store, q) != Some(p)
  {
  }

}
