/** The end-to-end scenarios for product 35455 of brand 1: four overlapping
    price lists, queried at six instants. */
module Scenarios {
  import opened Optional
  import opened DateTimes
  import opened Domain
  import opened PriceRequests
  import opened PriceService
  import opened PriceResponses

  const Product35455: int := 35455
  const Brand1: int := 1

  const Eur: string := "EUR"

  /** The price table the scenarios are stated over. */
  function Fixture(): seq<Price> {
    [ Price(1, At(2020, 6, 14, 0, 0, 0), At(2020, 12, 31, 23, 59, 59), Eur, 0, Brand(Brand1), Product(Product35455), Some(Money(3550))),
      Price(2, At(2020, 6, 14, 15, 0, 0), At(2020, 6, 14, 18, 30, 0), Eur, 1, Brand(Brand1), Product(Product35455), Some(Money(2545))),
      Price(3, At(2020, 6, 15, 0, 0, 0), At(2020, 6, 15, 11, 0, 0), Eur, 1, Brand(Brand1), Product(Product35455), Some(Money(3050))),
      Price(4, At(2020, 6, 15, 16, 0, 0), At(2020, 12, 31, 23, 59, 59), Eur, 1, Brand(Brand1), Product(Product35455), Some(Money(3895))) ]
  }

  /** The lookup each scenario sends. */
  function LookupAt(at: Instant): Lookup {
    Lookup(Some(Product35455), Some(Brand1), Some(at))
  }

  /** What the endpoint answers: the chosen row projected to a response. */
  function ResponseFor(store: seq<Price>, q: Lookup): Option<PriceResponse> {
    match GetProductPriceOfBrandOnDate(store, q)
    case None => None
    case Some(p) => Some(From(p))
  }

  lemma FixtureIsValidStore()
    ensures ValidStore(Fixture())
  {
  }

  /** 2020-06-14 10:00: only price list 1 covers the instant. */
  lemma At20200614T1000()
    ensures ResponseFor(Fixture(), LookupAt(At(2020, 6, 14, 10, 0, 0))) ==
      Some(PriceResponse(1, Product35455, Brand1, At(2020, 6, 14, 0, 0, 0), At(2020, 12, 31, 23, 59, 59), Some(Money(3550))))
  {
    SoleMatchIsReturned(Fixture(), LookupAt(At(2020, 6, 14, 10, 0, 0)), 0);
  }

  /** 2020-06-14 16:00: lists 1 and 2 both cover it; list 2 has the higher
      priority. */
  lemma At20200614T1600()
    ensures ResponseFor(Fixture(), LookupAt(At(2020, 6, 14, 16, 0, 0))) ==
      Some(PriceResponse(2, Product35455, Brand1, At(2020, 6, 14, 15, 0, 0), At(2020, 6, 14, 18, 30, 0), Some(Money(2545))))
  {
    UniqueTopIsReturned(Fixture(), LookupAt(At(2020, 6, 14, 16, 0, 0)), 1);
  }

  /** 2020-06-14 21:00: list 2 has ended, list 1 applies again. */
  lemma At20200614T2100()
    ensures ResponseFor(Fixture(), LookupAt(At(2020, 6, 14, 21, 0, 0))) ==
      Some(PriceResponse(1, Product35455, Brand1, At(2020, 6, 14, 0, 0, 0), At(2020, 12, 31, 23, 59, 59), Some(Money(3550))))
  {
    SoleMatchIsReturned(Fixture(), LookupAt(At(2020, 6, 14, 21, 0, 0)), 0);
  }

  /** 2020-06-15 10:00: list 3 outranks list 1. */
  lemma At20200615T1000()
    ensures ResponseFor(Fixture(), LookupAt(At(2020, 6, 15, 10, 0, 0))) ==
      Some(PriceResponse(3, Product35455, Brand1, At(2020, 6, 15, 0, 0, 0), At(2020, 6, 15, 11, 0, 0), Some(Money(3050))))
  {
    UniqueTopIsReturned(Fixture(), LookupAt(At(2020, 6, 15, 10, 0, 0)), 2);
  }

  /** 2020-06-16 21:00: list 4 outranks list 1. */
  lemma At20200616T2100()
    ensures ResponseFor(Fixture(), LookupAt(At(2020, 6, 16, 21, 0, 0))) ==
      Some(PriceResponse(4, Product35455, Brand1, At(2020, 6, 15, 16, 0, 0), At(2020, 12, 31, 23, 59, 59), Some(Money(3895))))
  {
    UniqueTopIsReturned(Fixture(), LookupAt(At(2020, 6, 16, 21, 0, 0)), 3);
  }

  /** 2021-08-16 21:00: every list has ended, so there is no price. */
  lemma At20210816T2100()
    ensures ResponseFor(Fixture(), LookupAt(At(2021, 8, 16, 21, 0, 0))) == None
  {
  }

  /** 2020-06-14 18:30:00.5: half a second after list 2 ends, so only
      list 1 covers the instant. */
  lemma HalfSecondAfterListTwoEnds()
    ensures ResponseFor(Fixture(), LookupAt(ToInstant(DateTime(2020, 6, 14, 18, 30, 0, 500_000_000)))) ==
      Some(PriceResponse(1, Product35455, Brand1, At(2020, 6, 14, 0, 0, 0), At(2020, 12, 31, 23, 59, 59), Some(Money(3550))))
  {
    SoleMatchIsReturned(Fixture(), LookupAt(ToInstant(DateTime(2020, 6, 14, 18, 30, 0, 500_000_000))), 0);
  }

  /** A row of another brand with a higher priority and a window that
      covers the instant changes nothing. */
  lemma OtherBrandIgnored()
    ensures ResponseFor(
      Fixture() + [Price(5, At(2020, 1, 1, 0, 0, 0), At(2021, 12, 31, 23, 59, 59), Eur, 9, Brand(2), Product(Product35455), Some(Money(100)))],
      LookupAt(At(2020, 6, 14, 16, 0, 0))) ==
      Some(PriceResponse(2, Product35455, Brand1, At(2020, 6, 14, 15, 0, 0), At(2020, 6, 14, 18, 30, 0), Some(Money(2545))))
  {
    var store := Fixture() + [Price(5, At(2020, 1, 1, 0, 0, 0), At(2021, 12, 31, 23, 59, 59), Eur, 9, Brand(2), Product(Product35455), Some(Money(100)))];
    UniqueTopIsReturned(store, LookupAt(At(2020, 6, 14, 16, 0, 0)), 1);
  }

}
