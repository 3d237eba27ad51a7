/** The six scenarios of the comparator's test suite, each stated of the
    model with the suite's expected values and tolerances. */
module Scenarios {
  import opened Wrappers
  import opened Units
  import opened UnitPrice
  import opened Rounding
  import opened Savings
  import opened Comparison

  /** A two-litre bottle at 3.49. */
  const TwoLiters: Item := Item(1.0, 1.0, 2.0, "liters", 3.49, None)

  /** A 16-pack of 20 fl oz bottles at 18.28. */
  const SixteenPack: Item := Item(1.0, 16.0, 20.0, "fl oz", 18.28, None)

  /** The two-litre bottle on sale at 2.99. */
  const TwoLitersOnSale: Item := Item(1.0, 1.0, 2.0, "liters", 3.49, Some(2.99))

  /** 500 g at 2.99, and 1 kg at 5.99. */
  const HalfKilo: Item := Item(1.0, 1.0, 500.0, "grams", 2.99, None)
  const OneKilo: Item := Item(1.0, 1.0, 1.0, "kilograms", 5.99, None)

  /** Two 6-packs, and one 12-pack, of 12 fl oz cans at 10.99. */
  const TwoSixPacks: Item := Item(2.0, 6.0, 12.0, "fl oz", 10.99, None)
  const TwelvePack: Item := Item(1.0, 12.0, 12.0, "fl oz", 10.99, None)

  /** A hundred 0.1 g pieces at 5.99, and one 10 g piece at 0.99. */
  const TenthGrams: Item := Item(1.0, 100.0, 0.1, "grams", 5.99, None)
  const TenGrams: Item := Item(1.0, 1.0, 10.0, "grams", 0.99, None)

  /** A gallon at 3.99, and four quarts at 4.99. */
  const OneGallon: Item := Item(1.0, 1.0, 1.0, "gallons", 3.99, None)
  const FourQuarts: Item := Item(1.0, 4.0, 1.0, "quarts", 4.99, None)

  /** The per-unit price of a literal item, from its amount and price worked
      out by hand. */
  lemma Quote(item: Item, u: Unit, amount: real, price: real, value: real)
    requires item.unitType == Name(u)
    requires item.quantity != 0.0 && item.itemsPerPurchase != 0.0 && item.weight != 0.0
    requires TotalAmount(item, u) == amount && EffectivePrice(item) == price
    requires amount != 0.0 && price / amount == value
    ensures PricePerUnit(item) == Success(value)
  {
    PriceOfKnownUnit(item, u);
  }

  // One lemma per item of the suite: 2 L is 2000 mL, 16 x 20 fl oz is
  // 9463.52 mL, 2 x 6 x 12 fl oz and 12 x 12 fl oz are 4258.584 mL, a
  // gallon is 3785.41 mL and four quarts 3785.412 mL.

  lemma TwoLitersPrice()
    ensures PricePerUnit(TwoLiters) == Success(0.001745)
  {
    Quote(TwoLiters, Liters, 2000.0, 3.49, 0.001745);
  }

  lemma SixteenPackPrice()
    ensures PricePerUnit(SixteenPack) == Success(18.28 / 9463.52)
  {
    Quote(SixteenPack, FlOz, 9463.52, 18.28, 18.28 / 9463.52);
  }

  lemma TwoLitersOnSalePrice()
    ensures PricePerUnit(TwoLitersOnSale) == Success(0.001495)
  {
    Quote(TwoLitersOnSale, Liters, 2000.0, 2.99, 0.001495);
  }

  lemma HalfKiloPrice()
    ensures PricePerUnit(HalfKilo) == Success(0.00598)
  {
    Quote(HalfKilo, Grams, 500.0, 2.99, 0.00598);
  }

  lemma OneKiloPrice()
    ensures PricePerUnit(OneKilo) == Success(0.00599)
  {
    Quote(OneKilo, Kilograms, 1000.0, 5.99, 0.00599);
  }

  lemma TwoSixPacksPrice()
    ensures PricePerUnit(TwoSixPacks) == Success(10.99 / 4258.584)
  {
    Quote(TwoSixPacks, FlOz, 4258.584, 10.99, 10.99 / 4258.584);
  }

  lemma TwelvePackPrice()
    ensures PricePerUnit(TwelvePack) == Success(10.99 / 4258.584)
  {
    Quote(TwelvePack, FlOz, 4258.584, 10.99, 10.99 / 4258.584);
  }

  lemma TenthGramsPrice()
    ensures PricePerUnit(TenthGrams) == Success(0.599)
  {
    Quote(TenthGrams, Grams, 10.0, 5.99, 0.599);
  }

  lemma TenGramsPrice()
    ensures PricePerUnit(TenGrams) == Success(0.099)
  {
    Quote(TenGrams, Grams, 10.0, 0.99, 0.099);
  }

  lemma OneGallonPrice()
    ensures PricePerUnit(OneGallon) == Success(3.99 / 3785.41)
  {
    Quote(OneGallon, Gallons, 3785.41, 3.99, 3.99 / 3785.41);
  }

  lemma FourQuartsPrice()
    ensures PricePerUnit(FourQuarts) == Success(4.99 / 3785.412)
  {
    Quote(FourQuarts, Quarts, 3785.412, 4.99, 4.99 / 3785.412);
  }

  /** Scenario 1: the bottle costs exactly 0.001745 per mL, the 16-pack
      0.001931 per mL to within the suite's tolerance of 0.00005, and the
      bottle is cheaper. */
  lemma BottleAgainstSixteenPack()
    ensures PricePerUnit(TwoLiters) == Success(0.001745)
    ensures PricePerUnit(SixteenPack).Success?
    ensures -0.00005 < PricePerUnit(SixteenPack).value - 0.001931 < 0.00005
    ensures PricePerUnit(TwoLiters).value < PricePerUnit(SixteenPack).value
  {
    TwoLitersPrice();
    SixteenPackPrice();
  }

  /** The two prices of scenario 1 round to 0.0017 and 0.0019. */
  lemma BottlePricesRounded()
    ensures Round4(0.001745) == 0.0017
    ensures Round4(18.28 / 9463.52) == 0.0019
  {
    assert (0.001745 * 10000.0 + 0.5).Floor == 17;
    assert ((18.28 / 9463.52) * 10000.0 + 0.5).Floor == 19;
  }

  /** The comparator reports the bottle cheaper at 0.0017 against 0.0019 per
      mL, a moderate saving (about 10.5 %), under its own category rule and
      under the symmetric one. */
  lemma BottleAgainstSixteenPackVerdict()
    ensures CompareAsWritten(TwoLiters, SixteenPack)
         == Success(Verdict(FirstCheaper(Moderate), 0.0017, 0.0019, PerMilliliter))
    ensures Compare(TwoLiters, SixteenPack)
         == Success(Verdict(FirstCheaper(Moderate), 0.0017, 0.0019, PerMilliliter))
  {
    TwoLitersPrice();
    SixteenPackPrice();
    BottlePricesRounded();
    NameClassified(Liters);
    NameClassified(FlOz);
    TierByRatio(0.0019, 0.0017);
  }

  /** Scenario 2: 500 g at 2.99 cost 0.00598 per gram and 1 kg at 5.99 cost
      0.00599 per gram. */
  lemma GramsAgainstKilogram()
    ensures PricePerUnit(HalfKilo) == Success(0.00598)
    ensures PricePerUnit(OneKilo) == Success(0.00599)
  {
    HalfKiloPrice();
    OneKiloPrice();
  }

  /** Scenario 3: the sale price is used and makes the bottle cheaper per mL
      than at its regular price. */
  lemma SalePriceIsUsed()
    ensures PricePerUnit(TwoLitersOnSale) == Success(0.001495)
    ensures PricePerUnit(TwoLitersOnSale).value < PricePerUnit(TwoLiters).value
  {
    TwoLitersOnSalePrice();
    TwoLitersPrice();
  }

  /** Scenario 4: two 6-packs and one 12-pack of 12 fl oz cans at the same
      price cost the same per mL. */
  lemma PacksOfEqualVolume()
    ensures PricePerUnit(TwoSixPacks).Success?
    ensures PricePerUnit(TwoSixPacks) == PricePerUnit(TwelvePack)
  {
    TwoSixPacksPrice();
    TwelvePackPrice();
  }

  /** Scenario 5: a hundred 0.1 g pieces at 5.99 cost 0.599 per gram and one
      10 g piece at 0.99 costs 0.099 per gram. */
  lemma SmallMeasurements()
    ensures PricePerUnit(TenthGrams) == Success(0.599)
    ensures PricePerUnit(TenGrams) == Success(0.099)
  {
    TenthGramsPrice();
    TenGramsPrice();
  }

  /** Scenario 6: a gallon at 3.99 is cheaper per mL than four quarts at 4.99. */
  lemma GallonAgainstQuarts()
    ensures PricePerUnit(OneGallon).Success?
    ensures PricePerUnit(FourQuarts).Success?
    ensures PricePerUnit(OneGallon).value < PricePerUnit(FourQuarts).value
  {
    OneGallonPrice();
    FourQuartsPrice();
  }
}
