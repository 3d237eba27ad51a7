/** The decision the comparator makes for two items: reject a pair whose
    units measure different things, otherwise round both per-unit prices to
    four decimals and say which item is cheaper and by which savings tier. */
module Comparison {
  import opened Wrappers
  import opened Units
  import opened UnitPrice
  import opened Rounding
  import opened Savings

  /** The unit names the comparator treats as volumes. */
  const VolumeUnits: seq<string> := ["liters", "fl oz", "gallons", "milliliters", "quarts", "pints"]

  /** The unit names the comparator treats as weights. */
  const WeightUnits: seq<string> := ["grams", "kilograms", "ounces", "half ounces", "eighth ounces", "pounds"]

  /** Whether the (lower-cased) unit name is a volume unit. */
  predicate IsVolume(s: string)
  {
    ToLower(s) in VolumeUnits
  }

  /** Whether the (lower-cased) unit name is a weight unit. */
  predicate IsWeight(s: string)
  {
    ToLower(s) in WeightUnits
  }

  /** The base unit the result message quotes prices in: that of the first item. */
  datatype Base = PerMilliliter | PerGram | PerUnit

  /** Which item is cheaper after rounding, with the savings tier of the cheaper one. */
  datatype Outcome = FirstCheaper(savings: Tier) | SecondCheaper(savings: Tier) | SamePrice

  /** What the comparator reports: the outcome, both rounded per-unit prices
      and the base unit they are quoted in. */
  datatype Verdict = Verdict(outcome: Outcome, price1: real, price2: real, base: Base)

  /** Why no verdict exists: units of different kinds, or an item without a
      per-unit price. */
  datatype CompareError = CategoryMismatch | FirstInvalid(reason: PriceError) | SecondInvalid(reason: PriceError)

  /** The base unit named after the first item's unit kind. */
  function BaseOf(s: string): Base
  {
    if IsVolume(s) then PerMilliliter else if IsWeight(s) then PerGram else PerUnit
  }

  /** A verdict is quoted per millilitre exactly when the first unit is a
      volume unit of the table, per gram exactly when it is a weight unit, and
      per unit otherwise (a count, or a name the table does not know). */
  lemma BaseOfCategory(s: string)
    ensures BaseOf(s) == PerMilliliter
        <==> ParseUnit(s).Some? && CategoryOf(ParseUnit(s).value) == Volume
    ensures BaseOf(s) == PerGram
        <==> ParseUnit(s).Some? && CategoryOf(ParseUnit(s).value) == Weight
    ensures BaseOf(s) == PerUnit
        <==> ParseUnit(s).None? || CategoryOf(ParseUnit(s).value) == Count
  {
    ListsMatchTable(s);
  }

  /** `v` is a correct verdict for the unrounded per-unit prices `p1` and
      `p2`: it carries their rounded values, names the item whose rounded
      price is lower (or neither), and grades the saving of the cheaper item
      with the higher rounded price first. */
  predicate Sound(p1: real, p2: real, v: Verdict)
  {
    && v.price1 == Round4(p1)
    && v.price2 == Round4(p2)
    && (v.outcome.FirstCheaper? <==> v.price1 < v.price2)
    && (v.outcome.SecondCheaper? <==> v.price2 < v.price1)
    && (v.outcome.FirstCheaper? ==> v.outcome.savings == AnalyzeSavings(v.price2, v.price1))
    && (v.outcome.SecondCheaper? ==> v.outcome.savings == AnalyzeSavings(v.price1, v.price2))
  }

  /** The three-way decision on the rounded prices. */
  function Decide(p1: real, p2: real, base: Base): (v: Verdict)
    ensures Sound(p1, p2, v) && v.base == base
  {
    var r1, r2 := Round4(p1), Round4(p2);
    if r1 < r2 then Verdict(FirstCheaper(AnalyzeSavings(r2, r1)), r1, r2, base)
    else if r1 > r2 then Verdict(SecondCheaper(AnalyzeSavings(r1, r2)), r1, r2, base)
    else Verdict(SamePrice, r1, r2, base)
  }

  /** Prices both items and decides; an item without a price is an error. */
  function Judge(item1: Item, item2: Item): Result<Verdict, CompareError>
  {
    match PricePerUnit(item1)
    case Failure(e) => Failure(FirstInvalid(e))
    case Success(p1) =>
      match PricePerUnit(item2)
      case Failure(e) => Failure(SecondInvalid(e))
      case Success(p2) => Success(Decide(p1, p2, BaseOf(item1.unitType)))
  }

  /** The rule by which the comparator rejects a pair: the first unit is a
      volume and the second is not, or the first is a weight and the second
      is not. */
  predicate MismatchAsWritten(s1: string, s2: string)
  {
    (IsVolume(s1) && !IsVolume(s2)) || (IsWeight(s1) && !IsWeight(s2))
  }

  /** The symmetric rule: the two units differ in being a volume or in being
      a weight. */
  predicate Mismatch(s1: string, s2: string)
  {
    IsVolume(s1) != IsVolume(s2) || IsWeight(s1) != IsWeight(s2)
  }

  /** The comparison as the comparator makes it, with its one-sided rejection rule. */
  function CompareAsWritten(item1: Item, item2: Item): (r: Result<Verdict, CompareError>)
    ensures r == Failure(CategoryMismatch) <==> MismatchAsWritten(item1.unitType, item2.unitType)
    ensures r.Success?
        <==> !MismatchAsWritten(item1.unitType, item2.unitType)
             && PricePerUnit(item1).Success? && PricePerUnit(item2).Success?
    ensures r.Success? ==>
              && Sound(PricePerUnit(item1).value, PricePerUnit(item2).value, r.value)
              && r.value.base == BaseOf(item1.unitType)
  {
    if MismatchAsWritten(item1.unitType, item2.unitType) then Failure(CategoryMismatch)
    else Judge(item1, item2)
  }

  /** The comparison with the symmetric rejection rule. */
  function Compare(item1: Item, item2: Item): (r: Result<Verdict, CompareError>)
    ensures r == Failure(CategoryMismatch) <==> Mismatch(item1.unitType, item2.unitType)
    ensures r.Success?
        <==> !Mismatch(item1.unitType, item2.unitType)
             && PricePerUnit(item1).Success? && PricePerUnit(item2).Success?
    ensures r.Success? ==>
              && Sound(PricePerUnit(item1).value, PricePerUnit(item2).value, r.value)
              && r.value.base == BaseOf(item1.unitType)
  {
    if Mismatch(item1.unitType, item2.unitType) then Failure(CategoryMismatch)
    else Judge(item1, item2)
  }

  /** The units of each list, in list order. */
  const VolumeTable: seq<Unit> := [Liters, FlOz, Gallons, Milliliters, Quarts, Pints]
  const WeightTable: seq<Unit> := [Grams, Kilograms, Ounces, HalfOunces, EighthOunces, Pounds]

  /** A unit's name is in a list exactly when the unit is of that list's category. */
  lemma NameInLists(u: Unit)
    ensures Name(u) in VolumeUnits <==> CategoryOf(u) == Volume
    ensures Name(u) in WeightUnits <==> CategoryOf(u) == Weight
  {
  }

  /** The lists name the units of the table by their keys. */
  lemma ListsNameTable()
    ensures |VolumeUnits| == |VolumeTable| && |WeightUnits| == |WeightTable|
    ensures forall k :: 0 <= k < |VolumeUnits| ==> VolumeUnits[k] == Name(VolumeTable[k])
    ensures forall k :: 0 <= k < |WeightUnits| ==> WeightUnits[k] == Name(WeightTable[k])
    ensures forall k :: 0 <= k < |VolumeTable| ==> CategoryOf(VolumeTable[k]) == Volume
    ensures forall k :: 0 <= k < |WeightTable| ==> CategoryOf(WeightTable[k]) == Weight
  {
  }

  /** The two lists agree with the conversion table: a name is a volume (a
      weight) unit exactly when it denotes a table unit of that category. So
      "units" and every name outside the table are neither. */
  lemma ListsMatchTable(s: string)
    ensures IsVolume(s) <==> ParseUnit(s).Some? && CategoryOf(ParseUnit(s).value) == Volume
    ensures IsWeight(s) <==> ParseUnit(s).Some? && CategoryOf(ParseUnit(s).value) == Weight
  {
    ListsNameTable();
    if ParseUnit(s).Some? {
      var u := ParseUnit(s).value;
      ParseUnitSpec(s, u);
      NameInLists(u);
    }
    if IsVolume(s) {
      var k :| 0 <= k < |VolumeUnits| && VolumeUnits[k] == ToLower(s);
      ParseUnitSpec(s, VolumeTable[k]);
    }
    if IsWeight(s) {
      var k :| 0 <= k < |WeightUnits| && WeightUnits[k] == ToLower(s);
      ParseUnitSpec(s, WeightTable[k]);
    }
  }

  /** For two table units the symmetric rule rejects exactly the pairs of
      different categories, and the comparator's rule exactly those whose
      first unit is a volume or a weight and whose second is of another
      category. */
  lemma MismatchByCategory(s1: string, s2: string)
    requires ParseUnit(s1).Some? && ParseUnit(s2).Some?
    ensures var c1, c2 := CategoryOf(ParseUnit(s1).value), CategoryOf(ParseUnit(s2).value);
            && (Mismatch(s1, s2) <==> c1 != c2)
            && (MismatchAsWritten(s1, s2) <==> c1 != Count && c1 != c2)
  {
    ListsMatchTable(s1);
    ListsMatchTable(s2);
  }

  /** Under the comparator's rule a first item whose unit name is neither a
      volume nor a weight ("units", or a name the table does not know) is
      never rejected, whatever the second item's unit is. */
  lemma CountFirstNeverRejected(item1: Item, item2: Item)
    requires !IsVolume(item1.unitType) && !IsWeight(item1.unitType)
    ensures CompareAsWritten(item1, item2) != Failure(CategoryMismatch)
  {
  }

  /** In particular a first item in "units" is never rejected. */
  lemma PiecesFirstNeverRejected(item1: Item, item2: Item)
    requires ParseUnit(item1.unitType) == Some(Pieces)
    ensures CompareAsWritten(item1, item2) != Failure(CategoryMismatch)
  {
    ListsMatchTable(item1.unitType);
    CountFirstNeverRejected(item1, item2);
  }

  /** Two items in units of the same category are never rejected, by either rule. */
  lemma SameCategoryNeverRejected(item1: Item, item2: Item)
    requires ParseUnit(item1.unitType).Some? && ParseUnit(item2.unitType).Some?
    requires CategoryOf(ParseUnit(item1.unitType).value) == CategoryOf(ParseUnit(item2.unitType).value)
    ensures Compare(item1, item2) != Failure(CategoryMismatch)
    ensures CompareAsWritten(item1, item2) != Failure(CategoryMismatch)
  {
    MismatchByCategory(item1.unitType, item2.unitType);
  }

  /** A volume against a weight is rejected by both rules, in either order. */
  lemma VolumeAgainstWeightRejected(item1: Item, item2: Item)
    requires ParseUnit(item1.unitType).Some? && ParseUnit(item2.unitType).Some?
    requires {CategoryOf(ParseUnit(item1.unitType).value), CategoryOf(ParseUnit(item2.unitType).value)}
          == {Volume, Weight}
    ensures Compare(item1, item2) == Failure(CategoryMismatch)
    ensures CompareAsWritten(item1, item2) == Failure(CategoryMismatch)
  {
    MismatchByCategory(item1.unitType, item2.unitType);
    var c1, c2 := CategoryOf(ParseUnit(item1.unitType).value), CategoryOf(ParseUnit(item2.unitType).value);
    assert c1 in {Volume, Weight} && c2 in {Volume, Weight} && c1 != c2;
  }

  /** The comparator's rule rejects only pairs the symmetric rule rejects,
      and misses exactly the pairs whose first unit is neither a volume nor a
      weight while the second is one of them. Apart from those the two
      comparisons give the same result. */
  lemma AsWrittenVersusSymmetric(item1: Item, item2: Item)
    ensures var s1, s2 := item1.unitType, item2.unitType;
            && (MismatchAsWritten(s1, s2) ==> Mismatch(s1, s2))
            && (Mismatch(s1, s2) && !MismatchAsWritten(s1, s2)
                <==> !IsVolume(s1) && !IsWeight(s1) && (IsVolume(s2) || IsWeight(s2)))
            && (CompareAsWritten(item1, item2) != Compare(item1, item2)
                <==> !IsVolume(s1) && !IsWeight(s1) && (IsVolume(s2) || IsWeight(s2)))
  {
  }

  /** The comparator's rule lets "units" against "liters" through and
      rejects "liters" against "units"; the symmetric rule rejects both. */
  lemma RuleIsAsymmetric()
    ensures !MismatchAsWritten("units", "liters") && MismatchAsWritten("liters", "units")
    ensures Mismatch("units", "liters") && Mismatch("liters", "units")
  {
    assert !IsVolume("units") && !IsWeight("units") by {
      NameClassified(Pieces);
    }
    assert IsVolume("liters") && !IsWeight("liters") by {
      NameClassified(Liters);
    }
  }

  /** So an item priced per piece is compared with any priced item of a
      volume or weight unit when it comes first, and the pair is rejected
      when it comes second; the symmetric rule rejects both orders. */
  lemma AsWrittenIsAsymmetric(count: Item, other: Item)
    requires ParseUnit(count.unitType) == Some(Pieces)
    requires ParseUnit(other.unitType).Some? && CategoryOf(ParseUnit(other.unitType).value) != Count
    requires PricePerUnit(count).Success? && PricePerUnit(other).Success?
    ensures CompareAsWritten(count, other).Success?
    ensures CompareAsWritten(other, count) == Failure(CategoryMismatch)
    ensures Compare(count, other) == Failure(CategoryMismatch)
    ensures Compare(other, count) == Failure(CategoryMismatch)
  {
    MismatchByCategory(count.unitType, other.unitType);
    MismatchByCategory(other.unitType, count.unitType);
  }

  /** One litre at a price of one against one piece at a price of one is an
      instance. */
  lemma AsWrittenAcceptsUnitsAgainstLiters()
    ensures CompareAsWritten(Item(1.0, 1.0, 1.0, "units", 1.0, None),
                             Item(1.0, 1.0, 1.0, "liters", 1.0, None)).Success?
    ensures CompareAsWritten(Item(1.0, 1.0, 1.0, "liters", 1.0, None),
                             Item(1.0, 1.0, 1.0, "units", 1.0, None)) == Failure(CategoryMismatch)
  {
    var count := Item(1.0, 1.0, 1.0, "units", 1.0, None);
    var volume := Item(1.0, 1.0, 1.0, "liters", 1.0, None);
    UnitPriceOfOne(count, Pieces);
    UnitPriceOfOne(volume, Liters);
    AsWrittenIsAsymmetric(count, volume);
  }

  /** A table key is classified by its unit's category and parses to its unit. */
  lemma NameClassified(u: Unit)
    ensures ParseUnit(Name(u)) == Some(u)
    ensures IsVolume(Name(u)) <==> CategoryOf(u) == Volume
    ensures IsWeight(Name(u)) <==> CategoryOf(u) == Weight
  {
    ParseName(u);
    ListsMatchTable(Name(u));
  }

  /** One piece of one unit at a price of one has a per-unit price. */
  lemma UnitPriceOfOne(item: Item, u: Unit)
    requires item.unitType == Name(u) && item.quantity == item.itemsPerPurchase == item.weight == 1.0
    ensures ParseUnit(item.unitType) == Some(u) && PricePerUnit(item).Success?
  {
    ParseName(u);
  }

  /** The verdict with the two items' roles exchanged. */
  function Mirror(v: Verdict): Verdict
  {
    var o := match v.outcome
      case FirstCheaper(t) => SecondCheaper(t)
      case SecondCheaper(t) => FirstCheaper(t)
      case SamePrice => SamePrice;
    Verdict(o, v.price2, v.price1, v.base)
  }

  /** The symmetric comparison does not depend on the order of the items:
      swapping them mirrors the verdict and keeps a category mismatch. */
  lemma CompareSymmetric(item1: Item, item2: Item)
    ensures Compare(item1, item2) == Failure(CategoryMismatch)
        <==> Compare(item2, item1) == Failure(CategoryMismatch)
    ensures Compare(item1, item2).Success? ==>
              Compare(item2, item1) == Success(Mirror(Compare(item1, item2).value))
  {
    if Compare(item1, item2).Success? {
      var v, w := Compare(item1, item2).value, Compare(item2, item1).value;
      assert BaseOf(item1.unitType) == BaseOf(item2.unitType);
      assert w == Mirror(v);
    }
  }

  /** A reported cheaper item is cheaper before rounding too; prices at
      least 0.0001 apart are always told apart; and items reported at the
      same price lie less than 0.0001 apart. */
  lemma VerdictAgainstUnrounded(p1: real, p2: real, v: Verdict)
    requires Sound(p1, p2, v)
    ensures v.outcome.FirstCheaper? ==> p1 < p2
    ensures v.outcome.SecondCheaper? ==> p2 < p1
    ensures p1 + 0.0001 <= p2 ==> v.outcome.FirstCheaper?
    ensures p2 + 0.0001 <= p1 ==> v.outcome.SecondCheaper?
    ensures v.outcome.SamePrice? ==> -0.0001 < p1 - p2 < 0.0001
  {
    if p2 <= p1 {
      Round4Monotone(p2, p1);
    }
    if p1 <= p2 {
      Round4Monotone(p1, p2);
    }
    if p1 + 0.0001 <= p2 {
      Round4Separates(p1, p2);
    }
    if p2 + 0.0001 <= p1 {
      Round4Separates(p2, p1);
    }
  }

  /** Items are reported at the same price exactly when their per-unit
      prices lie in one cell of the 1/10000 grid, so prices that differ only
      beyond the fourth decimal are not told apart. */
  lemma SamePriceExactlyInOneCell(p1: real, p2: real, v: Verdict)
    requires Sound(p1, p2, v)
    requires -Huge < p1 < Huge && -Huge < p2 < Huge
    ensures v.outcome.SamePrice? <==> exists k :: InCell(p1, k) && InCell(p2, k)
  {
    var n := Round4OnGrid(p1);
    Round4OfCell(p1, n);
    Round4OfCell(p2, n);
    if exists k :: InCell(p1, k) && InCell(p2, k) {
      var k :| InCell(p1, k) && InCell(p2, k);
      Round4OfCell(p1, k);
      Round4OfCell(p2, k);
    }
  }

  /** When both per-unit prices are non-negative and one item is reported
      cheaper, the savings tier is computed from a positive higher price, and
      the percentage it grades lies in (0, 100]. */
  lemma CheaperHasPositiveSaving(p1: real, p2: real, v: Verdict)
    requires Sound(p1, p2, v) && p1 >= 0.0 && p2 >= 0.0
    ensures v.outcome.FirstCheaper? ==>
              v.price2 > 0.0 && 0.0 < PercentDifference(v.price2, v.price1) <= 100.0
    ensures v.outcome.SecondCheaper? ==>
              v.price1 > 0.0 && 0.0 < PercentDifference(v.price1, v.price2) <= 100.0
  {
    Round4NonNegative(p1);
    Round4NonNegative(p2);
    if v.outcome.FirstCheaper? {
      PercentInRange(v.price2, v.price1);
    }
    if v.outcome.SecondCheaper? {
      PercentInRange(v.price1, v.price2);
    }
  }
}
