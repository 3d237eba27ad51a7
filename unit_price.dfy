/** The price of an item per canonical base unit (per millilitre, per gram or
    per piece), with the sale price taking precedence over the regular one. */
module UnitPrice {
  import opened Wrappers
  import opened Units

  /** One item as the user describes it: how many purchase units are bought,
      how many pieces each holds, how much one piece measures in `unitType`,
      and the regular and (optional) sale price of the purchase. */
  datatype Item = Item(
    quantity: real,
    itemsPerPurchase: real,
    weight: real,
    unitType: string,
    price: real,
    salePrice: Option<real>)

  /** Why no per-unit price exists: the unit name is not in the table, or the
      total amount is zero. */
  datatype PriceError = UnrecognizedUnit | DegenerateQuantity

  /** The price that is paid: the sale price when it is given and not zero,
      the regular price otherwise. */
  function EffectivePrice(item: Item): (p: real)
    ensures item.salePrice.Some? && item.salePrice.value != 0.0 ==> p == item.salePrice.value
    ensures item.salePrice.None? || item.salePrice.value == 0.0 ==> p == item.price
  {
    match item.salePrice
    case Some(s) => if s != 0.0 then s else item.price
    case None => item.price
  }

  /** The total amount bought, in the base unit of `u`. */
  function TotalAmount(item: Item, u: Unit): real
  {
    item.quantity * item.itemsPerPurchase * item.weight * Factor(u)
  }

  /** The total amount is zero exactly when one of the three counts is. */
  lemma AmountZero(item: Item, u: Unit)
    ensures TotalAmount(item, u) == 0.0
        <==> item.quantity == 0.0 || item.itemsPerPurchase == 0.0 || item.weight == 0.0
  {
    var q, n, w, f := item.quantity, item.itemsPerPurchase, item.weight, Factor(u);
    if q != 0.0 && n != 0.0 && w != 0.0 {
      assert q * n != 0.0;
      assert q * n * w != 0.0;
      assert q * n * w * f != 0.0;
    }
  }

  /** The effective price divided by the total amount in the base unit. The
      unit name is looked up after lower-casing; an unknown name or a zero
      amount yields an error. */
  function PricePerUnit(item: Item): (r: Result<real, PriceError>)
    ensures r == Failure(UnrecognizedUnit) <==> ParseUnit(item.unitType).None?
    ensures r == Failure(DegenerateQuantity)
        <==> ParseUnit(item.unitType).Some?
             && (item.quantity == 0.0 || item.itemsPerPurchase == 0.0 || item.weight == 0.0)
    ensures r.Success? ==>
              ParseUnit(item.unitType).Some?
              && TotalAmount(item, ParseUnit(item.unitType).value) != 0.0
              && r.value * TotalAmount(item, ParseUnit(item.unitType).value) == EffectivePrice(item)
  {
    match ParseUnit(item.unitType)
    case None => Failure(UnrecognizedUnit)
    case Some(u) =>
      AmountZero(item, u);
      var amount := TotalAmount(item, u);
      if amount == 0.0 then Failure(DegenerateQuantity)
      else Success(EffectivePrice(item) / amount)
  }

  /** The item priced as if there were no sale. */
  function Regular(item: Item): Item
  {
    item.(salePrice := None)
  }

  /** The per-unit price of an item that has one, in terms of its parts. */
  lemma PriceParts(item: Item) returns (u: Unit, a: real)
    requires PricePerUnit(item).Success?
    ensures ParseUnit(item.unitType).Some? && u == ParseUnit(item.unitType).value
    ensures a == TotalAmount(item, u) && a != 0.0
    ensures PricePerUnit(item).value * a == EffectivePrice(item)
  {
    u := ParseUnit(item.unitType).value;
    a := TotalAmount(item, u);
  }

  /** Items with the same three counts have the same total amount. */
  lemma SameCountsSameAmount(a: Item, b: Item, u: Unit)
    requires b.quantity == a.quantity && b.itemsPerPurchase == a.itemsPerPurchase && b.weight == a.weight
    ensures TotalAmount(b, u) == TotalAmount(a, u)
  {
  }

  /** The per-unit price depends only on the unit the name denotes, the total
      amount in that unit and the effective price. */
  lemma PriceDeterminedByAmount(a: Item, b: Item)
    requires ParseUnit(b.unitType) == ParseUnit(a.unitType)
    requires ParseUnit(a.unitType).Some? ==>
               TotalAmount(b, ParseUnit(a.unitType).value) == TotalAmount(a, ParseUnit(a.unitType).value)
    requires EffectivePrice(b) == EffectivePrice(a)
    ensures PricePerUnit(b) == PricePerUnit(a)
  {
  }

  /** Case does not matter: "Liters" and "liters" price alike. */
  lemma PriceIgnoresCase(item: Item, s: string)
    requires ToLower(s) == ToLower(item.unitType)
    ensures PricePerUnit(item.(unitType := s)) == PricePerUnit(item)
  {
    ParseIgnoresCase(s, item.unitType);
    var b := item.(unitType := s);
    if ParseUnit(s).Some? {
      SameCountsSameAmount(item, b, ParseUnit(s).value);
    }
    PriceDeterminedByAmount(item, b);
  }

  /** Pricing the item under its lower-cased unit name changes nothing. */
  lemma PriceOfLowered(item: Item)
    ensures PricePerUnit(item.(unitType := ToLower(item.unitType))) == PricePerUnit(item)
  {
    ToLowerIdempotent(item.unitType);
    PriceIgnoresCase(item, ToLower(item.unitType));
  }

  /** Two reals that give the same product with a non-zero factor are equal. */
  lemma CancelFactor(x: real, y: real, a: real)
    requires a != 0.0 && x * a == y * a
    ensures x == y
  {
    assert (x - y) * a == 0.0;
  }

  /** Multiplying by a positive factor preserves order both ways. */
  lemma PositiveFactorOrder(x: real, y: real, a: real)
    requires a > 0.0
    ensures x <= y <==> x * a <= y * a
    ensures x < y <==> x * a < y * a
  {
    assert x * a - y * a == (x - y) * a;
  }

  /** A known unit, a positive amount and a positive effective price give a
      strictly positive price per unit. */
  lemma PricePositive(item: Item)
    requires PricePerUnit(item).Success? && EffectivePrice(item) > 0.0
    requires TotalAmount(item, ParseUnit(item.unitType).value) > 0.0
    ensures PricePerUnit(item).value > 0.0
  {
    var u, a := PriceParts(item);
  }

  /** A sale price no higher than the regular price never makes the per-unit
      price higher, when the amount bought is positive; a strictly lower,
      non-zero sale price makes it strictly lower. */
  lemma SaleNeverWorse(item: Item)
    requires PricePerUnit(item).Success?
    requires TotalAmount(item, ParseUnit(item.unitType).value) > 0.0
    requires item.salePrice.Some? && item.salePrice.value <= item.price
    ensures PricePerUnit(Regular(item)).Success?
    ensures PricePerUnit(item).value <= PricePerUnit(Regular(item)).value
    ensures item.salePrice.value != 0.0 && item.salePrice.value < item.price
            ==> PricePerUnit(item).value < PricePerUnit(Regular(item)).value
  {
    var u, a := PriceParts(item);
    var r := Regular(item);
    SameCountsSameAmount(item, r, u);
    assert PricePerUnit(r).Success?;
    var u', a' := PriceParts(r);
    PositiveFactorOrder(PricePerUnit(item).value, PricePerUnit(r).value, a);
  }

  /** Two items with the same effective price and the same total amount in
      the base unit have the same per-unit price, whatever units and pack
      sizes make up that amount. */
  lemma EqualAmountsEqualPrices(a: Item, b: Item)
    requires PricePerUnit(a).Success? && ParseUnit(b.unitType).Some?
    requires EffectivePrice(a) == EffectivePrice(b)
    requires TotalAmount(a, ParseUnit(a.unitType).value) == TotalAmount(b, ParseUnit(b.unitType).value)
    ensures PricePerUnit(b) == PricePerUnit(a)
  {
    var ua, t := PriceParts(a);
    assert PricePerUnit(b).Success?;
    var ub, t' := PriceParts(b);
    CancelFactor(PricePerUnit(a).value, PricePerUnit(b).value, t);
  }

  /** Scaling the three counts scales the amount by the product of the factors. */
  lemma ScaledProduct(q: real, n: real, w: real, f: real, kq: real, kn: real, kw: real)
    requires kq != 0.0 && kn != 0.0 && kw != 0.0
    ensures kq * kn * kw != 0.0
    ensures (kq * q) * (kn * n) * (kw * w) * f == (kq * kn * kw) * (q * n * w * f)
  {
    assert kq * kn != 0.0;
  }

  /** The per-unit price is the one value that multiplied by the total
      amount gives the effective price. */
  lemma PriceFromParts(item: Item, a: real, v: real)
    requires ParseUnit(item.unitType).Some?
    requires a == TotalAmount(item, ParseUnit(item.unitType).value) && a != 0.0
    requires v * a == EffectivePrice(item)
    ensures PricePerUnit(item) == Success(v)
  {
    CancelFactor(PricePerUnit(item).value, v, a);
  }

  /** Dividing by k undoes a k-fold amount. */
  lemma QuotientTimesScaled(v: real, k: real, a: real)
    requires k != 0.0
    ensures (v / k) * (k * a) == v * a
  {
  }

  /** The scaled copy of an item used by `ScaleAmount`. */
  function Scaled(item: Item, kq: real, kn: real, kw: real): Item
  {
    item.(quantity := kq * item.quantity,
          itemsPerPurchase := kn * item.itemsPerPurchase,
          weight := kw * item.weight)
  }

  /** Scaling the three counts scales the total amount by the factors' product. */
  lemma ScaledAmount(item: Item, kq: real, kn: real, kw: real, u: Unit)
    requires kq != 0.0 && kn != 0.0 && kw != 0.0
    ensures kq * kn * kw != 0.0
    ensures TotalAmount(Scaled(item, kq, kn, kw), u) == (kq * kn * kw) * TotalAmount(item, u)
  {
    ScaledProduct(item.quantity, item.itemsPerPurchase, item.weight, Factor(u), kq, kn, kw);
  }

  /** The per-unit price is inversely proportional to the amount: scaling the
      quantity, the pack size and the piece size by non-zero factors divides
      the per-unit price by their product. */
  lemma ScaleAmount(item: Item, kq: real, kn: real, kw: real)
    requires PricePerUnit(item).Success?
    requires kq != 0.0 && kn != 0.0 && kw != 0.0
    ensures PricePerUnit(Scaled(item, kq, kn, kw)) == Success(PricePerUnit(item).value / (kq * kn * kw))
  {
    var scaled := Scaled(item, kq, kn, kw);
    var u, a := PriceParts(item);
    var v, k := PricePerUnit(item).value, kq * kn * kw;
    ScaledAmount(item, kq, kn, kw, u);
    NonZeroProduct(k, a);
    QuotientTimesScaled(v, k, a);
    assert EffectivePrice(scaled) == EffectivePrice(item);
    PriceFromParts(scaled, k * a, v / k);
  }

  /** A product of non-zero reals is non-zero. */
  lemma NonZeroProduct(x: real, y: real)
    requires x != 0.0 && y != 0.0
    ensures x * y != 0.0
  {
  }

  /** Buying twice as many halves the per-unit price. */
  lemma DoubleQuantityHalves(item: Item)
    requires PricePerUnit(item).Success?
    ensures PricePerUnit(item.(quantity := 2.0 * item.quantity))
         == Success(PricePerUnit(item).value / 2.0)
  {
    ScaleAmount(item, 2.0, 1.0, 1.0);
    assert Scaled(item, 2.0, 1.0, 1.0) == item.(quantity := 2.0 * item.quantity);
  }

  /** An amount in litres prices like a thousand times that amount in
      millilitres, and kilograms like a thousand times as many grams. */
  lemma MetricEquivalence(item: Item, milli: string)
    requires || (ParseUnit(item.unitType) == Some(Liters) && ParseUnit(milli) == Some(Milliliters))
             || (ParseUnit(item.unitType) == Some(Kilograms) && ParseUnit(milli) == Some(Grams))
    ensures PricePerUnit(item.(unitType := milli, weight := 1000.0 * item.weight)) == PricePerUnit(item)
  {
    var b := item.(unitType := milli, weight := 1000.0 * item.weight);
    var ua, ub := ParseUnit(item.unitType).value, ParseUnit(milli).value;
    MetricAmount(item.quantity, item.itemsPerPurchase, item.weight, Factor(ub));
    assert TotalAmount(b, ub) == TotalAmount(item, ua);
    AmountZero(item, ua);
    AmountZero(b, ub);
    if PricePerUnit(item).Success? {
      EqualAmountsEqualPrices(item, b);
    }
  }

  /** A thousandfold piece size in a thousandfold smaller unit is the same amount. */
  lemma MetricAmount(q: real, n: real, w: real, f: real)
    ensures q * n * (1000.0 * w) * f == q * n * w * (1000.0 * f)
  {
  }

  /** An item whose unit name is a table key, with non-zero counts, costs
      its effective price divided by its amount. */
  lemma PriceOfKnownUnit(item: Item, u: Unit)
    requires item.unitType == Name(u)
    requires item.quantity != 0.0 && item.itemsPerPurchase != 0.0 && item.weight != 0.0
    ensures TotalAmount(item, u) != 0.0
    ensures PricePerUnit(item) == Success(EffectivePrice(item) / TotalAmount(item, u))
  {
    ParseName(u);
    AmountZero(item, u);
  }
}
