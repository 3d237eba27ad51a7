/** How large the saving of the cheaper item is, as one of four tiers of the
    percentage by which its per-unit price undercuts the other's. */
module Savings {

  /** The four tiers, from the smallest saving to the largest. */
  datatype Tier = Minimal | Moderate | Significant | Major

  /** The position of a tier in the order Minimal < Moderate < Significant < Major. */
  function Rank(t: Tier): nat
  {
    match t
    case Minimal => 0
    case Moderate => 1
    case Significant => 2
    case Major => 3
  }

  /** By how many percent `lower` undercuts `higher`. */
  function PercentDifference(higher: real, lower: real): real
    requires higher != 0.0
  {
    (higher - lower) / higher * 100.0
  }

  /** The tier of a percentage: below 5, below 15, below 30, or 30 and more.
      Each band includes its lower bound and excludes its upper one. */
  function Band(pct: real): (t: Tier)
    ensures t == Minimal <==> pct < 5.0
    ensures t == Moderate <==> 5.0 <= pct < 15.0
    ensures t == Significant <==> 15.0 <= pct < 30.0
    ensures t == Major <==> 30.0 <= pct
  {
    if pct < 5.0 then Minimal
    else if pct < 15.0 then Moderate
    else if pct < 30.0 then Significant
    else Major
  }

  /** The tier the comparator reports for a pair of prices. When `higher` is
      zero the percentage is an IEEE-754 infinity or NaN: minus infinity (a
      positive `lower`) is below 5, plus infinity and NaN fall through every
      test to the last tier. */
  function AnalyzeSavings(higher: real, lower: real): Tier
  {
    if higher == 0.0 then (if lower > 0.0 then Minimal else Major)
    else Band(PercentDifference(higher, lower))
  }

  /** With a zero higher price there is no finite percentage: the saving is
      minimal exactly when the lower price is positive, and major otherwise. */
  lemma ZeroHigherPrice(lower: real)
    ensures AnalyzeSavings(0.0, lower) == Minimal <==> lower > 0.0
    ensures AnalyzeSavings(0.0, lower) == Major <==> lower <= 0.0
  {
  }

  /** The bands meet exactly at 5, 15 and 30, each boundary belonging to the
      higher tier. */
  lemma BandBoundaries()
    ensures Band(5.0) == Moderate && Band(15.0) == Significant && Band(30.0) == Major
    ensures forall p :: p < 5.0 ==> Band(p) == Minimal
  {
  }

  /** A larger percentage never gives a smaller tier. */
  lemma BandMonotone(p: real, q: real)
    requires p <= q
    ensures Rank(Band(p)) <= Rank(Band(q))
  {
  }

  /** When the lower price really is lower and the higher one is positive, the
      percentage is positive; it is at most 100 when the lower price is not
      negative, and below 100 when it is positive. */
  lemma PercentInRange(higher: real, lower: real)
    requires higher > 0.0 && lower < higher
    ensures PercentDifference(higher, lower) > 0.0
    ensures lower >= 0.0 ==> PercentDifference(higher, lower) <= 100.0
    ensures lower > 0.0 ==> PercentDifference(higher, lower) < 100.0
  {
    PercentAsRatio(higher, lower);
  }

  /** For a positive higher price the percentage is 100 times one minus the
      ratio of the two prices. */
  lemma PercentAsRatio(higher: real, lower: real)
    requires higher > 0.0
    ensures PercentDifference(higher, lower) == 100.0 - 100.0 * (lower / higher)
  {
    assert (higher - lower) / higher == higher / higher - lower / higher;
    assert higher / higher == 1.0;
  }

  /** For a positive higher price the tier can be read off the ratio of the
      prices: Minimal when the lower price is above 95 % of the higher one,
      Moderate above 85 %, Significant above 70 %, Major otherwise. */
  lemma TierByRatio(higher: real, lower: real)
    requires higher > 0.0
    ensures var t := AnalyzeSavings(higher, lower);
            && (t == Minimal <==> lower > 0.95 * higher)
            && (t == Moderate <==> 0.85 * higher < lower <= 0.95 * higher)
            && (t == Significant <==> 0.70 * higher < lower <= 0.85 * higher)
            && (t == Major <==> lower <= 0.70 * higher)
  {
    var q := lower / higher;
    var p := PercentDifference(higher, lower);
    PercentAsRatio(higher, lower);
    assert (p < 5.0 <==> q > 0.95) && (p < 15.0 <==> q > 0.85) && (p < 30.0 <==> q > 0.70);
    RatioOrder(lower, higher, 0.95);
    RatioOrder(lower, higher, 0.85);
    RatioOrder(lower, higher, 0.70);
  }

  /** Comparing a ratio with a constant is comparing the numerator with the
      scaled constant. */
  lemma RatioOrder(l: real, h: real, c: real)
    requires h > 0.0
    ensures l / h > c <==> l > c * h
  {
    var q := l / h;
    assert l == q * h;
    if q > c {
      assert (q - c) * h > 0.0;
    } else {
      assert (c - q) * h >= 0.0;
    }
  }

  /** The percentage, and so the tier, depends only on the ratio of the two
      prices: scaling both by the same positive factor changes neither. */
  lemma SavingsScaleFree(higher: real, lower: real, k: real)
    requires higher != 0.0 && k > 0.0
    ensures PercentDifference(k * higher, k * lower) == PercentDifference(higher, lower)
    ensures AnalyzeSavings(k * higher, k * lower) == AnalyzeSavings(higher, lower)
  {
    var d := (higher - lower) / higher;
    assert k * higher != 0.0;
    assert (k * higher - k * lower) == k * (higher - lower);
    assert (k * (higher - lower)) / (k * higher) == d;
  }

}
