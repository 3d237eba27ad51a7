# Unit-price comparator, modelled in Dafny

The comparator takes two shop items. Each item has a quantity, a number of
items per purchase, a weight or volume per item, a unit name, a price and an
optional sale price. For each item it computes the price per canonical unit:
per millilitre, per gram or per count. The conversion table has thirteen
entries, and the unit name is lower-cased before it is looked up. The
comparator then does three things:
- it rounds both prices per unit to four decimals;
- it rejects pairs that mix volume and weight units;
- it says which item is cheaper and how big the saving is, in one of four
  tiers (minimal, moderate, significant, major).

The model is pure: datatypes, functions and lemmas over exact `real`
arithmetic. The source computes with expressions and `if`/`else` ladders and
updates no state in the parts modelled here.

Modules (one concept each):

- `Wrappers` (wrappers.dfy): `Option` and `Result`.
- `Units` (units.dfy) holds the thirteen units, their table keys, factors and
  categories. It also holds case-insensitive lookup (`ParseUnit`). Lower-casing
  covers the ASCII capitals and the Kelvin sign. The Kelvin sign is the one
  non-ASCII character whose lower case is made of ASCII letters only.
- `UnitPrice` (unit_price.dfy) holds the effective price (sale price if present
  and non-zero, otherwise the regular price) and the total amount. It also
  holds `PricePerUnit`, which returns a failure where the program would compute
  `NaN` or `Infinity`.
- `Rounding` (rounding.dfy) models `parseFloat(x.toFixed(4))`. It rounds half
  up on the magnitude and puts the sign back, which is how section 21.1.3.3 of
  ECMA-262 (`Number.prototype.toFixed`) rounds. It leaves numbers of magnitude
  10^21 or more unchanged.
- `Savings` (savings.dfy) models `analyzeSavings`: the percentage difference
  and its four half-open bands.
- `Comparison` (comparison.dfy) holds the decision part of the compare
  handler:
  - the volume and weight lists, and the category check;
  - the three-way verdict on the rounded prices;
  - the base unit it is reported in.

  The category check comes both as the program writes it (`CompareAsWritten`)
  and in a corrected, symmetric form (`Compare`); see "## Findings".
- `Scenarios` (scenarios.dfy) holds the six scenarios of the test suite as
  lemmas, with the suite's expected values and tolerances.

## Model

| member | source | states |
|---|---|---|
| Units.Factor | script.js:3-17 | every conversion factor in the table is positive |
| Units.MetricPrefixes | script.js:4-9 | a litre is 1000 millilitres and a kilogram 1000 grams, each pair in one category |
| Units.CustomaryRounding | script.js:6-15 | the customary factors are rounded separately: four quarts are 0.002 mL more than a gallon, a quart is 0.001 mL more than two pints, and half and eighth ounces are within 0.0001 g of their fractions of an ounce |
| Units.LowerChar | script.js:19 | `toLowerCase` on one character: capitals A-Z map to their lower case, the Kelvin sign maps to 'k', every other character is unchanged, and the result is never a capital nor the Kelvin sign |
| Units.ToLower | script.js:19 | lower-casing keeps the length and lower-cases each character in place |
| Units.ToLowerIdempotent | script.js:19 | lower-casing twice is lower-casing once |
| Units.ToLowerOfLower | script.js:19 | a string with no capital is its own lower case |
| Units.TableComplete | script.js:3-17 | every unit is a key of the table |
| Units.NameInjective | script.js:3-17 | the thirteen keys are distinct |
| Units.FindSound | script.js:19 | what the key search finds is in the list and has the key as its name |
| Units.FindComplete | script.js:19 | the key search finds every unit whose name is the key |
| Units.LookupSpec | script.js:19 | `conversions[key]` holds a conversion factor exactly when key is some unit's name, and then it is that unit's factor |
| Units.ParseUnit | script.js:19 | `conversions[item.unitType.toLowerCase()]`: the name is lower-cased and looked up among the keys; no contract of its own, its meaning is stated by `ParseUnitSpec` and `ParseUnitNone` |
| Units.ParseUnitSpec | script.js:19 | a unit name denotes unit u exactly when its lower case is u's key |
| Units.ParseUnitNone | script.js:19 | a unit name denotes no unit exactly when its lower case is no key |
| Units.ParseName | script.js:3-19 | every key, typed as it is, is found |
| Units.ParseIgnoresCase | script.js:19 | names that agree after lower-casing denote the same unit, so "Liters" and "liters" are the same |
| Units.ParseLowered | script.js:19 | looking up the lower-cased name gives what looking up the name gives |
| UnitPrice.EffectivePrice | script.js:20 | the `salePrice \|\| price` rule: the sale price exactly when it is present and non-zero, otherwise the regular price |
| UnitPrice.TotalAmount | script.js:19 | quantity x items per purchase x weight x the unit's factor; no contract of its own, its zero case is stated by `AmountZero` and its scaling by `ScaledAmount` |
| UnitPrice.AmountZero | script.js:19 | the total amount is zero exactly when quantity, items per purchase or weight is zero |
| UnitPrice.PricePerUnit | script.js:2-21 | it fails as unrecognised exactly when the lower-cased unit is no key. It fails as degenerate exactly when the unit is known and a count is zero. On success the amount is non-zero and the result times the amount is the effective price. The copy at tests.js:4-23 is the same table and formula, so this one function models both |
| UnitPrice.PriceParts | script.js:19-20 | a successful result comes from a known unit and a non-zero amount, and the result times that amount is the effective price |
| UnitPrice.PriceOfKnownUnit | script.js:19-20 | for a unit's own key and non-zero counts, the result is the effective price over quantity x items x weight x factor |
| UnitPrice.PriceFromParts | script.js:19-20 | the result is the value v that gives the effective price when multiplied by the non-zero amount |
| UnitPrice.PriceDeterminedByAmount | script.js:19-20 | items with the same unit, counts and effective price have the same result |
| UnitPrice.EqualAmountsEqualPrices | script.js:19-20 | any two items with equal total amounts and equal effective prices have equal results, whatever their units and counts |
| UnitPrice.PriceIgnoresCase | script.js:19 | changing the case of the unit name does not change the result |
| UnitPrice.PriceOfLowered | script.js:19 | lower-casing the unit name beforehand, as the form handler also does at line 188, does not change the result |
| UnitPrice.SaleNeverWorse | script.js:20 | for an item with a price and a positive total amount, and a sale price at most the regular price, the result is at most the regular-price result, and strictly less when the sale price is non-zero and below the price |
| UnitPrice.PricePositive | script.js:19-20 | an item with a price, a positive total amount and a positive effective price has a strictly positive price per unit |
| UnitPrice.ScaledAmount | script.js:19 | scaling the three counts by kq, kn, kw scales the amount by kq x kn x kw |
| UnitPrice.ScaleAmount | script.js:19-20 | scaling the counts by non-zero kq, kn, kw divides the result by kq x kn x kw |
| UnitPrice.DoubleQuantityHalves | script.js:19-20 | doubling the quantity halves the result |
| UnitPrice.MetricEquivalence | script.js:4-19 | W litres price like 1000 x W millilitres, and W kilograms like 1000 x W grams |
| Rounding.Round4 | script.js:209-210 | `parseFloat(x.toFixed(4))` on reals; no contract of its own, its meaning is stated by `Round4OnGrid` and `Round4OfCell` |
| Rounding.Round4OnGrid | script.js:209-210 | below 10^21 in magnitude the rounded value is a whole number of steps of 1/10000 |
| Rounding.Round4OfCell | script.js:209-210 | below 10^21 in magnitude a price rounds to k/10000 exactly when it lies in that point's cell: [k/10000 - 0.00005, k/10000 + 0.00005) for k > 0, the mirror image for k < 0, and (-0.00005, 0.00005) for k = 0, so ties go away from zero |
| Rounding.Round4Cell | script.js:209-210 | the rounded value r is within 0.00005 of the price; below 10^21 in magnitude a price with r > 0 lies in [r - 0.00005, r + 0.00005), one with r < 0 in (r - 0.00005, r + 0.00005], and one with r = 0 in (-0.00005, 0.00005) |
| Rounding.Round4Monotone | script.js:209-210 | rounding keeps the order of prices |
| Rounding.Round4Separates | script.js:209-210 | prices at least 0.0001 apart round to different, ordered values |
| Rounding.Round4Idempotent | script.js:209-210 | rounding a rounded price changes nothing |
| Rounding.MagnitudeIdempotent | script.js:209-210 | rounding a rounded magnitude changes nothing, and magnitudes stay non-negative |
| Rounding.Round4NonNegative | script.js:209-210 | a non-negative price rounds to a non-negative value |
| Savings.PercentDifference | script.js:157 | `(higher - lower) / higher * 100` for a non-zero higher price; no contract of its own, its range is stated by `PercentInRange` and `PercentAsRatio` |
| Savings.AnalyzeSavings | script.js:156-176 | the tier `analyzeSavings` reports: the band of the percentage, or for a +0 higher price the IEEE-754 outcome (a -0 higher price is not modelled); no contract of its own, its tiers are stated by `TierByRatio` and `ZeroHigherPrice` |
| Savings.ZeroHigherPrice | script.js:157-173 | with a +0 higher price the percentage is -Infinity (a positive lower price, Minimal) or +Infinity or NaN (Major): Minimal exactly when the lower price is positive, Major exactly otherwise |
| Savings.Band | script.js:161-173 | the tier is Minimal exactly below 5, Moderate exactly on [5, 15), Significant exactly on [15, 30), Major exactly from 30 |
| Savings.BandBoundaries | script.js:161-173 | the bands are half-open above: exactly 5, 15 and 30 fall in the next tier up |
| Savings.BandMonotone | script.js:161-173 | the tier never goes down as the percentage grows |
| Savings.PercentInRange | script.js:157 | for a positive higher price and a lower lower one, the percentage is positive, at most 100 when the lower price is not negative, and below 100 when it is positive |
| Savings.PercentAsRatio | script.js:157 | the percentage is 100 minus 100 times lower / higher |
| Savings.TierByRatio | script.js:156-173 | the tier by the ratio of the prices: above 0.95 Minimal, (0.85, 0.95] Moderate, (0.70, 0.85] Significant, at most 0.70 Major |
| Savings.SavingsScaleFree | script.js:157-173 | scaling both prices by a positive factor changes neither the percentage nor the tier |
| Comparison.IsVolume | script.js:216-217 | `volumeUnits.includes(unitType)` on the lower-cased name; no contract of its own, its meaning is stated by `ListsMatchTable` |
| Comparison.IsWeight | script.js:218-219 | `weightUnits.includes(unitType)` on the lower-cased name; no contract of its own, its meaning is stated by `ListsMatchTable` |
| Comparison.BaseOf | script.js:229 | the base a verdict is quoted in, per mL, per g or per unit after the first item's unit; no contract of its own, `CompareAsWritten` and `Compare` state that the verdict carries it |
| Comparison.BaseOfCategory | script.js:229 | a verdict is quoted per mL exactly when the first unit is a volume unit of the table, per g exactly when it is a weight unit, and per unit exactly when it is a count or unknown |
| Comparison.MismatchAsWritten | script.js:226 | the rejection rule as written; no contract of its own, its meaning is stated by `MismatchByCategory` and `AsWrittenVersusSymmetric` |
| Comparison.Mismatch | script.js:226 | the corrected, symmetric rejection rule; no contract of its own, its meaning is stated by `MismatchByCategory` |
| Comparison.ListsNameTable | script.js:213-214 | the volume and weight lists name, in order, table units of that category |
| Comparison.NameInLists | script.js:213-214 | a unit's key is in the volume list exactly when it is a volume unit, and likewise for weight |
| Comparison.ListsMatchTable | script.js:213-219 | a unit name is classified as volume (weight) exactly when it denotes a volume (weight) unit of the table |
| Comparison.NameClassified | script.js:213-219 | every key is found and classified by its category |
| Comparison.Decide | script.js:209-241 | the verdict is made on the rounded prices: first cheaper exactly when its rounded price is lower, second cheaper exactly when the other's is, the same price otherwise, with the savings tier of (higher, lower) |
| Comparison.CompareAsWritten | script.js:205-241 | rejected as a category mismatch exactly under the rule of line 226; a verdict exactly when not rejected and both prices exist; the verdict is sound on the rounded prices and reported per mL, per g or per unit after the first item's unit |
| Comparison.Compare | script.js:205-241 | as `CompareAsWritten`, with the mismatch rule made symmetric: rejected exactly when the two units differ in being volume or in being weight |
| Comparison.MismatchByCategory | script.js:226 | for known units, the symmetric rule rejects exactly different categories, and the rule as written rejects them only when the first unit is not a count |
| Comparison.CountFirstNeverRejected | script.js:226 | as written, a first item whose unit name is neither a volume nor a weight is never rejected |
| Comparison.PiecesFirstNeverRejected | script.js:226 | as written, a first item in "units" is never rejected |
| Comparison.SameCategoryNeverRejected | script.js:226 | two units of one category are never rejected, under either rule |
| Comparison.VolumeAgainstWeightRejected | script.js:226-227 | a volume unit against a weight unit is rejected in either order, under either rule |
| Comparison.AsWrittenVersusSymmetric | script.js:226 | the rule as written rejects only what the symmetric rule rejects. The two rules differ exactly when the first unit is neither volume nor weight and the second is one of them |
| Comparison.RuleIsAsymmetric | script.js:226 | "units" against "liters" passes the rule as written, while "liters" against "units" does not; the symmetric rule rejects both |
| Comparison.AsWrittenIsAsymmetric | script.js:226-241 | a count item against a volume or weight item gets a verdict as written, but is rejected in the other order and by the symmetric rule in both orders |
| Comparison.AsWrittenAcceptsUnitsAgainstLiters | script.js:226-241 | one unit of "units" against one litre gets a verdict as written, and the reverse pair is rejected |
| Comparison.UnitPriceOfOne | script.js:19-20 | one item of a unit's own key always has a price per unit |
| Comparison.CompareSymmetric | script.js:226-241 | with the symmetric rule, swapping the items keeps a mismatch and mirrors the verdict |
| Comparison.VerdictAgainstUnrounded | script.js:209-240 | a reported cheaper item is cheaper before rounding; prices at least 0.0001 apart are always told apart; items reported at the same price are less than 0.0001 apart |
| Comparison.SamePriceExactlyInOneCell | script.js:209-241 | below 10^21 in magnitude, two items are reported at the same price exactly when their per-unit prices lie in one cell of the 1/10000 grid |
| Comparison.CheaperHasPositiveSaving | script.js:231-238 | for non-negative per-unit prices, when an item is reported cheaper, the savings analysis gets a positive higher price and a percentage in (0, 100] |
| Scenarios.TwoLitersPrice | tests.js:28-34 | 2 L at 3.49 cost exactly 0.001745 per mL |
| Scenarios.SixteenPackPrice | tests.js:36-42 | 16 x 20 fl oz at 18.28 cost 18.28 / 9463.52 per mL |
| Scenarios.BottleAgainstSixteenPack | tests.js:27-50 | the bottle costs 0.001745 per mL, the 16-pack 0.001931 to within 0.00005, and the bottle is cheaper |
| Scenarios.BottlePricesRounded | script.js:209-210 | the two prices of the first scenario round to 0.0017 and 0.0019 |
| Scenarios.BottleAgainstSixteenPackVerdict | script.js:205-241 | under the comparator's own rule (`CompareAsWritten`) and under the symmetric one, the bottle is reported cheaper per mL at 0.0017 against 0.0019, a moderate saving |
| Scenarios.HalfKiloPrice | tests.js:54-60 | 500 g at 2.99 cost 0.00598 per gram |
| Scenarios.OneKiloPrice | tests.js:62-68 | 1 kg at 5.99 cost 0.00599 per gram |
| Scenarios.GramsAgainstKilogram | tests.js:53-75 | the second scenario's expected values hold exactly |
| Scenarios.TwoLitersOnSalePrice | tests.js:79-86 | the bottle on sale at 2.99 costs 0.001495 per mL |
| Scenarios.SalePriceIsUsed | tests.js:78-100 | the sale price is used, and the bottle on sale is strictly cheaper per mL than at its regular price |
| Scenarios.TwoSixPacksPrice | tests.js:104-110 | two 6-packs of 12 fl oz at 10.99 cost 10.99 / 4258.584 per mL |
| Scenarios.TwelvePackPrice | tests.js:112-118 | one 12-pack of 12 fl oz at 10.99 costs 10.99 / 4258.584 per mL |
| Scenarios.PacksOfEqualVolume | tests.js:103-124 | the two packings cost exactly the same per mL |
| Scenarios.TenthGramsPrice | tests.js:128-134 | a hundred 0.1 g pieces at 5.99 cost 0.599 per gram |
| Scenarios.TenGramsPrice | tests.js:136-142 | one 10 g piece at 0.99 costs 0.099 per gram |
| Scenarios.SmallMeasurements | tests.js:127-149 | the fifth scenario's expected values hold exactly |
| Scenarios.OneGallonPrice | tests.js:153-159 | a gallon at 3.99 costs 3.99 / 3785.41 per mL |
| Scenarios.FourQuartsPrice | tests.js:161-167 | four quarts at 4.99 cost 4.99 / 3785.412 per mL |
| Scenarios.GallonAgainstQuarts | tests.js:152-174 | the gallon is cheaper per mL than the four quarts |

## Left out

- The `runTests` runner is left out, because it is test plumbing whose four scenarios repeat those of tests.js. The runner is in script.js:24-153: the console logging, the pass counter and the test button at script.js:267-288.
- The DOM is left out because it is user-interface code, not logic: reading the form, writing `innerHTML`, `setColor`, the colours, the HTML text of the messages and `setTimeout`.
- Form parsing is left out: `parseFloat` of the fields and the `|| 1`, `|| 0` and `|| null` defaults (script.js:185-201). This is string-to-number parsing. The defaults mean the form never passes a zero count; the model allows any count and reports a zero amount as `DegenerateQuantity`.
- Unit names: the form lower-cases the name once (script.js:188) and the price function lower-cases it again. `PriceOfLowered` shows lower-casing twice changes nothing, so the model lower-cases once.
- IEEE-754 doubles are not modelled: prices, factors and rounding are exact reals. Signed zero and the binary representation of the decimal constants are not modelled. The only place `NaN` or `Infinity` is modelled is a +0 higher price in `AnalyzeSavings` (a -0 higher price, which rounding a tiny negative price gives, would turn a negative lower price's percentage into -Infinity and Minimal, where the model says Major): a −∞ percentage is Minimal, and +∞ or `NaN` is Major.
- UnitPrice.PricePerUnit: where the program divides and gets `NaN` (an unknown unit, or a zero amount with a zero effective price) or `±Infinity` (a zero amount with a non-zero effective price), the model returns `Failure`. The handler would then compare `NaN`s, which makes the pair "the same price", or compare infinities. The model reports `FirstInvalid` or `SecondInvalid` instead.
- Comparison.Compare: the category check comes before the price checks, as in the handler, so a category mismatch is reported even when a price would not exist.
- Negative counts and prices are not rejected, since the program does not check them either (`parseFloat("-2") || 1` is -2). The lemmas that need signs say so in their preconditions: `SaleNeverWorse` and `PricePositive` need a positive total amount, and `CheaperHasPositiveSaving` needs non-negative per-unit prices.
- Units.Lookup: keys that the object literal inherits ("constructor", "__proto__") are found by the program's lookup but hold no factor; multiplying by them gives `NaN`, as for an unknown key, which the model reports as `UnrecognizedUnit`.
- Lower-casing covers only the characters that can change a table lookup: the ASCII capitals and the Kelvin sign. Every other character either is unchanged or lower-cases to a string that contains a character outside ASCII, which no key contains, so lookups agree.
- Units.ToLower: keeps the length of the string, which `toLowerCase` does not for U+0130 (capital I with dot), whose lower case is "i" followed by U+0307. Neither form is a table key, so the lookup is unaffected.
- Item names appear only in the HTML messages, so they are not modelled.

## Findings

| source | as written | input that shows it | evidently intended | confidence | as-written member | corrected member |
|---|---|---|---|---|---|---|
| script.js:226 | `(isItem1Volume && !isItem2Volume) \|\| (isItem1Weight && !isItem2Weight)` rejects a pair only when the first item is volume or weight, so it is asymmetric | item 1 in "units" against item 2 in "liters" gets a verdict (per unit), while the same items in the other order are rejected as a volume/weight mismatch | a symmetric rule that rejects any pair whose two units differ in being volume or in being weight, in either order | not executed | Comparison.AsWrittenAcceptsUnitsAgainstLiters | Comparison.CompareSymmetric |
