/** The conversion table of the unit-price calculator and the case-insensitive
    lookup of a unit name in it. */
module Units {
  import opened Wrappers

  /** The thirteen unit names the conversion table knows. */
  datatype Unit =
    | Liters | FlOz | Gallons | Milliliters
    | Grams | Kilograms | Ounces | HalfOunces | EighthOunces | Pounds
    | Quarts | Pints | Pieces

  /** What the canonical base unit of a unit is: millilitres, grams or a count. */
  datatype Category = Volume | Weight | Count

  /** The table key of a unit (all keys are lower case). */
  function Name(u: Unit): string
  {
    match u
    case Liters => "liters"
    case FlOz => "fl oz"
    case Gallons => "gallons"
    case Milliliters => "milliliters"
    case Grams => "grams"
    case Kilograms => "kilograms"
    case Ounces => "ounces"
    case HalfOunces => "half ounces"
    case EighthOunces => "eighth ounces"
    case Pounds => "pounds"
    case Quarts => "quarts"
    case Pints => "pints"
    case Pieces => "units"
  }

  /** How many canonical base units one unit of `u` is. */
  function Factor(u: Unit): (f: real)
    ensures f > 0.0
  {
    match u
    case Liters => 1000.0
    case FlOz => 29.5735
    case Gallons => 3785.41
    case Milliliters => 1.0
    case Grams => 1.0
    case Kilograms => 1000.0
    case Ounces => 28.3495
    case HalfOunces => 14.1748
    case EighthOunces => 3.5437
    case Pounds => 453.592
    case Quarts => 946.353
    case Pints => 473.176
    case Pieces => 1.0
  }

  /** The base unit that `Factor(u)` is expressed in. */
  function CategoryOf(u: Unit): Category
  {
    match u
    case Liters | FlOz | Gallons | Milliliters | Quarts | Pints => Volume
    case Grams | Kilograms | Ounces | HalfOunces | EighthOunces | Pounds => Weight
    case Pieces => Count
  }

  /** Lower-cases one character as far as it can matter for the table: the
      ASCII capitals, and the Kelvin sign, whose lower case is the ASCII 'k'.
      Every other character either is unchanged or lower-cases to a string
      that contains a character outside ASCII, which no table key contains. */
  function LowerChar(c: char): (d: char)
    ensures 'A' <= c <= 'Z' ==> d as int == c as int + 32
    ensures c == '\U{212A}' ==> d == 'k'
    ensures !('A' <= c <= 'Z') && c != '\U{212A}' ==> d == c
    ensures !('A' <= d <= 'Z') && d != '\U{212A}'
  {
    if 'A' <= c <= 'Z' then (c as int + 32) as char
    else if c == '\U{212A}' then 'k'
    else c
  }

  /** The string lower-cased character by character. */
  function ToLower(s: string): (r: string)
    ensures |r| == |s|
    ensures forall i :: 0 <= i < |s| ==> r[i] == LowerChar(s[i])
  {
    if s == [] then [] else [LowerChar(s[0])] + ToLower(s[1..])
  }

  /** True when no character of `s` is changed by lower-casing. */
  predicate IsLower(s: string)
  {
    forall i :: 0 <= i < |s| ==> LowerChar(s[i]) == s[i]
  }

  /** The table's keys, in the order the conversion table lists them. */
  const Table: seq<Unit> := [Liters, FlOz, Gallons, Milliliters, Grams, Kilograms, Ounces,
                             HalfOunces, EighthOunces, Pounds, Quarts, Pints, Pieces]

  /** Every unit is in the table. */
  lemma TableComplete(u: Unit)
    ensures u in Table
  {
  }

  /** Distinct units have distinct names. */
  lemma NameInjective(u: Unit, v: Unit)
    requires Name(u) == Name(v)
    ensures u == v
  {
    var n, m := Name(u), Name(v);
    assert |n| == |m| && (|n| > 0 ==> n[0] == m[0]) && (|n| > 1 ==> n[1] == m[1]);
  }

  /** Searches `units`, front to back, for the one whose name is `key`. */
  function Find(key: string, units: seq<Unit>): Option<Unit>
  {
    if units == [] then None
    else if Name(units[0]) == key then Some(units[0])
    else Find(key, units[1..])
  }

  /** What `Find` finds is in the list and carries the key as its name. */
  lemma {:induction false} FindSound(key: string, units: seq<Unit>)
    requires Find(key, units).Some?
    ensures Name(Find(key, units).value) == key && Find(key, units).value in units
  {
    if Name(units[0]) != key {
      FindSound(key, units[1..]);
    }
  }

  /** A unit of the list whose name is the key is found. */
  lemma {:induction false} FindComplete(key: string, units: seq<Unit>, u: Unit)
    requires u in units && Name(u) == key
    ensures Find(key, units).Some?
  {
    if Name(units[0]) != key {
      assert u in units[1..];
      FindComplete(key, units[1..], u);
    }
  }

  /** Looks up an exact (already lower-cased) key in the table. */
  function Lookup(key: string): Option<Unit>
  {
    Find(key, Table)
  }

  /** A key is found exactly when it is some unit's name, and then that unit
      is the one found. */
  lemma LookupSpec(key: string, u: Unit)
    ensures Lookup(key) == Some(u) <==> Name(u) == key
  {
    TableComplete(u);
    if Name(u) == key {
      FindComplete(key, Table, u);
      FindSound(key, Table);
      NameInjective(Lookup(key).value, u);
    } else if Lookup(key) == Some(u) {
      FindSound(key, Table);
    }
  }

  /** The unit a user-typed unit name stands for: the name is lower-cased and
      then looked up. */
  function ParseUnit(s: string): Option<Unit>
  {
    Lookup(ToLower(s))
  }

  /** A name denotes unit `u` exactly when its lower case is the table key of `u`. */
  lemma ParseUnitSpec(s: string, u: Unit)
    ensures ParseUnit(s) == Some(u) <==> ToLower(s) == Name(u)
  {
    LookupSpec(ToLower(s), u);
  }

  /** A name that is not in the table, after lower-casing, denotes no unit. */
  lemma ParseUnitNone(s: string)
    ensures ParseUnit(s).None? <==> forall u :: Name(u) != ToLower(s)
  {
    if ParseUnit(s).Some? {
      ParseUnitSpec(s, ParseUnit(s).value);
    } else {
      forall u ensures Name(u) != ToLower(s) {
        ParseUnitSpec(s, u);
      }
    }
  }

  /** Lower-casing twice is lower-casing once. */
  lemma {:induction false} ToLowerIdempotent(s: string)
    ensures ToLower(ToLower(s)) == ToLower(s)
  {
    if s != [] {
      ToLowerIdempotent(s[1..]);
      assert ToLower(s) == [LowerChar(s[0])] + ToLower(s[1..]);
    }
  }

  /** A string with no upper-case character is its own lower case. */
  lemma {:induction false} ToLowerOfLower(s: string)
    requires IsLower(s)
    ensures ToLower(s) == s
  {
    if s != [] {
      assert IsLower(s[1..]) by {
        forall i | 0 <= i < |s[1..]| ensures LowerChar(s[1..][i]) == s[1..][i] {
          assert s[1..][i] == s[i + 1];
        }
      }
      ToLowerOfLower(s[1..]);
      assert s == [s[0]] + s[1..];
    }
  }

  /** Every table key is lower case, so looking up a unit's own name finds it. */
  lemma ParseName(u: Unit)
    ensures ParseUnit(Name(u)) == Some(u)
  {
    var n := Name(u);
    assert IsLower(n) by {
      forall i | 0 <= i < |n| ensures LowerChar(n[i]) == n[i] {
        assert 'a' <= n[i] <= 'z' || n[i] == ' ' by { NameLetters(u, i); }
      }
    }
    ToLowerOfLower(n);
    ParseUnitSpec(n, u);
  }

  /** Every character of a table key is a lower-case ASCII letter or a space. */
  lemma NameLetters(u: Unit, i: int)
    requires 0 <= i < |Name(u)|
    ensures 'a' <= Name(u)[i] <= 'z' || Name(u)[i] == ' '
  {
  }

  /** The lookup ignores case: two names that agree after lower-casing denote
      the same unit (or both none). */
  lemma ParseIgnoresCase(s: string, t: string)
    requires ToLower(s) == ToLower(t)
    ensures ParseUnit(s) == ParseUnit(t)
  {
  }

  /** Parsing the lower-cased name gives what parsing the name gives. */
  lemma ParseLowered(s: string)
    ensures ParseUnit(ToLower(s)) == ParseUnit(s)
  {
    ToLowerIdempotent(s);
  }

  /** The table is consistent across metric prefixes: a litre is a thousand
      millilitres and a kilogram a thousand grams, in the same category. */
  lemma MetricPrefixes()
    ensures Factor(Liters) == 1000.0 * Factor(Milliliters)
    ensures Factor(Kilograms) == 1000.0 * Factor(Grams)
    ensures CategoryOf(Liters) == CategoryOf(Milliliters) == Volume
    ensures CategoryOf(Kilograms) == CategoryOf(Grams) == Weight
  {
  }

  /** The customary sub-units of the table are rounded separately, so four
      quarts are 0.002 mL more than a gallon and two pints 0.001 mL less than a
      quart; half and eighth ounces are within 0.0001 g of their fractions. */
  lemma CustomaryRounding()
    ensures 4.0 * Factor(Quarts) - Factor(Gallons) == 0.002
    ensures Factor(Quarts) - 2.0 * Factor(Pints) == 0.001
    ensures -0.0001 < Factor(HalfOunces) - Factor(Ounces) / 2.0 < 0.0001
    ensures -0.0001 < Factor(EighthOunces) - Factor(Ounces) / 8.0 < 0.0001
  {
  }
}
