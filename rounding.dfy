/** Rounding a per-unit price to four decimals the way `toFixed(4)` followed
    by `parseFloat` does, on exact reals: the magnitude is rounded to the
    nearest multiple of 1/10000 with ties going up, the sign is put back, and
    magnitudes of 10^21 or more are left as they are (section 21.1.3.3 of
    ECMA-262, Number.prototype.toFixed). */
module Rounding {

  /** From this magnitude on, `toFixed` prints the number unchanged. */
  const Huge: real := 1_000_000_000_000_000_000_000.0

  /** Half of the last decimal place kept. */
  const HalfStep: real := 0.00005

  /** Rounds a non-negative magnitude to four decimals, ties up. */
  function RoundMagnitude(y: real): real
    requires y >= 0.0
  {
    if y >= Huge then y else ((y * 10000.0 + 0.5).Floor as real) / 10000.0
  }

  /** The value of `parseFloat(x.toFixed(4))`. */
  function Round4(x: real): real
  {
    if x < 0.0 then -RoundMagnitude(-x) else RoundMagnitude(x)
  }

  /** Rounding a magnitude moves it by at most half a step, keeps it
      non-negative, and leaves it in the half-open cell [r - h, r + h) around
      the result (or equal to it, from 10^21 on). */
  lemma MagnitudeCell(y: real)
    requires y >= 0.0
    ensures var r := RoundMagnitude(y);
            && r >= 0.0
            && r - HalfStep <= y
            && (y < r + HalfStep || y >= Huge)
            && (y >= Huge ==> r == y)
            && (y < Huge ==> r <= Huge)
  {
    if y < Huge {
      var t := y * 10000.0 + 0.5;
      var n := t.Floor;
      assert n as real <= t < n as real + 1.0;
      assert y * 10000.0 < 10_000_000_000_000_000_000_000_000.0;
      assert n as real <= 10_000_000_000_000_000_000_000_000.0;
    }
  }

  /** Rounding a magnitude is monotone. */
  lemma MagnitudeMonotone(y: real, z: real)
    requires 0.0 <= y <= z
    ensures RoundMagnitude(y) <= RoundMagnitude(z)
  {
    MagnitudeCell(y);
    if z < Huge {
      var a, b := (y * 10000.0 + 0.5).Floor, (z * 10000.0 + 0.5).Floor;
      assert a <= b;
    }
  }

  /** The rounded value is within half a step of the value, and the value
      lies in the cell of its rounded value: closed below and open above for
      a positive result, open below and closed above for a negative one, and
      open on both sides around zero. */
  lemma Round4Cell(x: real)
    ensures var r := Round4(x);
            && r - HalfStep <= x <= r + HalfStep
            && (r > 0.0 && x < Huge ==> x < r + HalfStep)
            && (r < 0.0 && x > -Huge ==> r - HalfStep < x)
            && (r == 0.0 ==> -HalfStep < x < HalfStep)
  {
    if x < 0.0 {
      MagnitudeCell(-x);
    } else {
      MagnitudeCell(x);
    }
  }

  /** `x` lies in the cell of the grid point k/10000 that `toFixed(4)` maps
      onto that point: half a step on either side, the half-way point going
      away from zero. */
  predicate InCell(x: real, k: int)
  {
    var c := k as real / 10000.0;
    if k > 0 then c - HalfStep <= x < c + HalfStep
    else if k < 0 then c - HalfStep < x <= c + HalfStep
    else -HalfStep < x < HalfStep
  }

  /** Below 10^21 in magnitude, the rounded value is a whole number of steps
      of 1/10000. */
  lemma Round4OnGrid(x: real) returns (n: int)
    requires -Huge < x < Huge
    ensures Round4(x) == n as real / 10000.0
  {
    if x < 0.0 {
      n := -((-x) * 10000.0 + 0.5).Floor;
    } else {
      n := (x * 10000.0 + 0.5).Floor;
    }
  }

  /** Below 10^21 in magnitude, a value rounds to the grid point k/10000
      exactly when it lies in that point's cell. */
  lemma Round4OfCell(x: real, k: int)
    requires -Huge < x < Huge
    ensures Round4(x) == k as real / 10000.0 <==> InCell(x, k)
  {
    var c := k as real / 10000.0;
    if InCell(x, k) {
      if x >= 0.0 {
        assert k >= 0;
        assert k as real <= x * 10000.0 + 0.5 < k as real + 1.0;
        assert (x * 10000.0 + 0.5).Floor == k;
      } else {
        assert k <= 0;
        assert -k as real <= (-x) * 10000.0 + 0.5 < -k as real + 1.0;
        assert ((-x) * 10000.0 + 0.5).Floor == -k;
      }
    }
    if Round4(x) == c {
      Round4Cell(x);
      assert k > 0 <==> c > 0.0;
      assert k < 0 <==> c < 0.0;
    }
  }

  /** Rounding never reverses the order of two prices. */
  lemma Round4Monotone(x: real, y: real)
    requires x <= y
    ensures Round4(x) <= Round4(y)
  {
    if 0.0 <= x {
      MagnitudeMonotone(x, y);
    } else if y < 0.0 {
      MagnitudeMonotone(-y, -x);
    } else {
      MagnitudeCell(-x);
      MagnitudeCell(y);
    }
  }

  /** Prices at least one step (0.0001) apart stay strictly ordered after
      rounding; so any two prices whose rounded values coincide lie less than
      a step apart. */
  lemma Round4Separates(x: real, y: real)
    requires x + 0.0001 <= y
    ensures Round4(x) < Round4(y)
  {
    Round4Monotone(x, y);
    Round4Cell(x);
    Round4Cell(y);
    if Round4(x) == Round4(y) {
      var r := Round4(x);
      if r > 0.0 {
        MagnitudeCell(y);
      } else if r < 0.0 {
        MagnitudeCell(-x);
      }
    }
  }

  /** Rounding an already rounded price changes nothing. */
  lemma Round4Idempotent(x: real)
    ensures Round4(Round4(x)) == Round4(x)
  {
    if x < 0.0 {
      MagnitudeIdempotent(-x);
      MagnitudeCell(-x);
    } else {
      MagnitudeIdempotent(x);
      MagnitudeCell(x);
    }
  }

  /** Rounding a rounded magnitude changes nothing. */
  lemma MagnitudeIdempotent(y: real)
    requires y >= 0.0
    ensures RoundMagnitude(y) >= 0.0
    ensures RoundMagnitude(RoundMagnitude(y)) == RoundMagnitude(y)
  {
    MagnitudeCell(y);
    if y < Huge {
      var n := (y * 10000.0 + 0.5).Floor;
      var r := n as real / 10000.0;
      assert r * 10000.0 + 0.5 == n as real + 0.5;
      assert (r * 10000.0 + 0.5).Floor == n;
    }
  }

  /** A non-negative price rounds to a non-negative price. */
  lemma Round4NonNegative(x: real)
    requires x >= 0.0
    ensures Round4(x) >= 0.0
  {
    MagnitudeCell(x);
  }
}
