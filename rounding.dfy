/**
 * PHP's `round(x, 2)` on non-negative exact rationals.
 *
 * A decimal with two fractional digits is carried as `Hundredths`, its value
 * times 100 (so 126.67 is 12667). PHP rounds half away from zero; on the
 * non-negative values this model meets that is the same as rounding half up.
 */
module Rounding {

  /** A non-negative decimal with two fractional digits, stored times 100. */
  type Hundredths = nat

  /**
   * `round(num / den, 2)` in hundredths: the integer nearest to
   * `100 * num / den`, a tie going up (away from zero).
   */
  function RoundHundredths(num: nat, den: nat): (h: Hundredths)
    requires den > 0
    ensures -(den as int) < 2 * (h * den - 100 * num) <= den
  {
    var q := (200 * num + den) / (2 * den);
    DivBounds(200 * num + den, 2 * den);
    q
  }

  /** The quotient of Euclidean division, bounded by the dividend. */
  lemma DivBounds(a: nat, b: nat)
    requires b > 0
    ensures (a / b) * b <= a < (a / b) * b + b
  {
  }

  /** The rounded value is the only integer within half a unit, ties up. */
  lemma {:induction false} RoundHundredthsUnique(num: nat, den: nat, h: int)
    requires den > 0
    requires -(den as int) < 2 * (h * den - 100 * num) <= den
    ensures h == RoundHundredths(num, den)
  {
    var r := RoundHundredths(num, den);
    if h < r {
      MulMonotone(r - h, 1, den);
    } else if h > r {
      MulMonotone(h - r, 1, den);
    }
  }

  /** `a >= b` scales by a positive factor. */
  lemma MulMonotone(a: int, b: int, c: nat)
    requires a >= b
    ensures a * c >= b * c
  {
  }

  /**
   * Rounding a ratio that lies between two whole numbers stays between them:
   * if `lo <= num / den <= hi` then `lo <= round(num / den, 2) <= hi`.
   */
  lemma {:induction false} RoundHundredthsBetween(num: nat, den: nat, lo: nat, hi: nat)
    requires den > 0
    requires lo * den <= num <= hi * den
    ensures 100 * lo <= RoundHundredths(num, den) <= 100 * hi
  {
    var h := RoundHundredths(num, den);
    var hd, lod, hid := h * den, lo * den, hi * den;
    assert 2 * (hd - 100 * num) <= den && -(den as int) < 2 * (hd - 100 * num);
    if h > 100 * hi {
      assert hd >= 100 * hid + den by {
        MulMonotone(h, 100 * hi + 1, den);
        Distribute(100 * hi, 1, den);
        Distribute(hi, 0, den);
      }
      assert false;
    }
    if h < 100 * lo {
      assert hd + den <= 100 * lod by {
        MulMonotone(100 * lo - 1, h, den);
        Distribute(100 * lo - 1, 1, den);
        Distribute(lo, 0, den);
      }
      assert false;
    }
  }

  /** Multiplication distributes over addition (stated for the solver). */
  lemma Distribute(a: int, b: int, c: int)
    ensures (a + b) * c == a * c + b * c
    ensures (100 * a) * c == 100 * (a * c)
  {
  }

  /** A whole-number ratio is represented exactly: `round(k, 2) == k`. */
  lemma {:induction false} RoundHundredthsExact(k: nat, den: nat)
    requires den > 0
    ensures RoundHundredths(k * den, den) == 100 * k
  {
    RoundHundredthsUnique(k * den, den, 100 * k);
  }
}
