/**
  Exact real arithmetic for monthly compounding: `Math.pow` with a whole
  number of months as the exponent, and the geometric sum that an ordinary
  annuity adds up to.
 */
module Compounding {

  /** `Math.pow(x, n)` for a natural exponent. */
  function Pow(x: real, n: nat): (p: real)
    ensures x > 0.0 ==> p > 0.0
  {
    if n == 0 then 1.0 else ProductSign(x, Pow(x, n - 1)); x * Pow(x, n - 1)
  }

  /** The product of two positive reals is positive. */
  lemma ProductSign(a: real, b: real)
    ensures a > 0.0 && b > 0.0 ==> a * b > 0.0
  {
    if a > 0.0 && b > 0.0 {
      assert a * b > a * 0.0;
    }
  }

  /** `1 + x + x^2 + ... + x^(n-1)`: what `n` deposits of 1 are worth after
      each has grown by `x` once for every month left. */
  function GeomSum(x: real, n: nat): real
  {
    if n == 0 then 0.0 else GeomSum(x, n - 1) + Pow(x, n - 1)
  }

  /** A growth factor of at least 1 never shrinks a value. */
  lemma {:induction false} PowAtLeastOne(x: real, n: nat)
    requires x >= 1.0
    ensures Pow(x, n) >= 1.0
  {
    if n > 0 {
      PowAtLeastOne(x, n - 1);
      assert x * Pow(x, n - 1) >= 1.0 * Pow(x, n - 1);
    }
  }

  /** Raising to a fixed power preserves the order of growth factors. */
  lemma {:induction false} PowMonotone(x: real, y: real, n: nat)
    requires 1.0 <= x <= y
    ensures Pow(x, n) <= Pow(y, n)
  {
    if n > 0 {
      PowMonotone(x, y, n - 1);
      PowAtLeastOne(x, n - 1);
      var px, py := Pow(x, n - 1), Pow(y, n - 1);
      calc {
        Pow(x, n);
        x * px;
      <= { assert px >= 0.0; }
        y * px;
      <= { assert y >= 0.0; }
        y * py;
        Pow(y, n);
      }
    }
  }

  /** Each of `n` deposits is worth at least its face value. */
  lemma {:induction false} GeomSumAtLeastCount(x: real, n: nat)
    requires x >= 1.0
    ensures GeomSum(x, n) >= n as real
  {
    if n > 0 {
      GeomSumAtLeastCount(x, n - 1);
      PowAtLeastOne(x, n - 1);
    }
  }

  /** A larger growth factor makes the deposits worth more. */
  lemma {:induction false} GeomSumMonotone(x: real, y: real, n: nat)
    requires 1.0 <= x <= y
    ensures GeomSum(x, n) <= GeomSum(y, n)
  {
    if n > 0 {
      GeomSumMonotone(x, y, n - 1);
      PowMonotone(x, y, n - 1);
    }
  }

  /** The closed form of the geometric sum: `x^n - 1 == (x - 1) * (1 + ... + x^(n-1))`. */
  lemma {:induction false} GeomSumClosedForm(x: real, n: nat)
    ensures Pow(x, n) - 1.0 == (x - 1.0) * GeomSum(x, n)
  {
    if n > 0 {
      GeomSumClosedForm(x, n - 1);
      var p, g := Pow(x, n - 1), GeomSum(x, n - 1);
      calc {
        Pow(x, n) - 1.0;
        x * p - 1.0;
        (x - 1.0) * p + (p - 1.0);
        (x - 1.0) * p + (x - 1.0) * g;
        (x - 1.0) * (g + p);
        (x - 1.0) * GeomSum(x, n);
      }
    }
  }
}
