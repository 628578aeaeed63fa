/**
 * `Math.pow(base, n)` for a whole, non-negative exponent, over exact reals,
 * and the facts about it that the return calculator relies on.
 */
module Compound {

  /** `base` multiplied by itself `n` times. */
  function Pow(base: real, n: nat): (p: real)
    ensures base >= 0.0 ==> p >= 0.0
    ensures base >= 1.0 ==> p >= 1.0
  {
    if n == 0 then 1.0 else base * Pow(base, n - 1)
  }

  /** Exponents add: b^(m+n) = b^m * b^n. */
  lemma {:induction false} PowAdd(base: real, m: nat, n: nat)
    ensures Pow(base, m + n) == Pow(base, m) * Pow(base, n)
  {
    if m > 0 {
      PowAdd(base, m - 1, n);
      var x, y := Pow(base, m - 1), Pow(base, n);
      calc {
        Pow(base, m + n);
        base * Pow(base, (m - 1) + n);
        base * (x * y);
        { MulAssoc(base, x, y); }
        (base * x) * y;
      }
    }
  }

  /** Exponents multiply: b^(m*n) = (b^m)^n. */
  lemma {:induction false} PowMul(base: real, m: nat, n: nat)
    ensures Pow(base, m * n) == Pow(Pow(base, m), n)
  {
    if n > 0 {
      PowMul(base, m, n - 1);
      assert m * n == m + m * (n - 1);
      PowAdd(base, m, m * (n - 1));
    }
  }

  /** For non-negative bases, a larger base gives a larger power. */
  lemma {:induction false} PowMonotoneInBase(a: real, b: real, n: nat)
    requires 0.0 <= a <= b
    ensures Pow(a, n) <= Pow(b, n)
  {
    if n > 0 {
      PowMonotoneInBase(a, b, n - 1);
      MulMonotone(a, Pow(a, n - 1), b, Pow(b, n - 1));
    }
  }

  lemma MulAssoc(a: real, b: real, c: real)
    ensures a * (b * c) == (a * b) * c
  {
  }

  lemma ScaleMonotone(a: real, x: real, y: real)
    requires 0.0 <= a && x <= y
    ensures a * x <= a * y
  {
  }

  lemma Expand(h: real, k: real)
    ensures (1.0 + h) * (1.0 + k * h) == 1.0 + (k + 1.0) * h + k * (h * h)
  {
  }

  lemma SquareNonNegative(h: real)
    ensures h * h >= 0.0
  {
  }

  lemma MulMonotone(a: real, x: real, b: real, y: real)
    requires 0.0 <= a <= b && 0.0 <= x <= y
    ensures a * x <= b * y
  {
    assert a * x <= a * y;
    assert a * y <= b * y;
  }

  /** Bernoulli's inequality: (1 + h)^n >= 1 + n*h for h >= -1. */
  lemma {:induction false} Bernoulli(base: real, n: nat)
    requires base >= 0.0
    ensures Pow(base, n) >= 1.0 + (n as real) * (base - 1.0)
  {
    if n > 0 {
      Bernoulli(base, n - 1);
      BernoulliStep(base - 1.0, (n - 1) as real, Pow(base, n - 1));
    }
  }

  /** One induction step of Bernoulli's inequality. */
  lemma BernoulliStep(h: real, k: real, p: real)
    requires 1.0 + h >= 0.0 && k >= 0.0 && p >= 1.0 + k * h
    ensures (1.0 + h) * p >= 1.0 + (k + 1.0) * h
  {
    ScaleMonotone(1.0 + h, 1.0 + k * h, p);
    Expand(h, k);
    SquareNonNegative(h);
    ScaleMonotone(k, 0.0, h * h);
  }
}
