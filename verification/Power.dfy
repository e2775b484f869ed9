/** Natural powers of a real base: what `Math.pow(1 + periodicRate, count)` computes, without rounding. */
module Power {

  lemma ProductPositive(a: real, b: real)
    requires a > 0.0 && b > 0.0
    ensures a * b > 0.0
  {}

  lemma ProductMonotone(x: real, a: real, b: real)
    requires x >= 0.0 && a >= b
    ensures x * a >= x * b
  {}

  lemma ProductStrict(x: real, a: real, b: real)
    requires x > 0.0 && a > b
    ensures x * a > x * b
  {}

  function Pow(b: real, n: nat): real {
    if n == 0 then 1.0 else b * Pow(b, n - 1)
  }

  lemma {:induction false} AtLeastOne(b: real, n: nat)
    requires b >= 1.0
    ensures Pow(b, n) >= 1.0
  {
    if n > 0 {
      AtLeastOne(b, n - 1);
      ProductMonotone(Pow(b, n - 1), b, 1.0);
    }
  }

  lemma {:induction false} StrictlyIncreasing(b: real, m: nat, n: nat)
    requires b > 1.0 && m < n
    ensures Pow(b, m) < Pow(b, n)
  {
    AtLeastOne(b, n - 1);
    ProductStrict(Pow(b, n - 1), b, 1.0);
    if m < n - 1 {
      StrictlyIncreasing(b, m, n - 1);
    }
  }

  /** One more factor keeps the Bernoulli bound. */
  lemma BernoulliStep(r: real, k: real, p: real)
    requires r > 0.0 && k >= 0.0 && p >= 1.0 + k * r
    ensures (1.0 + r) * p >= 1.0 + (k + 1.0) * r
  {
    ProductMonotone(1.0 + r, p, 1.0 + k * r);
    assert (1.0 + r) * (1.0 + k * r) == 1.0 + (k + 1.0) * r + k * (r * r);
    ProductPositive(r, r);
    ProductMonotone(k, r * r, 0.0);
  }

  /** Bernoulli's inequality. */
  lemma {:induction false} Bernoulli(r: real, n: nat)
    requires r > 0.0
    ensures Pow(1.0 + r, n) >= 1.0 + n as real * r
  {
    if n > 0 {
      Bernoulli(r, n - 1);
      BernoulliStep(r, (n - 1) as real, Pow(1.0 + r, n - 1));
    }
  }
}
