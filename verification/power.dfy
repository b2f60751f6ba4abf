/** Natural powers of a real number, the `**` of the level-payment formula,
    and the few facts about them that the annuity proofs need. */
module Power {

  /** `x` raised to the natural power `k`. */
  function Pow(x: real, k: nat): real
  {
    if k == 0 then 1.0 else x * Pow(x, k - 1)
  }

  /** A base of at least one keeps every power at least one. */
  lemma {:induction false} PowAtLeastOne(x: real, k: nat)
    requires x >= 1.0
    ensures Pow(x, k) >= 1.0
  {
    if k > 0 {
      PowAtLeastOne(x, k - 1);
      var y := Pow(x, k - 1);
      assert x * y - y == (x - 1.0) * y;
      assert (x - 1.0) * y >= 0.0;
    }
  }

  /** Powers of a base of at least one grow with the exponent. */
  lemma {:induction false} PowMonotone(x: real, i: nat, j: nat)
    requires x >= 1.0 && i <= j
    ensures Pow(x, i) <= Pow(x, j)
  {
    if i < j {
      PowMonotone(x, i, j - 1);
      PowAtLeastOne(x, j - 1);
      var y := Pow(x, j - 1);
      assert x * y - y == (x - 1.0) * y;
      assert (x - 1.0) * y >= 0.0;
    }
  }

  /** A base above one raised to a positive power stays above one. */
  lemma {:induction false} PowAboveOne(x: real, k: nat)
    requires x > 1.0 && k >= 1
    ensures Pow(x, k) > 1.0
  {
    PowAtLeastOne(x, k - 1);
    var y := Pow(x, k - 1);
    assert x * y - y == (x - 1.0) * y;
    assert (x - 1.0) * y > 0.0;
  }

  /** Every power of one is one. */
  lemma {:induction false} PowOfOne(k: nat)
    ensures Pow(1.0, k) == 1.0
  {
    if k > 0 {
      PowOfOne(k - 1);
    }
  }

  /** For a non-negative rate `r` and at least one period, the growth factor
      `(1 + r)^n` equals one exactly when the rate is zero. */
  lemma FlatGrowthIffZeroRate(r: real, n: nat)
    requires r >= 0.0 && n >= 1
    ensures Pow(1.0 + r, n) == 1.0 <==> r == 0.0
  {
    if r == 0.0 {
      PowOfOne(n);
    } else {
      PowAboveOne(1.0 + r, n);
    }
  }
}
