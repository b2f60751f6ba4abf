/** Properties of the level-payment schedule ("Nivelada"): one annuity payment
    `c = P r (1 + r)^n / ((1 + r)^n - 1)` every period, split into interest on the
    balance carried in and principal. */
module Level {
  import opened Arith
  import opened Power
  import opened Loan
  import opened Schedule
  import opened Calculator

  /** The balance still owed when the growth factor over the whole term is `growth`
      and the one over the periods so far is `x`: `amount (growth - x) / (growth - 1)`. */
  function Outstanding(amount: real, growth: real, x: real): real
    requires growth != 1.0
  {
    amount * (growth - x) / (growth - 1.0)
  }

  /** The closed form of the balance an annuity leaves after `m` of its `n` periods:
      `P ((1 + r)^n - (1 + r)^m) / ((1 + r)^n - 1)`. */
  function AnnuityBalance(amount: real, r: real, n: nat, m: nat): real
    requires Pow(1.0 + r, n) != 1.0
  {
    Outstanding(amount, Pow(1.0 + r, n), Pow(1.0 + r, m))
  }

  /** The plan of a level-payment loan of `amount` over `n` periods at periodic rate `r`. */
  function Annuity(amount: real, r: real, n: nat): Plan
    requires Pow(1.0 + r, n) != 1.0
  {
    LevelPlan(r, LevelPayment(amount, r, n))
  }

  /** The algebra behind one annuity period: paying the principal `c - b r` off the
      outstanding balance `b` grows the factor of the periods so far by `1 + r`. */
  lemma AnnuityAlgebra(amount: real, r: real, growth: real, x: real)
    requires growth != 1.0
    ensures Reduce(LevelPlan(r, AnnuityPayment(amount, r, growth)), Outstanding(amount, growth, x))
         == Outstanding(amount, growth, (1.0 + r) * x)
  {
    var b := Outstanding(amount, growth, x);
    var c := AnnuityPayment(amount, r, growth);
    var den := growth - 1.0;
    var lhs := b - (c - b * r);
    assert Reduce(LevelPlan(r, c), b) == lhs;
    assert b * den == amount * (growth - x);
    assert c * den == amount * (r * growth);
    assert lhs * den == b * den * (1.0 + r) - c * den;
    assert lhs * den == amount * (growth - x) * (1.0 + r) - amount * (r * growth);
    assert amount * (growth - x) * (1.0 + r) - amount * (r * growth) == amount * (growth - (1.0 + r) * x);
  }

  /** One period of the level payment takes the closed-form balance after `m`
      periods to the closed-form balance after `m + 1`. */
  lemma AnnuityStep(amount: real, r: real, n: nat, m: nat)
    requires Pow(1.0 + r, n) != 1.0
    ensures Reduce(Annuity(amount, r, n), AnnuityBalance(amount, r, n, m))
         == AnnuityBalance(amount, r, n, m + 1)
  {
    var growth := Pow(1.0 + r, n);
    var x := Pow(1.0 + r, m);
    assert Pow(1.0 + r, m + 1) == (1.0 + r) * x;
    AnnuityAlgebra(amount, r, growth, x);
    assert Annuity(amount, r, n) == LevelPlan(r, AnnuityPayment(amount, r, growth));
    assert AnnuityBalance(amount, r, n, m) == Outstanding(amount, growth, x);
    assert AnnuityBalance(amount, r, n, m + 1) == Outstanding(amount, growth, (1.0 + r) * x);
  }

  /** Without the clamp, the level payment's balance after `m` periods is the closed form. */
  lemma {:induction false} AnnuityUnclamped(amount: real, r: real, n: nat, m: nat)
    requires Pow(1.0 + r, n) != 1.0
    ensures Unclamped(Annuity(amount, r, n), amount, m) == AnnuityBalance(amount, r, n, m)
  {
    if m == 0 {
      var den := Pow(1.0 + r, n) - 1.0;
      assert Pow(1.0 + r, 0) == 1.0;
      assert amount * den / den == amount;
    } else {
      AnnuityUnclamped(amount, r, n, m - 1);
      AnnuityStep(amount, r, n, m - 1);
    }
  }

  /** After all `n` periods the closed form leaves nothing owing. */
  lemma AnnuityPaysOff(amount: real, r: real, n: nat)
    requires Pow(1.0 + r, n) != 1.0
    ensures AnnuityBalance(amount, r, n, n) == 0.0
  {
    var growth := Pow(1.0 + r, n);
    assert AnnuityBalance(amount, r, n, n) == Outstanding(amount, growth, growth);
    assert amount * (growth - growth) == 0.0;
    QuotientOfZero(growth - 1.0);
  }

  /** For a positive rate and a non-negative amount the closed form never goes below
      zero during the term. */
  lemma AnnuityBalanceNonNegative(amount: real, r: real, n: nat, m: nat)
    requires r > 0.0 && n >= 1 && amount >= 0.0 && m <= n
    ensures Pow(1.0 + r, n) != 1.0
    ensures AnnuityBalance(amount, r, n, m) >= 0.0
  {
    PowAboveOne(1.0 + r, n);
    PowMonotone(1.0 + r, m, n);
    OutstandingNonNegative(amount, Pow(1.0 + r, n), Pow(1.0 + r, m));
  }

  /** A non-negative amount has a non-negative share outstanding while the growth so far
      has not passed the growth over the whole term. */
  lemma OutstandingNonNegative(amount: real, growth: real, x: real)
    requires growth > 1.0 && x <= growth && amount >= 0.0
    ensures Outstanding(amount, growth, x) >= 0.0
  {
    ProductNonNegative(amount, growth - x);
    QuotientNonNegative(amount * (growth - x), growth - 1.0);
  }

  /** For a positive rate and a non-negative amount the unclamped balance stays
      non-negative over the whole term, so the clamp never fires. */
  lemma AnnuityNeverNegative(amount: real, r: real, n: nat)
    requires r > 0.0 && n >= 1 && amount >= 0.0
    ensures Pow(1.0 + r, n) != 1.0
    ensures NeverNegative(Annuity(amount, r, n), amount, n)
  {
    PowAboveOne(1.0 + r, n);
    forall i | 0 <= i <= n
      ensures Unclamped(Annuity(amount, r, n), amount, i) >= 0.0
    {
      AnnuityUnclamped(amount, r, n, i);
      AnnuityBalanceNonNegative(amount, r, n, i);
    }
  }

  /** Under a level payment, the principal portion of the next period is this period's
      grown by one period's interest on it. */
  lemma PrincipalGrowth(r: real, c: real, balance: real)
    ensures Principal(LevelPlan(r, c), Reduce(LevelPlan(r, c), balance))
         == Principal(LevelPlan(r, c), balance) + InterestOn(Principal(LevelPlan(r, c), balance), r)
  {
    var b := balance;
    assert (b - (c - b * r)) * r == b * r - c * r + b * r * r;
    assert (c - b * r) * r == c * r - b * r * r;
  }

  /** Row `j` of an annuity schedule: interest at `r` on the balance carried in, principal the
      rest of the level payment. */
  lemma AnnuityRow(amount: real, r: real, n: nat, cov: Cover, rows: seq<Row>, j: nat)
    requires Pow(1.0 + r, n) != 1.0
    requires rows == Rows(Annuity(amount, r, n), amount, 1, n, cov) && j < n
    ensures rows[j].interest == InterestOn(PriorBalance(rows, amount, j), r)
    ensures rows[j].interest + rows[j].principal == LevelPayment(amount, r, n)
  {
    RowsFollowBalance(Annuity(amount, r, n), amount, 1, n, cov, j);
  }

  /** For a positive rate and a non-negative amount, row `j` of an annuity schedule leaves the
      closed-form balance after `j + 1` periods. */
  lemma AnnuityRowBalance(amount: real, r: real, n: nat, cov: Cover, rows: seq<Row>, j: nat)
    requires r > 0.0 && amount >= 0.0 && Pow(1.0 + r, n) != 1.0
    requires rows == Rows(Annuity(amount, r, n), amount, 1, n, cov) && j < n
    ensures rows[j].balance == AnnuityBalance(amount, r, n, j + 1)
  {
    var p := Annuity(amount, r, n);
    AnnuityNeverNegative(amount, r, n);
    RowsFollowBalance(p, amount, 1, n, cov, j);
    ClampNeverFires(p, amount, n, j + 1);
    AnnuityUnclamped(amount, r, n, j + 1);
  }

  /** For a positive rate and a non-negative amount, the principal of each annuity row after
      the first is the previous row's principal plus one period's interest on it. */
  lemma AnnuityPrincipalGrowth(amount: real, r: real, n: nat, cov: Cover, rows: seq<Row>, j: nat)
    requires r > 0.0 && amount >= 0.0 && Pow(1.0 + r, n) != 1.0
    requires rows == Rows(Annuity(amount, r, n), amount, 1, n, cov) && j + 1 < n
    ensures rows[j + 1].principal == rows[j].principal + InterestOn(rows[j].principal, r)
  {
    var p := Annuity(amount, r, n);
    var b := BalanceAfter(p, amount, j);
    AnnuityNeverNegative(amount, r, n);
    RowsFollowBalance(p, amount, 1, n, cov, j);
    RowsFollowBalance(p, amount, 1, n, cov, j + 1);
    ClampNeverFires(p, amount, n, j);
    ClampNeverFires(p, amount, n, j + 1);
    assert BalanceAfter(p, amount, j + 1) == Reduce(p, b);
    assert rows[j].principal == Principal(p, b);
    assert rows[j + 1].principal == Principal(p, Reduce(p, b));
    PrincipalGrowth(r, LevelPayment(amount, r, n), b);
  }

  /** The first principal portion of an annuity, the payment less the interest on the whole
      amount, is `amount r / (growth - 1)`: non-negative for a non-negative amount and positive
      for a positive one. */
  lemma FirstPrincipalAlgebra(amount: real, r: real, growth: real)
    requires growth > 1.0 && r > 0.0 && amount >= 0.0
    ensures AnnuityPayment(amount, r, growth) - InterestOn(amount, r) >= 0.0
    ensures amount > 0.0 ==> AnnuityPayment(amount, r, growth) - InterestOn(amount, r) > 0.0
  {
    var c := AnnuityPayment(amount, r, growth);
    var den := growth - 1.0;
    var first := c - amount * r;
    assert c * den == amount * (r * growth);
    assert first * den == c * den - amount * r * den;
    assert first * den == amount * r;
    ProductNonNegative(amount, r);
    if amount > 0.0 {
      ProductPositive(amount, r);
    }
    SignFromProduct(first, den);
  }

  /** For a positive rate every principal portion of an annuity schedule is non-negative, and
      positive when the amount is: the first is `amount r / ((1 + r)^n - 1)` and each later one
      grows from the one before. */
  lemma {:induction false} AnnuityPrincipalSign(amount: real, r: real, n: nat, cov: Cover, rows: seq<Row>, j: nat)
    requires r > 0.0 && amount >= 0.0 && Pow(1.0 + r, n) != 1.0
    requires rows == Rows(Annuity(amount, r, n), amount, 1, n, cov) && j < n
    ensures rows[j].principal >= 0.0
    ensures amount > 0.0 ==> rows[j].principal > 0.0
  {
    if j == 0 {
      RowsFollowBalance(Annuity(amount, r, n), amount, 1, n, cov, 0);
      PowAboveOne(1.0 + r, n);
      FirstPrincipalAlgebra(amount, r, Pow(1.0 + r, n));
    } else {
      AnnuityPrincipalSign(amount, r, n, cov, rows, j - 1);
      AnnuityPrincipalGrowth(amount, r, n, cov, rows, j - 1);
      var p := rows[j - 1].principal;
      ProductNonNegative(p, r);
      if amount > 0.0 {
        ProductPositive(p, r);
      }
    }
  }

  /** For a positive rate, a non-negative amount and a non-negative premium every column of an
      annuity row is non-negative. */
  lemma AnnuityRowNonNegative(amount: real, r: real, n: nat, cov: Cover, rows: seq<Row>, j: nat)
    requires r > 0.0 && amount >= 0.0 && Pow(1.0 + r, n) != 1.0 && cov.premium >= 0.0
    requires rows == Rows(Annuity(amount, r, n), amount, 1, n, cov) && j < n
    ensures rows[j].principal >= 0.0 && rows[j].interest >= 0.0
    ensures rows[j].insurance >= 0.0 && rows[j].payment >= 0.0
  {
    AnnuityRow(amount, r, n, cov, rows, j);
    AnnuityPrincipalSign(amount, r, n, cov, rows, j);
    ProductNonNegative(PriorBalance(rows, amount, j), r);
  }

  /** For a positive rate and a non-negative amount each annuity row leaves the balance carried
      in less its principal portion, so the balance never rises. */
  lemma AnnuityBalanceFalls(amount: real, r: real, n: nat, cov: Cover, rows: seq<Row>, j: nat)
    requires r > 0.0 && amount >= 0.0 && Pow(1.0 + r, n) != 1.0
    requires rows == Rows(Annuity(amount, r, n), amount, 1, n, cov) && j < n
    ensures rows[j].balance == PriorBalance(rows, amount, j) - rows[j].principal
  {
    var p := Annuity(amount, r, n);
    AnnuityNeverNegative(amount, r, n);
    RowsFollowBalance(p, amount, 1, n, cov, j);
    ClampNeverFires(p, amount, n, j);
    ClampNeverFires(p, amount, n, j + 1);
    assert BalanceAfter(p, amount, j + 1) == Reduce(p, BalanceAfter(p, amount, j));
  }

  /** For a positive rate and a non-negative amount, the principal column of an annuity schedule
      sums to the amount. */
  lemma AnnuityRepays(amount: real, r: real, n: nat, cov: Cover, rows: seq<Row>)
    requires r > 0.0 && n >= 1 && amount >= 0.0
    requires Pow(1.0 + r, n) != 1.0
    requires rows == Rows(Annuity(amount, r, n), amount, 1, n, cov)
    ensures PrincipalSum(rows) == amount
  {
    AnnuityNeverNegative(amount, r, n);
    PrincipalSumTelescopes(Annuity(amount, r, n), amount, 1, n, cov);
    AnnuityUnclamped(amount, r, n, n);
    AnnuityPaysOff(amount, r, n);
  }

  /** The terms of a level-payment loan that yields a schedule. */
  predicate IsLevel(t: Terms)
  {
    t.frequency != AtMaturity && t.amortization == Level && Computable(t)
  }

  /** The schedule of a level-payment loan is the annuity loop at the periodic rate. */
  lemma LevelIsAnnuity(t: Terms, rows: seq<Row>)
    requires IsLevel(t) && Calculate(t) == Ok(rows)
    ensures Pow(1.0 + Rate(t), Periods(t)) != 1.0
    ensures rows == Rows(Annuity(t.amount, Rate(t), Periods(t)), t.amount, 1, Periods(t), CoverOf(t))
  {
    CalculateIsRows(t);
  }

  /** A level-payment loan with a non-negative rate yields a schedule exactly when there is at
      least one period and the rate is positive. */
  lemma LevelComputable(t: Terms)
    requires t.frequency != AtMaturity && t.amortization == Level && t.annualRate >= 0.0
    ensures Calculate(t).Ok? <==> Periods(t) > 0 && t.annualRate > 0.0
  {
    if Periods(t) > 0 {
      FlatGrowthIffZeroRate(Rate(t), Periods(t));
    }
  }

  /** A computable level-payment loan with a non-negative annual rate has a positive periodic rate. */
  lemma LevelRatePositive(t: Terms)
    requires IsLevel(t) && t.annualRate >= 0.0
    ensures Rate(t) > 0.0 && Periods(t) >= 1
  {
    FlatGrowthIffZeroRate(Rate(t), Periods(t));
  }

  /** Each row of a level-payment schedule: interest at the periodic rate on the balance the
      previous row left (the amount for the first row), interest plus principal equal to the
      annuity payment, which is the same in every row, and the insurance on top of it. */
  lemma LevelRow(t: Terms, rows: seq<Row>, j: nat)
    requires IsLevel(t) && Calculate(t) == Ok(rows) && j < |rows|
    ensures rows[j].interest == InterestOn(PriorBalance(rows, t.amount, j), Rate(t))
    ensures rows[j].interest + rows[j].principal == LevelPayment(t.amount, Rate(t), Periods(t))
    ensures rows[j].payment == LevelPayment(t.amount, Rate(t), Periods(t)) + rows[j].insurance
  {
    LevelIsAnnuity(t, rows);
    AnnuityRow(t.amount, Rate(t), Periods(t), CoverOf(t), rows, j);
  }

  /** For a non-negative amount and rate the clamp never fires: row `j` leaves the closed-form
      annuity balance after `j + 1` periods, and the last row leaves nothing owing. */
  lemma LevelBalance(t: Terms, rows: seq<Row>, j: nat)
    requires IsLevel(t) && t.amount >= 0.0 && t.annualRate >= 0.0 && Calculate(t) == Ok(rows) && j < |rows|
    ensures rows[j].balance == AnnuityBalance(t.amount, Rate(t), Periods(t), j + 1)
    ensures j == |rows| - 1 ==> rows[j].balance == 0.0
  {
    LevelIsAnnuity(t, rows);
    LevelRatePositive(t);
    AnnuityRowBalance(t.amount, Rate(t), Periods(t), CoverOf(t), rows, j);
    AnnuityPaysOff(t.amount, Rate(t), Periods(t));
  }

  /** For a non-negative amount and rate each principal portion after the first is the one
      before it plus one period's interest on it. Every principal portion is non-negative, and
      for a positive amount they are positive and strictly increase. */
  lemma LevelPrincipalGrowth(t: Terms, rows: seq<Row>, j: nat)
    requires IsLevel(t) && t.amount >= 0.0 && t.annualRate >= 0.0 && Calculate(t) == Ok(rows)
    requires j + 1 < |rows|
    ensures rows[j + 1].principal == rows[j].principal + InterestOn(rows[j].principal, Rate(t))
    ensures rows[j].principal >= 0.0
    ensures t.amount > 0.0 ==> 0.0 < rows[j].principal < rows[j + 1].principal
  {
    LevelIsAnnuity(t, rows);
    LevelRatePositive(t);
    AnnuityPrincipalGrowth(t.amount, Rate(t), Periods(t), CoverOf(t), rows, j);
    AnnuityPrincipalSign(t.amount, Rate(t), Periods(t), CoverOf(t), rows, j);
    if t.amount > 0.0 {
      ProductPositive(rows[j].principal, Rate(t));
    }
  }

  /** For a non-negative amount and rate each interest portion after the first is the one
      before it less one period's interest on the principal just repaid; for a positive amount
      the interest strictly falls. */
  lemma LevelInterestFalls(t: Terms, rows: seq<Row>, j: nat)
    requires IsLevel(t) && t.amount >= 0.0 && t.annualRate >= 0.0 && Calculate(t) == Ok(rows)
    requires j + 1 < |rows|
    ensures rows[j + 1].interest == rows[j].interest - InterestOn(rows[j].principal, Rate(t))
    ensures t.amount > 0.0 ==> rows[j + 1].interest < rows[j].interest
  {
    LevelRow(t, rows, j);
    LevelRow(t, rows, j + 1);
    LevelPrincipalGrowth(t, rows, j);
    LevelRatePositive(t);
    if t.amount > 0.0 {
      ProductPositive(rows[j].principal, Rate(t));
    }
  }

  /** For a non-negative amount and rate each row leaves the balance carried in less its
      principal portion: the balance never rises, and for a positive amount it strictly falls
      every period. */
  lemma LevelBalanceFalls(t: Terms, rows: seq<Row>, j: nat)
    requires IsLevel(t) && t.amount >= 0.0 && t.annualRate >= 0.0 && Calculate(t) == Ok(rows)
    requires j < |rows|
    ensures rows[j].balance == PriorBalance(rows, t.amount, j) - rows[j].principal
    ensures rows[j].balance <= PriorBalance(rows, t.amount, j)
    ensures t.amount > 0.0 ==> rows[j].balance < PriorBalance(rows, t.amount, j)
  {
    LevelIsAnnuity(t, rows);
    LevelRatePositive(t);
    AnnuityBalanceFalls(t.amount, Rate(t), Periods(t), CoverOf(t), rows, j);
    AnnuityPrincipalSign(t.amount, Rate(t), Periods(t), CoverOf(t), rows, j);
  }

  /** For a non-negative amount and rate the principal portions of a level-payment schedule
      add up to the amount lent. */
  lemma LevelRepaysAmount(t: Terms, rows: seq<Row>)
    requires IsLevel(t) && t.amount >= 0.0 && t.annualRate >= 0.0 && Calculate(t) == Ok(rows)
    ensures PrincipalSum(rows) == t.amount
  {
    LevelIsAnnuity(t, rows);
    LevelRatePositive(t);
    AnnuityRepays(t.amount, Rate(t), Periods(t), CoverOf(t), rows);
  }
}
