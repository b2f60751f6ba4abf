/** Properties of the insurance column: one premium, computed from the balance the
    loan has after its first year of payments, charged on every period except the
    last year's. */
module Insurance {
  import opened Arith
  import opened Loan
  import opened Schedule
  import opened Calculator
  import opened Declining
  import opened Level

  /** The sum of the insurance column. */
  function InsuranceSum(rows: seq<Row>): real
  {
    if |rows| == 0 then 0.0 else InsuranceSum(rows[..|rows| - 1]) + rows[|rows| - 1].insurance
  }

  /** How many of the periods numbered 1 to `k` the cover charges. */
  function InsuredAmong(cov: Cover, k: nat): nat
  {
    if !cov.insured || cov.lastInsured <= 0 then 0
    else if cov.lastInsured < k then cov.lastInsured as nat
    else k
  }

  /** The first `k` rows of a schedule numbered from one charge the premium once for each
      insured period among them. */
  lemma {:induction false} InsurancePrefix(p: Plan, opening: real, count: nat, cov: Cover, k: nat)
    requires k <= count
    ensures InsuranceSum(Rows(p, opening, 1, count, cov)[..k]) == Installments(InsuredAmong(cov, k), cov.premium)
  {
    var rs := Rows(p, opening, 1, count, cov);
    if k > 0 {
      InsurancePrefix(p, opening, count, cov, k - 1);
      assert rs[..k][..k - 1] == rs[..k - 1];
      assert InsuranceSum(rs[..k]) == InsuranceSum(rs[..k - 1]) + Applied(cov, k);
      var a := InsuredAmong(cov, k - 1);
      if cov.insured && k <= cov.lastInsured {
        assert InsuredAmong(cov, k) == a + 1;
        OneMore(a, cov.premium);
      } else {
        assert InsuredAmong(cov, k) == a;
      }
    }
  }

  /** Insurance falls on a row exactly when insurance was asked for and at least one year's
      payments still follow it; such a row carries the premium. */
  lemma InsuranceWindow(t: Terms, rows: seq<Row>, j: nat)
    requires t.frequency != AtMaturity && Calculate(t) == Ok(rows) && j < |rows|
    ensures rows[j].insurance == (if t.insured && j + 1 + Ppy(t) <= |rows| then Premium(t) else 0.0)
  {
    CalculateIsRows(t);
  }

  /** A loan of at most one year's payments is never charged insurance. */
  lemma NoInsuranceWithinAYear(t: Terms, rows: seq<Row>)
    requires t.frequency != AtMaturity && Calculate(t) == Ok(rows) && Periods(t) <= Ppy(t)
    ensures forall j :: 0 <= j < |rows| ==> rows[j].insurance == 0.0
  {
    forall j | 0 <= j < |rows|
      ensures rows[j].insurance == 0.0
    {
      InsuranceWindow(t, rows, j);
    }
  }

  /** The insurance column adds up to one premium for each period but the last year's. */
  lemma InsuranceTotal(t: Terms, rows: seq<Row>)
    requires t.frequency != AtMaturity && Calculate(t) == Ok(rows)
    ensures InsuranceSum(rows)
         == (if t.insured && Periods(t) > Ppy(t) then Installments(Periods(t) - Ppy(t), Premium(t)) else 0.0)
  {
    CalculateIsRows(t);
    InsurancePrefix(PlanOf(t), t.amount, Periods(t), CoverOf(t), Periods(t));
    assert rows[..Periods(t)] == rows;
  }

  /** A year's worth of premiums is twelve monthly charges of the insurance rate per thousand
      of the reference balance. */
  lemma PremiumPerYear(t: Terms)
    requires t.frequency != AtMaturity && Computable(t) && t.insured
    ensures Premium(t) * (Ppy(t) as real) == 12.0 * (ReferenceBalance(t) / 1000.0 * t.insurancePct)
  {
    var monthly := ReferenceBalance(t) / 1000.0 * t.insurancePct;
    assert Premium(t) == PeriodPremium(ReferenceBalance(t), t.insurancePct, Ppy(t));
    assert Premium(t) == monthly * 12.0 / (Ppy(t) as real);
    QuotientTimes(monthly * 12.0, Ppy(t) as real);
  }

  /** For an insured loan of at least two years' payments, the first year's rows carry
      insurance totalling twelve monthly charges of the insurance rate per thousand of the
      reference balance. */
  lemma FirstYearInsurance(t: Terms, rows: seq<Row>)
    requires t.frequency != AtMaturity && Calculate(t) == Ok(rows) && t.insured
    requires Periods(t) >= 2 * Ppy(t)
    ensures Ppy(t) <= |rows|
    ensures InsuranceSum(rows[..Ppy(t)]) == 12.0 * (ReferenceBalance(t) / 1000.0 * t.insurancePct)
  {
    CalculateIsRows(t);
    InsurancePrefix(PlanOf(t), t.amount, Periods(t), CoverOf(t), Ppy(t));
    assert InsuredAmong(CoverOf(t), Ppy(t)) == Ppy(t);
    PremiumPerYear(t);
  }

  /** When the clamp never fires, the balance after `k` periods without the clamp is the
      balance the `k`-th row leaves. */
  lemma UnclampedIsRowBalance(p: Plan, opening: real, count: nat, cov: Cover, k: nat)
    requires NeverNegative(p, opening, count) && 1 <= k <= count
    ensures Unclamped(p, opening, k) == Rows(p, opening, 1, count, cov)[k - 1].balance
  {
    RowsFollowBalance(p, opening, 1, count, cov, k - 1);
    ClampNeverFires(p, opening, count, k);
  }

  /** For a non-negative amount and rate the unclamped balance of a computable loan's plan
      never goes below zero during the term. */
  lemma PlanNeverNegative(t: Terms)
    requires t.frequency != AtMaturity && Computable(t) && t.amount >= 0.0 && t.annualRate >= 0.0
    ensures NeverNegative(PlanOf(t), t.amount, Periods(t))
  {
    if t.amortization == Level {
      LevelRatePositive(t);
      AnnuityNeverNegative(t.amount, Rate(t), Periods(t));
    } else {
      NeverNegativeInstallments(Rate(t), Installment(t), t.amount, Periods(t));
    }
  }

  /** For a non-negative amount and rate the reference balance of the pre-pass is the balance
      the schedule shows after one year's payments (after the last payment when the term is
      shorter than a year). */
  lemma ReferenceBalanceIsYearEnd(t: Terms, rows: seq<Row>)
    requires t.frequency != AtMaturity && Calculate(t) == Ok(rows)
    requires t.amount >= 0.0 && t.annualRate >= 0.0
    ensures 1 <= ReferencePeriods(t) <= |rows|
    ensures ReferenceBalance(t) == rows[ReferencePeriods(t) - 1].balance
  {
    CalculateIsRows(t);
    PlanNeverNegative(t);
    UnclampedIsRowBalance(PlanOf(t), t.amount, Periods(t), CoverOf(t), ReferencePeriods(t));
  }

  /** For a non-negative amount and rate the reference balance is never negative. */
  lemma ReferenceBalanceNonNegative(t: Terms)
    requires t.frequency != AtMaturity && Computable(t) && t.amount >= 0.0 && t.annualRate >= 0.0
    ensures ReferenceBalance(t) >= 0.0
  {
    CalculateIsRows(t);
    ReferenceBalanceIsYearEnd(t, Calculate(t).value);
  }

  /** For a non-negative amount, rate and insurance rate the premium is never negative. */
  lemma PremiumNonNegative(t: Terms)
    requires t.frequency != AtMaturity && Computable(t)
    requires t.amount >= 0.0 && t.annualRate >= 0.0 && t.insurancePct >= 0.0
    ensures Premium(t) >= 0.0
  {
    if t.insured {
      ReferenceBalanceNonNegative(t);
      var b := ReferenceBalance(t);
      QuotientNonNegative(b, 1000.0);
      ProductNonNegative(b / 1000.0, t.insurancePct);
      ProductNonNegative(b / 1000.0 * t.insurancePct, 12.0);
      QuotientNonNegative(b / 1000.0 * t.insurancePct * 12.0, Ppy(t) as real);
    }
  }

  /** The insurance a row carries is never negative for a non-negative amount, rate and
      insurance rate. */
  lemma InsuranceNonNegative(t: Terms, rows: seq<Row>, j: nat)
    requires t.frequency != AtMaturity && Calculate(t) == Ok(rows) && j < |rows|
    requires t.amount >= 0.0 && t.annualRate >= 0.0 && t.insurancePct >= 0.0
    ensures rows[j].insurance >= 0.0
  {
    InsuranceWindow(t, rows, j);
    PremiumNonNegative(t);
  }

  /** For a non-negative amount, rate and insurance rate every column of a declining-balance
      row is non-negative: principal, interest, and the payment that adds them to the
      insurance. */
  lemma DecliningPaymentNonNegative(t: Terms, rows: seq<Row>, j: nat)
    requires IsDeclining(t) && Calculate(t) == Ok(rows) && j < |rows|
    requires t.amount >= 0.0 && t.annualRate >= 0.0 && t.insurancePct >= 0.0
    ensures rows[j].principal >= 0.0 && rows[j].interest >= 0.0
    ensures rows[j].insurance >= 0.0 && rows[j].payment >= 0.0
  {
    DecliningRow(t, rows, j);
    ProductNonNegative(PriorBalance(rows, t.amount, j), Rate(t));
    InsuranceNonNegative(t, rows, j);
  }

  /** For a non-negative amount, rate and insurance rate every column of a level-payment row
      is non-negative: principal, interest, and the payment that adds them to the insurance. */
  lemma LevelPaymentNonNegative(t: Terms, rows: seq<Row>, j: nat)
    requires IsLevel(t) && Calculate(t) == Ok(rows) && j < |rows|
    requires t.amount >= 0.0 && t.annualRate >= 0.0 && t.insurancePct >= 0.0
    ensures rows[j].principal >= 0.0 && rows[j].interest >= 0.0
    ensures rows[j].insurance >= 0.0 && rows[j].payment >= 0.0
  {
    LevelIsAnnuity(t, rows);
    LevelRatePositive(t);
    PremiumNonNegative(t);
    AnnuityRowNonNegative(t.amount, Rate(t), Periods(t), CoverOf(t), rows, j);
  }
}
