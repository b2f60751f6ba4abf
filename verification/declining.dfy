/** Properties of the declining-balance schedule ("Saldos Insolutos"): a fixed
    principal portion of amount / n, interest on the balance carried in. */
module Declining {
  import opened Arith
  import opened Loan
  import opened Schedule
  import opened Calculator

  /** Without the clamp, the balance after `k` periods is the opening balance less `k` installments. */
  lemma {:induction false} DecliningUnclamped(r: real, d: real, opening: real, k: nat)
    ensures Unclamped(DecliningPlan(r, d), opening, k) == opening - Installments(k, d)
  {
    if k > 0 {
      DecliningUnclamped(r, d, opening, k - 1);
    }
  }

  /** `k` of `n` installments that make up a non-negative amount never exceed it. */
  lemma InstallmentsWithinAmount(d: real, amount: real, n: nat, k: nat)
    requires Installments(n, d) == amount && amount >= 0.0 && k <= n
    ensures 0.0 <= Installments(k, d) <= amount
  {
    assert n > 0 ==> d >= 0.0;
    assert ((n - k) as real) * d >= 0.0;
    assert (n as real) * d - (k as real) * d == ((n - k) as real) * d;
  }

  /** The unclamped balance of `n` installments that make up a non-negative amount
      stays non-negative over the `n` periods. */
  lemma NeverNegativeInstallments(r: real, d: real, amount: real, n: nat)
    requires Installments(n, d) == amount && amount >= 0.0
    ensures NeverNegative(DecliningPlan(r, d), amount, n)
  {
    forall i | 0 <= i <= n
      ensures Unclamped(DecliningPlan(r, d), amount, i) >= 0.0
    {
      DecliningUnclamped(r, d, amount, i);
      InstallmentsWithinAmount(d, amount, n, i);
    }
  }

  /** Row `j` of a fixed-installment schedule: principal `d`, interest `r` times the balance carried in. */
  lemma InstallmentRow(r: real, d: real, amount: real, n: nat, cov: Cover, rows: seq<Row>, j: nat)
    requires rows == Rows(DecliningPlan(r, d), amount, 1, n, cov) && j < n
    ensures rows[j].principal == d
    ensures rows[j].interest == InterestOn(PriorBalance(rows, amount, j), r)
  {
    RowsFollowBalance(DecliningPlan(r, d), amount, 1, n, cov, j);
  }

  /** Row `j` of a schedule of `n` installments that make up a non-negative amount
      leaves the amount less `j + 1` installments. */
  lemma InstallmentBalance(r: real, d: real, amount: real, n: nat, cov: Cover, rows: seq<Row>, j: nat)
    requires rows == Rows(DecliningPlan(r, d), amount, 1, n, cov) && j < n
    requires Installments(n, d) == amount && amount >= 0.0
    ensures rows[j].balance == amount - Installments(j + 1, d)
    ensures rows[j].balance <= PriorBalance(rows, amount, j)
  {
    var p := DecliningPlan(r, d);
    NeverNegativeInstallments(r, d, amount, n);
    RowsFollowBalance(p, amount, 1, n, cov, j);
    ClampNeverFires(p, amount, n, j + 1);
    DecliningUnclamped(r, d, amount, j + 1);
    ClampNeverFires(p, amount, n, j);
    DecliningUnclamped(r, d, amount, j);
    InstallmentsWithinAmount(d, amount, n, 1);
    OneMore(j, d);
  }

  /** The terms of a declining-balance loan with at least one payment period. */
  predicate IsDeclining(t: Terms)
  {
    t.frequency != AtMaturity && t.amortization == Declining && Periods(t) > 0
  }

  /** The schedule of a declining-balance loan is the fixed-installment loop. */
  lemma DecliningIsInstallments(t: Terms, rows: seq<Row>)
    requires IsDeclining(t) && Calculate(t) == Ok(rows)
    ensures rows == Rows(DecliningPlan(Rate(t), Installment(t)), t.amount, 1, Periods(t), CoverOf(t))
  {
    CalculateIsRows(t);
  }

  /** A declining-balance loan always yields a schedule, with one row per period. */
  lemma DecliningComputable(t: Terms)
    requires IsDeclining(t)
    ensures Calculate(t).Ok? && |Calculate(t).value| == Periods(t)
  {
  }

  /** Each row of a declining-balance schedule: principal amount / n, interest at the
      periodic rate on the balance the previous row left (the amount for the first row),
      and a payment of principal plus interest plus the insurance applied. */
  lemma DecliningRow(t: Terms, rows: seq<Row>, j: nat)
    requires IsDeclining(t) && Calculate(t) == Ok(rows) && j < |rows|
    ensures rows[j].principal == Installment(t)
    ensures rows[j].interest == InterestOn(PriorBalance(rows, t.amount, j), Rate(t))
    ensures rows[j].payment == rows[j].principal + rows[j].interest + rows[j].insurance
  {
    DecliningIsInstallments(t, rows);
    InstallmentRow(Rate(t), Installment(t), t.amount, Periods(t), CoverOf(t), rows, j);
  }

  /** For a non-negative amount the clamp never fires: the balance after the
      `j + 1`-th period is the amount less `j + 1` installments, it is no more than
      the balance before it, and the last row leaves nothing owing. */
  lemma DecliningBalance(t: Terms, rows: seq<Row>, j: nat)
    requires IsDeclining(t) && t.amount >= 0.0 && Calculate(t) == Ok(rows) && j < |rows|
    ensures rows[j].balance == t.amount - Installments(j + 1, Installment(t))
    ensures rows[j].balance <= PriorBalance(rows, t.amount, j)
    ensures j == |rows| - 1 ==> rows[j].balance == 0.0
  {
    DecliningIsInstallments(t, rows);
    InstallmentBalance(Rate(t), Installment(t), t.amount, Periods(t), CoverOf(t), rows, j);
  }

  /** For a non-negative amount the balance row `j` is entered with is the amount less `j`
      installments. */
  lemma DecliningPriorBalance(t: Terms, rows: seq<Row>, j: nat)
    requires IsDeclining(t) && t.amount >= 0.0 && Calculate(t) == Ok(rows) && j < |rows|
    ensures PriorBalance(rows, t.amount, j) == t.amount - Installments(j, Installment(t))
  {
    if j > 0 {
      DecliningBalance(t, rows, j - 1);
    }
  }

  /** In a schedule of `n` installments that make up a non-negative amount, each interest
      portion after the first is the one before it less the interest on one installment. */
  lemma InstallmentInterestFalls(r: real, d: real, amount: real, n: nat, cov: Cover, rows: seq<Row>, j: nat)
    requires rows == Rows(DecliningPlan(r, d), amount, 1, n, cov) && j + 1 < n
    requires Installments(n, d) == amount && amount >= 0.0
    ensures rows[j + 1].interest == rows[j].interest - InterestOn(d, r)
  {
    InstallmentRow(r, d, amount, n, cov, rows, j);
    InstallmentRow(r, d, amount, n, cov, rows, j + 1);
    InstallmentBalance(r, d, amount, n, cov, rows, j);
    if j > 0 {
      InstallmentBalance(r, d, amount, n, cov, rows, j - 1);
    }
    OneMore(j, d);
    InterestOnDifference(amount - Installments(j, d), d, r);
  }

  /** For a positive amount the fixed principal portion is positive. */
  lemma InstallmentPositive(t: Terms)
    requires IsDeclining(t) && t.amount > 0.0
    ensures Installment(t) > 0.0
  {
    var d := Installment(t);
    if d <= 0.0 {
      ProductNonPositive(Periods(t) as real, d);
    }
  }

  /** For a non-negative amount each interest portion after the first is the one before it less
      one period's interest on the fixed principal portion; for a positive amount and rate the
      interest strictly falls. */
  lemma DecliningInterestFalls(t: Terms, rows: seq<Row>, j: nat)
    requires IsDeclining(t) && t.amount >= 0.0 && Calculate(t) == Ok(rows) && j + 1 < |rows|
    ensures rows[j + 1].interest == rows[j].interest - InterestOn(Installment(t), Rate(t))
    ensures t.amount > 0.0 && t.annualRate > 0.0 ==> rows[j + 1].interest < rows[j].interest
  {
    DecliningIsInstallments(t, rows);
    InstallmentInterestFalls(Rate(t), Installment(t), t.amount, Periods(t), CoverOf(t), rows, j);
    if t.amount > 0.0 && t.annualRate > 0.0 {
      InstallmentPositive(t);
      InterestOnPositive(Installment(t), Rate(t));
    }
  }

  /** The principal portions of a declining-balance schedule add up to the amount lent. */
  lemma DecliningRepaysAmount(t: Terms, rows: seq<Row>)
    requires IsDeclining(t) && t.amount >= 0.0 && Calculate(t) == Ok(rows)
    ensures PrincipalSum(rows) == t.amount
  {
    var p := DecliningPlan(Rate(t), Installment(t));
    DecliningIsInstallments(t, rows);
    NeverNegativeInstallments(Rate(t), Installment(t), t.amount, Periods(t));
    PrincipalSumTelescopes(p, t.amount, 1, Periods(t), CoverOf(t));
    DecliningUnclamped(Rate(t), Installment(t), t.amount, Periods(t));
  }
}
