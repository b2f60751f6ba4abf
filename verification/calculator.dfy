/** The instalment calculator itself: from the loan terms to the payment schedule,
    or to the division by zero the terms run into. */
module Calculator {
  import opened Power
  import opened Loan
  import opened Schedule

  /** Payments per year for the chosen frequency. */
  function Ppy(t: Terms): nat
  {
    PaymentsPerYear(t.frequency)
  }

  /** Number of payment periods in the term. */
  function Periods(t: Terms): nat
  {
    PeriodCount(t.termMonths, Ppy(t))
  }

  /** Interest rate of one period. */
  function Rate(t: Terms): real
    requires Ppy(t) > 0
  {
    PeriodicRate(t.annualRate, Ppy(t))
  }

  /** The terms lead to a schedule rather than to a division by zero: a payment at
      maturity always does; otherwise there must be at least one period and, for the
      level method, the annuity formula's denominator `(1 + r)^n - 1` must not vanish. */
  predicate Computable(t: Terms)
  {
    Ppy(t) == 0
    || (Periods(t) > 0 && (t.amortization == Declining || Pow(1.0 + Rate(t), Periods(t)) != 1.0))
  }

  /** The annuity payment for a growth factor `growth` over the whole term: the amount
      times `r growth` over `growth - 1`. */
  function AnnuityPayment(amount: real, r: real, growth: real): real
    requires growth != 1.0
  {
    amount * (r * growth) / (growth - 1.0)
  }

  /** The level payment of the annuity formula: the amount times `r (1 + r)^n`
      over `(1 + r)^n - 1`. */
  function LevelPayment(amount: real, r: real, n: nat): real
    requires Pow(1.0 + r, n) != 1.0
  {
    AnnuityPayment(amount, r, Pow(1.0 + r, n))
  }

  /** The declining-balance principal portion: the amount split evenly over the periods. */
  function Installment(t: Terms): (d: real)
    requires Periods(t) > 0
    ensures Installments(Periods(t), d) == t.amount
    ensures t.amount >= 0.0 ==> 0.0 <= d <= t.amount
  {
    t.amount / (Periods(t) as real)
  }

  /** What fixes each period's principal: the annuity payment, or the amount split evenly over the periods. */
  function PlanOf(t: Terms): Plan
    requires Ppy(t) > 0 && Computable(t)
  {
    match t.amortization
    case Level => LevelPlan(Rate(t), LevelPayment(t.amount, Rate(t), Periods(t)))
    case Declining => DecliningPlan(Rate(t), Installment(t))
  }

  /** Number of periods the insurance reference balance is taken after: one year's
      payments, or the whole term when it is shorter. */
  function ReferencePeriods(t: Terms): nat
  {
    if Ppy(t) < Periods(t) then Ppy(t) else Periods(t)
  }

  /** The balance after the first `ReferencePeriods(t)` periods, computed without the clamp. */
  function ReferenceBalance(t: Terms): real
    requires Ppy(t) > 0 && Computable(t)
  {
    Unclamped(PlanOf(t), t.amount, ReferencePeriods(t))
  }

  /** The premium of one period for a reference balance: the balance per thousand, times
      the insurance rate, annualised and spread over the year's `ppy` payments. */
  function PeriodPremium(reference: real, pct: real, ppy: nat): real
    requires ppy > 0
  {
    (reference / 1000.0) * pct * 12.0 / (ppy as real)
  }

  /** Insurance charged on each insured period: nothing unless insurance was asked for. */
  function Premium(t: Terms): real
    requires Ppy(t) > 0 && Computable(t)
  {
    if t.insured then PeriodPremium(ReferenceBalance(t), t.insurancePct, Ppy(t)) else 0.0
  }

  /** Insurance is charged on the periods numbered up to the period count less one year's payments. */
  function CoverOf(t: Terms): Cover
    requires Ppy(t) > 0 && Computable(t)
  {
    Cover(t.insured, Premium(t), Periods(t) - Ppy(t))
  }

  /** The one row of a loan repaid at maturity: the whole amount plus simple interest
      for the term, no insurance, nothing left owing. */
  function MaturityRow(t: Terms): (row: Row)
    ensures row.period == 1
    ensures row.principal == t.amount
    ensures row.interest * 1200.0 == t.amount * t.annualRate * (t.termMonths as real)
    ensures row.payment == row.interest + row.principal
    ensures row.insurance == 0.0 && row.balance == 0.0
  {
    var interest := t.amount * (t.annualRate / 100.0 * ((t.termMonths as real) / 12.0));
    Row(1, interest + t.amount, interest, t.amount, 0.0, 0.0)
  }

  /** The payment schedule of a loan. */
  function Calculate(t: Terms): (r: Result<seq<Row>>)
    ensures r.Ok? <==> Computable(t)
    ensures r.Err? ==> (r.error == NoWholePeriod <==> Periods(t) == 0)
    ensures t.frequency == AtMaturity ==> r == Ok([MaturityRow(t)])
    ensures r.Ok? && t.frequency != AtMaturity ==>
      && |r.value| == Periods(t)
      && (forall j :: 0 <= j < |r.value| ==> r.value[j].period == j + 1)
      && (forall j :: 0 <= j < |r.value| ==> r.value[j].balance >= 0.0)
      && (forall j :: 0 <= j < |r.value| ==>
            r.value[j].payment == r.value[j].interest + r.value[j].principal + r.value[j].insurance)
  {
    if Ppy(t) == 0 then
      Ok([MaturityRow(t)])
    else if Periods(t) == 0 then
      Err(NoWholePeriod)
    else if t.amortization == Level && Pow(1.0 + Rate(t), Periods(t)) == 1.0 then
      Err(FlatAnnuity)
    else
      Ok(Rows(PlanOf(t), t.amount, 1, Periods(t), CoverOf(t)))
  }

  /** The calculation step by step as `calcular_cuotas` runs it: the frequency lookup, the single
      row at maturity, the period count and rate, the reference pre-pass over the first
      year, the premium, and the period loop. It yields the schedule of `Calculate`. */
  method RunCalculate(t: Terms) returns (r: Result<seq<Row>>)
    ensures r == Calculate(t)
  {
    var ppy := PaymentsPerYear(t.frequency);
    if ppy == 0 {
      return Ok([MaturityRow(t)]);
    }
    var n := PeriodCount(t.termMonths, ppy);
    if n == 0 {
      return Err(NoWholePeriod);
    }
    var rate := PeriodicRate(t.annualRate, ppy);
    if t.amortization == Level && Pow(1.0 + rate, n) == 1.0 {
      return Err(FlatAnnuity);
    }
    assert Computable(t);
    var plan := PlanOf(t);
    var refPeriods := if ppy < n then ppy else n;
    var refBalance := RunUnclamped(plan, t.amount, refPeriods);
    assert refBalance == ReferenceBalance(t);
    var premium := 0.0;
    if t.insured {
      premium := PeriodPremium(refBalance, t.insurancePct, ppy);
    }
    var cover := Cover(t.insured, premium, n as int - ppy as int);
    assert cover == CoverOf(t);
    var rows := RunRows(plan, t.amount, 1, n, cover);
    CalculateIsRows(t);
    return Ok(rows);
  }

  /** Away from maturity, a computable loan's schedule is the period loop over all its
      periods, numbered from one, starting from the amount lent. */
  lemma CalculateIsRows(t: Terms)
    requires t.frequency != AtMaturity && Computable(t)
    ensures Calculate(t) == Ok(Rows(PlanOf(t), t.amount, 1, Periods(t), CoverOf(t)))
  {
  }

  /** For a non-negative rate the failures are exactly the ones `calcular_cuotas` runs into:
      a term shorter than one period (fewer than 12, 6, 3 or 1 months for annual,
      semiannual, quarterly or monthly payments) with either method, and a zero rate
      with the level method. A payment at maturity never fails. */
  lemma FailureConditions(t: Terms)
    requires t.annualRate >= 0.0
    ensures Calculate(t).Err? <==>
      t.frequency != AtMaturity
      && (t.termMonths * Ppy(t) < 12 || (t.amortization == Level && t.annualRate == 0.0))
  {
    if Ppy(t) > 0 && Periods(t) > 0 {
      FlatGrowthIffZeroRate(Rate(t), Periods(t));
    }
  }
}
