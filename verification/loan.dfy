/** The inputs and outputs of the instalment calculator: the loan terms chosen
    on the form, the rows of the payment schedule, and the ways the
    calculation can fail. */
module Loan {

  /** How often a payment falls due. */
  datatype Frequency = Monthly | Quarterly | Semiannual | Annual | AtMaturity

  /** How the schedule amortizes: a level payment (annuity, "Nivelada") or a fixed
      principal portion on the declining balance ("Saldos Insolutos"). */
  datatype Amortization = Level | Declining

  /** The loan as entered: amount, annual rate in percent, term in months,
      payment frequency, amortization method, whether insurance is charged and
      the insurance rate per thousand of the reference balance. */
  datatype Terms = Terms(
    amount: real,
    annualRate: real,
    termMonths: nat,
    frequency: Frequency,
    amortization: Amortization,
    insured: bool,
    insurancePct: real)

  /** One line of the schedule, in the column order of the printed table:
      period number, total payment, interest, principal, insurance, remaining balance. */
  datatype Row = Row(
    period: nat,
    payment: real,
    interest: real,
    principal: real,
    insurance: real,
    balance: real)

  /** The two divisions by zero the calculation can run into. */
  datatype Error =
    | NoWholePeriod   // the term is shorter than one payment period, so there are no periods
    | FlatAnnuity     // level payment whose growth factor (1 + r)^n is one: the annuity formula divides by zero

  datatype Result<T> = Ok(value: T) | Err(error: Error)

  datatype Option<T> = None | Some(value: T)

  /** Payments per year for each frequency; zero marks the single payment at maturity. */
  function PaymentsPerYear(f: Frequency): (ppy: nat)
    ensures ppy == 0 <==> f == AtMaturity
    ensures ppy > 0 ==> 12 % ppy == 0
  {
    match f
    case Monthly => 12
    case Quarterly => 4
    case Semiannual => 2
    case Annual => 1
    case AtMaturity => 0
  }

  /** The number of payment periods: the term times the payments per year,
      over twelve, truncated to a whole number. */
  function PeriodCount(termMonths: nat, ppy: nat): (n: nat)
    ensures (n as real) <= (termMonths * ppy) as real / 12.0 < (n as real) + 1.0
  {
    termMonths * ppy / 12
  }

  /** The interest rate of one period, as a fraction. */
  function PeriodicRate(annualRate: real, ppy: nat): (r: real)
    requires ppy > 0
    ensures r * (ppy as real) * 100.0 == annualRate
    ensures annualRate >= 0.0 ==> r >= 0.0
    ensures annualRate > 0.0 ==> r > 0.0
  {
    annualRate / 100.0 / (ppy as real)
  }

  /** The label the form shows for each frequency. */
  function FrequencyName(f: Frequency): string
  {
    match f
    case Monthly => "Mensual"
    case Quarterly => "Trimestral"
    case Semiannual => "Semestral"
    case Annual => "Anual"
    case AtMaturity => "Al vencimiento"
  }

  /** Looks a form label up in the frequency table; `None` for a label the table lacks. */
  function ParseFrequency(s: string): (r: Option<Frequency>)
    ensures r.Some? ==> FrequencyName(r.value) == s
    ensures r.None? ==> forall f: Frequency :: FrequencyName(f) != s
  {
    if s == "Mensual" then Some(Monthly)
    else if s == "Trimestral" then Some(Quarterly)
    else if s == "Semestral" then Some(Semiannual)
    else if s == "Anual" then Some(Annual)
    else if s == "Al vencimiento" then Some(AtMaturity)
    else None
  }

  /** Every frequency's label is found again in the table. */
  lemma ParseFrequencyName(f: Frequency)
    ensures ParseFrequency(FrequencyName(f)) == Some(f)
  {
  }

  /** The label the form shows for each amortization method; reading it back gives the method. */
  function AmortizationName(m: Amortization): (s: string)
    ensures ParseAmortization(s) == m
  {
    match m
    case Level => "Nivelada"
    case Declining => "Saldos Insolutos"
  }

  /** Only the exact label "Nivelada" selects the level payment; every other label
      selects the declining balance. */
  function ParseAmortization(s: string): Amortization
  {
    if s == "Nivelada" then Level else Declining
  }

  /** The label the form shows for the insurance choice; reading it back gives the choice. */
  function InsuredName(insured: bool): (s: string)
    ensures ParseInsured(s) == insured
  {
    if insured then "S\U{ED}" else "No"
  }

  /** Only the exact label "Sí" turns insurance on. */
  function ParseInsured(s: string): bool
  {
    s == "S\U{ED}"
  }
}
