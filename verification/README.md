# Loan instalment schedule

A Dafny model of `calcular_cuotas`, the instalment calculator of a one-page loan
amortization notebook. Given the loan terms, it returns one row per payment
period: period number, total payment, interest, principal, insurance and
remaining balance. A loan with several payments ("Mensual", "Trimestral",
"Semestral", "Anual") is amortized in one of two ways:

- **Level payment** ("Nivelada"): the annuity payment `P r (1+r)^n / ((1+r)^n - 1)`.
- **Declining balance** (any other method label): a fixed principal of `P / n`
  plus interest on the balance carried in.

A loan repaid "Al vencimiento" has a single row: simple interest for the term
plus the whole amount.

When insurance is on ("Sí"), one premium is charged on every period except the
last year's. The premium is computed from the balance after the first year's
payments, or after the last payment when the term is shorter:
`(balance / 1000) * rate * 12 / payments per year`.

Modules, one file each:

- `Loan` (`loan.dfy`): the terms, rows and errors; the frequency table; the period count and periodic rate; the form labels.
- `Power` (`power.dfy`): natural powers of a real, and when `(1 + r)^n` is one.
- `Arith` (`arith.dfy`): sign and quotient facts the solver needs spelled out.
- `Schedule` (`schedule.dfy`): the period loop shared by both methods, and the loop that computes the reference balance without the clamp.
- `Calculator` (`calculator.dfy`): `Calculate`, which returns the schedule or an error, and `RunCalculate`, a step-by-step method proved to agree with it.
- `Declining` (`declining.dfy`): properties of declining-balance schedules.
- `Level` (`level.dfy`): properties of level-payment schedules, via the closed form of the annuity balance.
- `Insurance` (`insurance.dfy`): the insurance window, the premium and the reference balance.

Arithmetic is exact (`real`). Where `calcular_cuotas` raises
`ZeroDivisionError`, the model returns one of the `Err` results `NoWholePeriod`
and `FlatAnnuity`:

- `NoWholePeriod`: the term is shorter than one payment period, so `n = 0`.
- `FlatAnnuity`: a level payment whose annuity denominator `(1 + r)^n - 1` is zero, which for a non-negative rate means a zero rate.

The code does not validate its inputs. A too-short term, or a zero rate with
the level method, divides by zero. A negative amount is computed like any other.

## Model

| member | source | states |
|---|---|---|
| Loan.PaymentsPerYear | app.py:6-13 | Payments per year are zero exactly for the single payment at maturity; otherwise they are a positive divisor of twelve. |
| Loan.PeriodCount | app.py:24 | The period count is the whole part of term × payments per year / 12: no more than that quotient, and more than the quotient less one. |
| Loan.PeriodicRate | app.py:25 | A year of periodic rates, times one hundred, gives back the annual percentage. A non-negative (positive) annual rate gives a non-negative (positive) periodic rate. |
| Loan.ParseFrequency | app.py:6-13 | A label found in the frequency table is that frequency's label. A label the table lacks is no frequency's label. |
| Loan.ParseFrequencyName | app.py:6-13 | Each frequency's label is found again in the frequency table as that frequency. |
| Loan.AmortizationName | app.py:55 | The label "Nivelada" selects the level method and the label "Saldos Insolutos" the declining-balance method: reading back either method's label gives that method. |
| Loan.InsuredName | app.py:61 | The label "Sí" turns insurance on and "No" leaves it off: reading back either choice's label gives that choice. |
| Power.FlatGrowthIffZeroRate | app.py:34 | For a non-negative rate and at least one period, the annuity denominator `(1+r)^n - 1` is zero exactly when the rate is zero. |
| Schedule.BasePayment | app.py:65-68 | Under either method, a period's payment before insurance is its interest plus its principal. |
| Schedule.Clamp | app.py:60 | The clamped balance is the larger of the balance and zero. |
| Schedule.RowAt | app.py:57-63 | A period's row has its own number, the insurance applied to that period and a non-negative balance; its payment is interest + principal + insurance. |
| Schedule.Rows | app.py:56-63 | The schedule has `count` rows numbered consecutively. Each row's payment is interest + principal + insurance, its insurance is the cover's charge for that period, and its balance is never negative. |
| Schedule.RunRows | app.py:52-73 | The loop that carries each row's balance into the next period builds exactly the schedule's rows. |
| Schedule.RunUnclamped | app.py:35-43 | The reference pre-pass loop computes the balance after `k` unclamped periods. |
| Schedule.RowsFollowBalance | app.py:56-60 | Row `j` is entered with the balance the previous row left (the amount, for the first row) and charges interest on it. It leaves the balance after `j + 1` periods. |
| Schedule.ClampNeverFires | app.py:60 | While the unclamped balance never goes negative, `max(saldo, 0)` changes nothing. |
| Schedule.PrincipalSumTelescopes | app.py:58-59 | While the clamp never fires, the principal column sums to the opening balance less the final balance. |
| Calculator.Installment | app.py:65 | `n` fixed principal portions make up the amount. For a non-negative amount, each lies between zero and the amount. |
| Calculator.MaturityRow | app.py:14-21 | The maturity row is period 1 with principal = amount and interest = amount × rate × months / 1200. Its payment is interest plus principal, with no insurance and nothing left owing. |
| Calculator.Calculate | app.py:5-75 | The terms yield a schedule exactly when they are computable; the error is `NoWholePeriod` exactly when there are no periods. At maturity the schedule is the single maturity row. Otherwise there is one row per period, numbered from one, with non-negative balances and payment = interest + principal + insurance. |
| Calculator.RunCalculate | app.py:5-75 | The step-by-step calculation agrees with `Calculate`. It covers the frequency lookup, the maturity branch, the period count, the reference pre-pass, the premium and the period loop. |
| Calculator.FailureConditions | app.py:24-40 | For a non-negative rate, the calculation fails exactly when the term is shorter than one period, or when the method is level and the rate is zero. A payment at maturity never fails. |
| Declining.DecliningComputable | app.py:39-40 | A declining-balance loan with at least one period always gets a schedule, with one row per period. |
| Declining.DecliningRow | app.py:65-73 | Each declining-balance row repays amount / n. Its interest is the periodic rate on the balance the previous row left, and its payment is principal + interest + insurance. |
| Declining.DecliningBalance | app.py:65-70 | For a non-negative amount, row `j` leaves the amount less `j + 1` installments, never more than the balance before it. The last row leaves zero. |
| Declining.DecliningPriorBalance | app.py:66-70 | For a non-negative amount, the balance carried into row `j` is the amount less `j` installments. |
| Declining.DecliningInterestFalls | app.py:65-70 | Each interest portion is the previous one less one period's interest on amount / n; for a positive amount and rate the interest strictly falls. |
| Declining.DecliningRepaysAmount | app.py:65-73 | For a non-negative amount, the principal column of a declining-balance schedule sums to the amount. |
| Level.AnnuityStep | app.py:34-38 | One level payment takes the closed-form annuity balance after `m` periods to the closed form after `m + 1`. |
| Level.AnnuityUnclamped | app.py:35-38 | Without the clamp, the level-payment balance after `m` periods equals the closed form `P((1+r)^n - (1+r)^m)/((1+r)^n - 1)`. |
| Level.LevelComputable | app.py:33-34 | For a non-negative rate, a level-payment loan yields a schedule exactly when it has a period and a positive rate. |
| Level.LevelRow | app.py:55-63 | Each level-payment row charges the periodic rate on the balance carried in. Interest plus principal is the same annuity payment in every row, and the insurance comes on top. |
| Level.LevelBalance | app.py:56-60 | For a non-negative amount and rate, row `j` leaves the closed-form annuity balance after `j + 1` periods, and the last row leaves zero. |
| Level.LevelPrincipalGrowth | app.py:34-58 | Each principal portion is the previous one plus one period's interest on it. Every principal portion is non-negative; for a positive amount they are positive and strictly increase. |
| Level.LevelInterestFalls | app.py:34-58 | Each interest portion is the previous one less one period's interest on the principal just repaid; for a positive amount the interest strictly falls. |
| Level.LevelBalanceFalls | app.py:57-60 | Each row leaves the balance carried in less its principal portion, so the balance never rises, and for a positive amount it strictly falls every period. |
| Level.LevelRepaysAmount | app.py:56-60 | For a non-negative amount and rate, the principal column of a level-payment schedule sums to the amount. |
| Insurance.InsuranceWindow | app.py:50-61 | A row carries the premium exactly when insurance was chosen and at least one year's payments follow it; otherwise it carries nothing. |
| Insurance.NoInsuranceWithinAYear | app.py:50-61 | A loan of at most one year's payments is charged no insurance. |
| Insurance.InsuranceTotal | app.py:50-62 | The insurance column sums to one premium for each period except the last year's, or to zero. |
| Insurance.FirstYearInsurance | app.py:45-61 | For an insured loan of at least two years' payments, the insurance of the first year's rows adds up to twelve monthly charges of the insurance rate per thousand of the reference balance. |
| Insurance.ReferenceBalanceIsYearEnd | app.py:28-43 | For a non-negative amount and rate, the pre-pass's reference balance is the balance the schedule shows after one year's payments, or after its last payment when the term is shorter. |
| Insurance.PremiumNonNegative | app.py:45-48 | For a non-negative amount, rate and insurance rate, the premium is never negative. |
| Insurance.DecliningPaymentNonNegative | app.py:45-72 | For a non-negative amount, rate and insurance rate, every declining-balance row has non-negative principal, interest, insurance and payment. |
| Insurance.LevelPaymentNonNegative | app.py:34-62 | For a non-negative amount, rate and insurance rate, every level-payment row has non-negative principal, interest, insurance and payment. |

## Left out

- The widget form and its event handler (app.py:77-124), and the text table the function returns: headers, column widths and two-decimal formatting. The model returns the row values themselves.
- Floating point. Arithmetic is exact, so rounding drift is not modelled, and neither is a tiny positive rate whose float `(1 + r)^n` rounds to one, nor the `OverflowError` Python raises when `(1 + r) ** n` exceeds the float range.
- Unknown frequency labels. There `freq_dict.get` yields `None` and the later arithmetic raises a `TypeError`. `Terms` holds a `Frequency`, and `ParseFrequency` returns `None` for such a label.
- Negative terms. `termMonths` is a `nat`, so `int()` truncation of a negative quotient does not arise.
- The text of the division-by-zero exceptions. Only which error occurs is modelled.
- The unused `numpy` import, and the interest the declining-balance pre-pass computes but never uses (app.py:42).
- Declining.DecliningBalance, Declining.DecliningPriorBalance, Declining.DecliningInterestFalls, Declining.DecliningRepaysAmount: stated for a non-negative amount only. With a negative amount and two or more periods the clamp fires on the first period and the balance no longer follows `amount - k * amount / n`.
- Level.LevelBalance, Level.LevelPrincipalGrowth, Level.LevelInterestFalls, Level.LevelBalanceFalls, Level.LevelRepaysAmount: stated for a non-negative amount and rate only, the case where the clamp provably never fires.
- Insurance.ReferenceBalanceIsYearEnd, Insurance.PremiumNonNegative, Insurance.DecliningPaymentNonNegative, Insurance.LevelPaymentNonNegative: stated for a non-negative amount and rate only, for the same reason.
