/** The period-by-period loop shared by both amortizing methods: each period
    charges interest on the balance carried in, takes a principal portion off it,
    clamps the new balance at zero and adds the insurance due for that period. */
module Schedule {
  import opened Loan

  /** What fixes each period's principal portion: the level method fixes the whole
      payment, the declining-balance method fixes the principal portion itself. */
  datatype Plan =
    | LevelPlan(rate: real, payment: real)
    | DecliningPlan(rate: real, installment: real)

  /** Which periods carry an insurance charge and how much: the premium is charged
      when insurance is on, on every period numbered up to `lastInsured`. */
  datatype Cover = Cover(insured: bool, premium: real, lastInsured: int)

  /** Interest on a balance at a periodic rate. */
  function InterestOn(balance: real, rate: real): real
  {
    balance * rate
  }

  /** `k` installments of `d`. */
  function Installments(k: nat, d: real): real
  {
    (k as real) * d
  }

  /** One more installment adds one installment to the total. */
  lemma OneMore(k: nat, d: real)
    ensures Installments(k + 1, d) == Installments(k, d) + d
  {
  }

  /** A positive balance at a positive rate earns positive interest. */
  lemma InterestOnPositive(balance: real, rate: real)
    requires balance > 0.0 && rate > 0.0
    ensures InterestOn(balance, rate) > 0.0
  {
  }

  /** Interest is linear in the balance: the interest on a balance less `d` is the interest on
      the balance less the interest on `d`. */
  lemma InterestOnDifference(balance: real, d: real, rate: real)
    ensures InterestOn(balance - d, rate) == InterestOn(balance, rate) - InterestOn(d, rate)
  {
  }

  /** The principal portion of a period's payment, given the balance carried in. */
  function Principal(p: Plan, balance: real): real
  {
    match p
    case LevelPlan(rate, payment) => payment - InterestOn(balance, rate)
    case DecliningPlan(_, installment) => installment
  }

  /** A period's payment before insurance: the fixed payment of the level method,
      or the fixed principal plus this period's interest. Either way it is
      interest plus principal. */
  function BasePayment(p: Plan, balance: real): (base: real)
    ensures base == InterestOn(balance, p.rate) + Principal(p, balance)
  {
    match p
    case LevelPlan(_, payment) => payment
    case DecliningPlan(rate, installment) => installment + InterestOn(balance, rate)
  }

  /** The balance after one period, before the clamp at zero. */
  function Reduce(p: Plan, balance: real): real
  {
    balance - Principal(p, balance)
  }

  /** The larger of `x` and zero. */
  function Clamp(x: real): (c: real)
    ensures c >= 0.0 && c >= x
    ensures c == x || c == 0.0
  {
    if x < 0.0 then 0.0 else x
  }

  /** The insurance charged on a given period. */
  function Applied(cov: Cover, period: nat): real
  {
    if cov.insured && period <= cov.lastInsured then cov.premium else 0.0
  }

  /** The row of one period, given the balance carried into it. */
  function RowAt(p: Plan, balance: real, period: nat, cov: Cover): (row: Row)
    ensures row.period == period
    ensures row.payment == row.interest + row.principal + row.insurance
    ensures row.insurance == Applied(cov, period)
    ensures row.balance >= 0.0
  {
    var insurance := Applied(cov, period);
    Row(period, BasePayment(p, balance) + insurance, InterestOn(balance, p.rate),
        Principal(p, balance), insurance, Clamp(Reduce(p, balance)))
  }

  /** The row of period `first + j`, entered with the balance left after `j` periods. */
  function RowAfter(p: Plan, opening: real, first: nat, cov: Cover, j: nat): Row
  {
    RowAt(p, BalanceAfter(p, opening, j), first + j, cov)
  }

  /** The rows of `count` consecutive periods numbered from `first`, the `j`-th of them
      (counting from zero) entered with the balance left after `j` periods. */
  function Rows(p: Plan, opening: real, first: nat, count: nat, cov: Cover): (rs: seq<Row>)
    ensures |rs| == count
    ensures forall j :: 0 <= j < |rs| ==>
      && rs[j].period == first + j
      && rs[j].payment == rs[j].interest + rs[j].principal + rs[j].insurance
      && rs[j].insurance == Applied(cov, first + j)
      && rs[j].balance >= 0.0
  {
    seq(count, (j: int) requires 0 <= j => RowAfter(p, opening, first, cov, j))
  }

  /** The balance carried into the `j`-th row (counting from zero): the opening
      balance for the first row, the previous row's balance afterwards. */
  function PriorBalance(rows: seq<Row>, opening: real, j: nat): real
    requires j <= |rows|
  {
    if j == 0 then opening else rows[j - 1].balance
  }

  /** The balance after `k` periods as the schedule computes it, clamped at zero each period. */
  function BalanceAfter(p: Plan, opening: real, k: nat): real
  {
    if k == 0 then opening else Clamp(Reduce(p, BalanceAfter(p, opening, k - 1)))
  }

  /** The balance after `k` periods without the clamp, as the pass that finds the
      insurance reference balance computes it. */
  function Unclamped(p: Plan, opening: real, k: nat): real
  {
    if k == 0 then opening else Reduce(p, Unclamped(p, opening, k - 1))
  }

  /** The period loop: each pass builds the row of the balance carried in and carries
      that row's balance into the next pass. Its rows are the schedule's rows. */
  method RunRows(p: Plan, opening: real, first: nat, count: nat, cov: Cover) returns (rs: seq<Row>)
    ensures rs == Rows(p, opening, first, count, cov)
  {
    rs := [];
    var balance := opening;
    var k := 0;
    while k < count
      invariant k <= count && |rs| == k
      invariant balance == BalanceAfter(p, opening, k)
      invariant forall j :: 0 <= j < k ==> rs[j] == RowAfter(p, opening, first, cov, j)
    {
      var row := RowAt(p, balance, first + k, cov);
      assert row == RowAfter(p, opening, first, cov, k);
      rs := rs + [row];
      balance := row.balance;
      k := k + 1;
    }
    assert forall j :: 0 <= j < count ==> rs[j] == Rows(p, opening, first, count, cov)[j];
  }

  /** The pre-pass that finds the insurance reference balance: `k` periods of the
      same reduction, without the clamp. */
  method RunUnclamped(p: Plan, opening: real, k: nat) returns (balance: real)
    ensures balance == Unclamped(p, opening, k)
  {
    balance := opening;
    var i := 0;
    while i < k
      invariant i <= k && balance == Unclamped(p, opening, i)
    {
      balance := Reduce(p, balance);
      i := i + 1;
    }
  }

  /** Row `j` is the period entered with the balance left after `j` periods. */
  lemma RowsAt(p: Plan, opening: real, first: nat, count: nat, cov: Cover, j: nat)
    requires j < count
    ensures Rows(p, opening, first, count, cov)[j] == RowAt(p, BalanceAfter(p, opening, j), first + j, cov)
  {
  }

  /** Row `j` carries in the balance the previous row left (the opening balance for the
      first row), charges interest on it, and leaves the balance after `j + 1` periods. */
  lemma RowsFollowBalance(p: Plan, opening: real, first: nat, count: nat, cov: Cover, j: nat)
    requires j < count
    ensures var rs := Rows(p, opening, first, count, cov);
      && PriorBalance(rs, opening, j) == BalanceAfter(p, opening, j)
      && rs[j] == RowAt(p, PriorBalance(rs, opening, j), first + j, cov)
      && rs[j].interest == InterestOn(PriorBalance(rs, opening, j), p.rate)
      && rs[j].principal == Principal(p, PriorBalance(rs, opening, j))
      && rs[j].balance == BalanceAfter(p, opening, j + 1)
  {
    RowsAt(p, opening, first, count, cov, j);
    if j > 0 {
      RowsAt(p, opening, first, count, cov, j - 1);
    }
  }

  /** The unclamped balance is non-negative throughout the first `k` periods. */
  ghost predicate NeverNegative(p: Plan, opening: real, k: nat)
  {
    forall i :: 0 <= i <= k ==> Unclamped(p, opening, i) >= 0.0
  }

  /** While the unclamped balance stays non-negative the clamp never fires, so the
      schedule's balance and the unclamped balance agree. */
  lemma {:induction false} ClampNeverFires(p: Plan, opening: real, k: nat, i: nat)
    requires NeverNegative(p, opening, k) && i <= k
    ensures BalanceAfter(p, opening, i) == Unclamped(p, opening, i)
  {
    if i > 0 {
      ClampNeverFires(p, opening, k, i - 1);
      assert Unclamped(p, opening, i) >= 0.0;
    }
  }

  /** The sum of the principal column. */
  function PrincipalSum(rows: seq<Row>): real
  {
    if |rows| == 0 then 0.0 else PrincipalSum(rows[..|rows| - 1]) + rows[|rows| - 1].principal
  }

  /** While the clamp never fires the principal portions telescope: the first `k`
      rows repay exactly the drop from the opening balance to the balance after `k` periods. */
  lemma {:induction false} PrincipalTelescopes(p: Plan, opening: real, first: nat, count: nat, cov: Cover, k: nat)
    requires k <= count && NeverNegative(p, opening, count)
    ensures PrincipalSum(Rows(p, opening, first, count, cov)[..k]) == opening - Unclamped(p, opening, k)
  {
    var rs := Rows(p, opening, first, count, cov);
    if k > 0 {
      PrincipalTelescopes(p, opening, first, count, cov, k - 1);
      assert rs[..k][..k - 1] == rs[..k - 1];
      RowsFollowBalance(p, opening, first, count, cov, k - 1);
      ClampNeverFires(p, opening, count, k - 1);
    }
  }

  /** The principal column sums to the opening balance less the final unclamped balance. */
  lemma PrincipalSumTelescopes(p: Plan, opening: real, first: nat, count: nat, cov: Cover)
    requires NeverNegative(p, opening, count)
    ensures PrincipalSum(Rows(p, opening, first, count, cov)) == opening - Unclamped(p, opening, count)
  {
    var rs := Rows(p, opening, first, count, cov);
    PrincipalTelescopes(p, opening, first, count, cov, count);
    assert rs[..count] == rs;
  }
}
