/**
 * The Debt Trap Decoder (`components/DebtTrapDecoder.tsx`): validates a loan,
 * derives the effective annual rate and the fixed instalment, walks the loan
 * month by month into an amortization schedule, and estimates the late fees
 * of three missed instalments.
 */
module DebtTrapDecoder {
  import opened Wrappers
  import opened Types
  import opened FinMath

  /** Everything one successful `calculateLoan` writes into the component state. */
  datatype LoanOutcome = LoanOutcome(
    effectiveApr: real,
    monthlyEmi: real,
    schedule: seq<LoanAmortization>,
    totalInterestPaid: real,
    totalRepaid: real)

  predicate ValidLoan(d: LoanDetails)
  {
    d.principal > 0.0 && d.monthlyInterestRate > 0.0 && d.tenureMonths > 0
  }

  /** `((1 + r)^12 - 1) * 100` for a monthly rate given as a percentage. */
  function EffectiveApr(monthlyRatePercent: real): real
  {
    (Pow(1.0 + monthlyRatePercent / 100.0, 12) - 1.0) * 100.0
  }

  /** Compounding twelve months never gives less than twelve times the monthly rate. */
  lemma EffectiveAprAtLeastSimple(monthlyRatePercent: real)
    requires monthlyRatePercent >= 0.0
    ensures EffectiveApr(monthlyRatePercent) >= 12.0 * monthlyRatePercent
  {
    Bernoulli(monthlyRatePercent / 100.0, 12);
  }

  /**
   * `currentPrincipal` after `k` iterations of the loop: each month the
   * interest `b * r` is charged and `emi - b * r` of principal is repaid.
   * It is not clamped; only the displayed `endingBalance` is.
   */
  function BalanceAfter(p: real, r: real, emi: real, k: nat): real
  {
    if k == 0 then p
    else
      var b := BalanceAfter(p, r, emi, k - 1);
      b - (emi - b * r)
  }

  /** The row the loop pushes in month `m`, computed the way the loop computes it. */
  function Row(p: real, r: real, emi: real, m: nat): LoanAmortization
    requires m >= 1
  {
    var b := BalanceAfter(p, r, emi, m - 1);
    var interestPayment := b * r;
    var principalPayment := emi - interestPayment;
    var current := b - principalPayment;
    LoanAmortization(
      m, current + principalPayment, emi, interestPayment, principalPayment,
      if current > 0.0 then current else 0.0)
  }

  /**
   * What row `k` (0-based) of a schedule must satisfy: it is month `k + 1`,
   * pays `emi`, splits it into interest and principal, charges interest on
   * the balance before this month's payment, and shows a non-negative
   * ending balance that is the unclamped balance whenever it is positive.
   */
  predicate RowInvariant(p: real, r: real, emi: real, k: nat, row: LoanAmortization)
  {
    && row.month == k + 1
    && row.payment == emi
    && row.interestPaid + row.principalPaid == row.payment
    && row.beginningBalance == BalanceAfter(p, r, emi, k)
    && row.interestPaid == row.beginningBalance * r
    && row.endingBalance >= 0.0
    && (row.endingBalance > 0.0 ==> row.endingBalance == BalanceAfter(p, r, emi, k + 1))
  }

  lemma RowFacts(p: real, r: real, emi: real, m: nat)
    requires m >= 1
    ensures RowInvariant(p, r, emi, m - 1, Row(p, r, emi, m))
  {
    var b := BalanceAfter(p, r, emi, m - 1);
    assert BalanceAfter(p, r, emi, m) == b - (emi - b * r);
  }

  /** The first `n` rows of the schedule, in month order. */
  function Schedule(p: real, r: real, emi: real, n: nat): seq<LoanAmortization>
  {
    if n == 0 then [] else Schedule(p, r, emi, n - 1) + [Row(p, r, emi, n)]
  }

  function SumInterest(rows: seq<LoanAmortization>): real
  {
    if rows == [] then 0.0 else SumInterest(rows[..|rows| - 1]) + rows[|rows| - 1].interestPaid
  }

  /**
   * `calculateLoan`: rejects a non-positive principal, rate or tenure (the
   * component shows an alert and keeps its state), otherwise returns the
   * APR, the instalment, the schedule and the totals.
   */
  method CalculateLoan(d: LoanDetails) returns (result: Option<LoanOutcome>)
    ensures result.None? <==> !ValidLoan(d)
    ensures result.Some? ==>
      var r := d.monthlyInterestRate / 100.0;
      var o := result.value;
      && o.effectiveApr == EffectiveApr(d.monthlyInterestRate)
      && o.monthlyEmi == Emi(d.principal, r, d.tenureMonths)
      && o.schedule == Schedule(d.principal, r, o.monthlyEmi, d.tenureMonths)
      && o.totalInterestPaid == SumInterest(o.schedule)
      && o.totalRepaid == d.principal + o.totalInterestPaid
  {
    if !ValidLoan(d) {
      return None;
    }
    var monthlyRateDecimal := d.monthlyInterestRate / 100.0;
    var apr := EffectiveApr(d.monthlyInterestRate);
    var emi := Emi(d.principal, monthlyRateDecimal, d.tenureMonths);

    var currentPrincipal := d.principal;
    var cumulativeInterest := 0.0;
    var schedule: seq<LoanAmortization> := [];
    var i := 1;
    while i <= d.tenureMonths
      invariant 1 <= i <= d.tenureMonths + 1
      invariant schedule == Schedule(d.principal, monthlyRateDecimal, emi, i - 1)
      invariant currentPrincipal == BalanceAfter(d.principal, monthlyRateDecimal, emi, i - 1)
      invariant cumulativeInterest == SumInterest(schedule)
    {
      MonthStep(d.principal, monthlyRateDecimal, emi, i, currentPrincipal);
      var interestPayment := currentPrincipal * monthlyRateDecimal;
      var principalPayment := emi - interestPayment;
      currentPrincipal := currentPrincipal - principalPayment;
      cumulativeInterest := cumulativeInterest + interestPayment;
      var row := LoanAmortization(
        i, currentPrincipal + principalPayment, emi, interestPayment, principalPayment,
        if currentPrincipal > 0.0 then currentPrincipal else 0.0);
      schedule := schedule + [row];
      i := i + 1;
    }
    result := Some(LoanOutcome(apr, emi, schedule, cumulativeInterest, d.principal + cumulativeInterest));
  }

  /** Month `m` of the loop: the row it pushes, the balance it leaves and the interest it adds. */
  lemma MonthStep(p: real, r: real, emi: real, m: nat, b: real)
    requires m >= 1 && b == BalanceAfter(p, r, emi, m - 1)
    ensures BalanceAfter(p, r, emi, m) == b - (emi - b * r)
    ensures Row(p, r, emi, m) == LoanAmortization(
      m, (b - (emi - b * r)) + (emi - b * r), emi, b * r, emi - b * r,
      if b - (emi - b * r) > 0.0 then b - (emi - b * r) else 0.0)
    ensures Schedule(p, r, emi, m) == Schedule(p, r, emi, m - 1) + [Row(p, r, emi, m)]
    ensures SumInterest(Schedule(p, r, emi, m)) == SumInterest(Schedule(p, r, emi, m - 1)) + b * r
  {
    var s := Schedule(p, r, emi, m);
    assert s[..|s| - 1] == Schedule(p, r, emi, m - 1);
  }

  /**
   * The shape of every schedule: exactly `n` rows, each satisfying
   * `RowInvariant`, and each row after the first starts from the previous
   * row's unclamped ending balance.
   */
  lemma {:induction false} ScheduleRows(p: real, r: real, emi: real, n: nat)
    ensures |Schedule(p, r, emi, n)| == n
    ensures forall k :: 0 <= k < n ==> RowInvariant(p, r, emi, k, Schedule(p, r, emi, n)[k])
    ensures forall k :: 0 <= k < n - 1 ==>
      Schedule(p, r, emi, n)[k + 1].beginningBalance
        == Schedule(p, r, emi, n)[k].beginningBalance - Schedule(p, r, emi, n)[k].principalPaid
  {
    ScheduleLength(p, r, emi, n);
    var s := Schedule(p, r, emi, n);
    forall k | 0 <= k < n
      ensures RowInvariant(p, r, emi, k, s[k])
    {
      ScheduleRow(p, r, emi, n, k);
      RowFacts(p, r, emi, k + 1);
    }
    forall k | 0 <= k < n - 1
      ensures s[k + 1].beginningBalance == s[k].beginningBalance - s[k].principalPaid
    {
      ScheduleRow(p, r, emi, n, k);
      ScheduleRow(p, r, emi, n, k + 1);
      var b := BalanceAfter(p, r, emi, k);
      assert BalanceAfter(p, r, emi, k + 1) == b - (emi - b * r);
    }
  }

  lemma {:induction false} ScheduleLength(p: real, r: real, emi: real, n: nat)
    ensures |Schedule(p, r, emi, n)| == n
  {
    if n > 0 {
      ScheduleLength(p, r, emi, n - 1);
    }
  }

  /** The interest charged over the first `n` months, month by month on the unclamped balance. */
  function InterestUpTo(p: real, r: real, emi: real, n: nat): real
  {
    if n == 0 then 0.0 else InterestUpTo(p, r, emi, n - 1) + BalanceAfter(p, r, emi, n - 1) * r
  }

  /**
   * Summing the rows' interest: what was paid in total minus what was
   * repaid of the principal, `n * emi - (p - balance after n months)`.
   */
  lemma SumInterestOfSchedule(p: real, r: real, emi: real, n: nat)
    ensures SumInterest(Schedule(p, r, emi, n)) == (n as real) * emi - (p - BalanceAfter(p, r, emi, n))
  {
    SumInterestIsInterestUpTo(p, r, emi, n);
    InterestUpToClosedForm(p, r, emi, n);
  }

  lemma {:induction false} SumInterestIsInterestUpTo(p: real, r: real, emi: real, n: nat)
    ensures SumInterest(Schedule(p, r, emi, n)) == InterestUpTo(p, r, emi, n)
  {
    if n > 0 {
      SumInterestIsInterestUpTo(p, r, emi, n - 1);
      var s := Schedule(p, r, emi, n);
      assert s[..|s| - 1] == Schedule(p, r, emi, n - 1);
    }
  }

  lemma {:induction false} InterestUpToClosedForm(p: real, r: real, emi: real, n: nat)
    ensures InterestUpTo(p, r, emi, n) == (n as real) * emi - (p - BalanceAfter(p, r, emi, n))
  {
    if n > 0 {
      InterestUpToClosedForm(p, r, emi, n - 1);
      assert (n as real) * emi == ((n - 1) as real) * emi + emi;
    }
  }

  /** The unclamped balance in closed form: `p * q^k - emi * (1 + q + ... + q^(k-1))`. */
  lemma {:induction false} BalanceClosedForm(p: real, r: real, emi: real, k: nat)
    ensures BalanceAfter(p, r, emi, k) == p * Pow(1.0 + r, k) - emi * GeomSum(1.0 + r, k)
  {
    if k > 0 {
      BalanceClosedForm(p, r, emi, k - 1);
      var b := BalanceAfter(p, r, emi, k - 1);
      var q := Pow(1.0 + r, k - 1);
      var g := GeomSum(1.0 + r, k - 1);
      assert b - (emi - b * r) == b * (1.0 + r) - emi;
      assert (p * q - emi * g) * (1.0 + r) - emi == p * ((1.0 + r) * q) - emi * (g * (1.0 + r) + 1.0);
    }
  }

  /** Over exact reals the annuity instalment pays the loan off exactly in month `n`. */
  lemma AnnuityClearsLoan(p: real, r: real, n: nat)
    requires r > 0.0 && n >= 1
    ensures BalanceAfter(p, r, Emi(p, r, n), n) == 0.0
  {
    BalanceClosedForm(p, r, Emi(p, r, n), n);
    EmiTimesGeomSum(p, r, n);
  }

  /**
   * When the instalment exceeds the first month's interest, every month
   * repays some principal: the balance strictly decreases and never rises
   * above the amount borrowed.
   */
  lemma {:induction false} BalanceDecreasing(p: real, r: real, emi: real, k: nat)
    requires r > 0.0 && emi > p * r
    ensures BalanceAfter(p, r, emi, k + 1) < BalanceAfter(p, r, emi, k) <= p
  {
    if k > 0 {
      BalanceDecreasing(p, r, emi, k - 1);
    }
    var b := BalanceAfter(p, r, emi, k);
    MulMonotone(r, p, b);
    assert BalanceAfter(p, r, emi, k + 1) == b - (emi - b * r);
  }

  lemma {:induction false} BalanceAboveLater(p: real, r: real, emi: real, k: nat, n: nat)
    requires r > 0.0 && emi > p * r && k < n
    ensures BalanceAfter(p, r, emi, k) > BalanceAfter(p, r, emi, n)
    decreases n - k
  {
    BalanceDecreasing(p, r, emi, k);
    if k + 1 < n {
      BalanceAboveLater(p, r, emi, k + 1, n);
    }
  }

  /** A row whose true ending balance is not negative shows it unclamped. */
  lemma EndingBalanceUnclamped(p: real, r: real, emi: real, n: nat, k: nat)
    requires k < n && BalanceAfter(p, r, emi, k + 1) >= 0.0
    ensures |Schedule(p, r, emi, n)| == n
    ensures Schedule(p, r, emi, n)[k].endingBalance == BalanceAfter(p, r, emi, k + 1)
  {
    ScheduleRow(p, r, emi, n, k);
    var b := BalanceAfter(p, r, emi, k);
    assert BalanceAfter(p, r, emi, k + 1) == b - (emi - b * r);
  }

  /**
   * Over exact reals the clamp to zero never changes anything: with the
   * annuity instalment every displayed ending balance is the true balance,
   * positive before the last month and 0 after it.
   */
  lemma AnnuityNeverClamps(p: real, r: real, n: nat)
    requires p > 0.0 && r > 0.0 && n >= 1
    ensures |Schedule(p, r, Emi(p, r, n), n)| == n
    ensures forall k :: 0 <= k < n ==>
      Schedule(p, r, Emi(p, r, n), n)[k].endingBalance == BalanceAfter(p, r, Emi(p, r, n), k + 1)
    ensures forall k :: 1 <= k < n ==> BalanceAfter(p, r, Emi(p, r, n), k) > 0.0
  {
    var emi := Emi(p, r, n);
    assert emi > p * r by { EmiRepaysMoreThanPrincipal(p, r, n); }
    assert BalanceAfter(p, r, emi, n) == 0.0 by { AnnuityClearsLoan(p, r, n); }
    ScheduleRows(p, r, emi, n);
    forall k | 1 <= k < n
      ensures BalanceAfter(p, r, emi, k) > 0.0
    {
      BalanceAboveLater(p, r, emi, k, n);
    }
    forall k | 0 <= k < n
      ensures Schedule(p, r, emi, n)[k].endingBalance == BalanceAfter(p, r, emi, k + 1)
    {
      EndingBalanceUnclamped(p, r, emi, n, k);
    }
  }

  lemma {:induction false} ScheduleRow(p: real, r: real, emi: real, n: nat, k: nat)
    requires k < n
    ensures |Schedule(p, r, emi, n)| == n
    ensures Schedule(p, r, emi, n)[k] == Row(p, r, emi, k + 1)
  {
    ScheduleLength(p, r, emi, n);
    if k < n - 1 {
      ScheduleRow(p, r, emi, n - 1, k);
      assert Schedule(p, r, emi, n)[k] == Schedule(p, r, emi, n - 1)[k];
    }
  }

  /**
   * Consequently the totals `calculateLoan` reports agree with the
   * instalments: `totalRepaid == emi * tenureMonths`, and the interest is
   * positive.
   */
  lemma TotalRepaidIsInstalments(d: LoanDetails, o: LoanOutcome)
    requires ValidLoan(d)
    requires o.monthlyEmi == Emi(d.principal, d.monthlyInterestRate / 100.0, d.tenureMonths)
    requires o.schedule == Schedule(d.principal, d.monthlyInterestRate / 100.0, o.monthlyEmi, d.tenureMonths)
    requires o.totalInterestPaid == SumInterest(o.schedule)
    requires o.totalRepaid == d.principal + o.totalInterestPaid
    ensures o.totalRepaid == o.monthlyEmi * (d.tenureMonths as real)
    ensures o.totalInterestPaid > 0.0
  {
    var p, r, n, emi := d.principal, d.monthlyInterestRate / 100.0, d.tenureMonths, o.monthlyEmi;
    var b := BalanceAfter(p, r, emi, n);
    assert b == 0.0 by { AnnuityClearsLoan(p, r, n); }
    assert o.totalInterestPaid == (n as real) * emi - (p - b) by { SumInterestOfSchedule(p, r, emi, n); }
    assert emi * (n as real) > p by { EmiRepaysMoreThanPrincipal(p, r, n); }
  }

  /**
   * `calculateLateFeeImpact`: one late fee of `emi * lateFeeRate` per missed
   * month; a non-positive count charges nothing.
   */
  method CalculateLateFeeImpact(emi: real, lateFeeRate: real, missedMonths: int) returns (totalLateFees: real)
    ensures totalLateFees == (if missedMonths > 0 then missedMonths as real else 0.0) * (emi * lateFeeRate)
  {
    totalLateFees := 0.0;
    var i := 0;
    while i < missedMonths
      invariant 0 <= i <= (if missedMonths > 0 then missedMonths else 0)
      invariant totalLateFees == (i as real) * (emi * lateFeeRate)
    {
      totalLateFees := totalLateFees + emi * lateFeeRate;
      i := i + 1;
    }
    assert missedMonths > 0 ==> i == missedMonths;
    assert missedMonths <= 0 ==> i == 0;
  }

  /** The component's state: the form inputs and the last results it displays. */
  class DebtTrapDecoderState {
    var principal: real
    var monthlyInterestRate: real
    var tenureMonths: int
    var amortizationSchedule: seq<LoanAmortization>
    var effectiveApr: real
    var totalInterestPaid: real
    var totalRepaid: real
    var monthlyEmi: real

    /** The initial `useState` values. */
    constructor ()
      ensures principal == 50000.0 && monthlyInterestRate == 2.0 && tenureMonths == 12
      ensures amortizationSchedule == [] && effectiveApr == 0.0 && totalInterestPaid == 0.0
      ensures totalRepaid == 0.0 && monthlyEmi == 0.0
    {
      principal, monthlyInterestRate, tenureMonths := 50000.0, 2.0, 12;
      amortizationSchedule, effectiveApr, totalInterestPaid := [], 0.0, 0.0;
      totalRepaid, monthlyEmi := 0.0, 0.0;
    }

    /** The Calculate button: on invalid input nothing changes; otherwise all five results are replaced. */
    method OnCalculate()
      modifies this
      ensures principal == old(principal) && monthlyInterestRate == old(monthlyInterestRate)
      ensures tenureMonths == old(tenureMonths)
      ensures !ValidLoan(LoanDetails(principal, monthlyInterestRate, tenureMonths)) ==>
        && amortizationSchedule == old(amortizationSchedule) && effectiveApr == old(effectiveApr)
        && totalInterestPaid == old(totalInterestPaid) && totalRepaid == old(totalRepaid)
        && monthlyEmi == old(monthlyEmi)
      ensures ValidLoan(LoanDetails(principal, monthlyInterestRate, tenureMonths)) ==>
        var r := monthlyInterestRate / 100.0;
        && effectiveApr == EffectiveApr(monthlyInterestRate)
        && monthlyEmi == Emi(principal, r, tenureMonths)
        && amortizationSchedule == Schedule(principal, r, monthlyEmi, tenureMonths)
        && totalInterestPaid == SumInterest(amortizationSchedule)
        && totalRepaid == principal + totalInterestPaid
    {
      var result := CalculateLoan(LoanDetails(principal, monthlyInterestRate, tenureMonths));
      if result.Some? {
        var o := result.value;
        effectiveApr, monthlyEmi := o.effectiveApr, o.monthlyEmi;
        amortizationSchedule := o.schedule;
        totalInterestPaid, totalRepaid := o.totalInterestPaid, o.totalRepaid;
      }
    }

    /** `hypotheticalLateFees`: three missed instalments at 2% each, or 0 before any EMI exists. */
    function HypotheticalLateFees(): (fees: real)
      reads this
      ensures monthlyEmi > 0.0 ==> fees == 0.06 * monthlyEmi
      ensures monthlyEmi <= 0.0 ==> fees == 0.0
    {
      if monthlyEmi > 0.0 then 3.0 * (monthlyEmi * 0.02) else 0.0
    }

    /** The displayed late fees as the screen computes them: the late-fee loop with its defaults of 2% and 3 months. */
    method ComputeHypotheticalLateFees() returns (fees: real)
      ensures fees == HypotheticalLateFees()
    {
      if monthlyEmi > 0.0 {
        fees := CalculateLateFeeImpact(monthlyEmi, 0.02, 3);
      } else {
        fees := 0.0;
      }
    }
  }
}
