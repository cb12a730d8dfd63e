/**
 * The Loan Risk Lab (`components/LoanRiskLab.tsx`): the instalment of a loan
 * quoted at an annual rate, its totals, and an expected-value loading for
 * late fees that gives a risk-adjusted cost.
 */
module LoanRiskLab {
  import opened Wrappers
  import opened FinMath
  import DebtTrapDecoder

  /** The form; the rate and both percentages are percentages (12 means 12%). */
  datatype LoanInputs = LoanInputs(
    loanAmount: real,
    annualInterestRate: real,
    tenureMonths: int,
    defaultProbability: real,
    lateFeePercentage: real)

  /** The record written by `setLoanResults`, all five fields at once. */
  datatype LoanResults = LoanResults(
    monthlyEmi: real,
    totalInterest: real,
    totalRepayment: real,
    riskAdjustedCost: real,
    potentialLateFees: real)

  predicate ValidInputs(i: LoanInputs)
  {
    i.loanAmount > 0.0 && i.annualInterestRate > 0.0 && i.tenureMonths > 0
  }

  function MonthlyRate(annualInterestRate: real): real
  {
    annualInterestRate / 100.0 / 12.0
  }

  /**
   * `calculateLoanDetails`: a rejected form leaves the previous results in
   * place; otherwise the new record has the annuity instalment at a twelfth
   * of the annual rate, totals that cost strictly more than the loan, and a
   * risk loading that vanishes when either percentage is 0 and is never
   * negative when both percentages are non-negative.
   */
  function CalculateLoanDetails(i: LoanInputs, prev: Option<LoanResults>): (r: Option<LoanResults>)
    ensures !ValidInputs(i) ==> r == prev
    ensures ValidInputs(i) ==> r.Some?
    ensures ValidInputs(i) ==>
      var o := r.value;
      && o.monthlyEmi == Emi(i.loanAmount, MonthlyRate(i.annualInterestRate), i.tenureMonths)
      && o.totalRepayment == o.monthlyEmi * (i.tenureMonths as real)
      && o.totalInterest == o.totalRepayment - i.loanAmount
      && o.totalInterest > 0.0
      && o.potentialLateFees
           == (i.defaultProbability / 100.0) * (i.tenureMonths as real) * (o.monthlyEmi * (i.lateFeePercentage / 100.0))
      && o.riskAdjustedCost == o.totalRepayment + o.potentialLateFees
      && (i.defaultProbability == 0.0 || i.lateFeePercentage == 0.0 ==> o.potentialLateFees == 0.0)
      && (i.defaultProbability >= 0.0 && i.lateFeePercentage >= 0.0 ==> o.riskAdjustedCost >= o.totalRepayment)
  {
    if !ValidInputs(i) then prev
    else
      var monthlyInterestRate := MonthlyRate(i.annualInterestRate);
      var monthlyEmi := Emi(i.loanAmount, monthlyInterestRate, i.tenureMonths);
      var totalRepayment := monthlyEmi * (i.tenureMonths as real);
      var totalInterest := totalRepayment - i.loanAmount;
      var avgMissedPayments := (i.defaultProbability / 100.0) * (i.tenureMonths as real);
      var lateFeePerMissedPayment := monthlyEmi * (i.lateFeePercentage / 100.0);
      var potentialLateFees := avgMissedPayments * lateFeePerMissedPayment;
      EmiRepaysMoreThanPrincipal(i.loanAmount, monthlyInterestRate, i.tenureMonths);
      NonNegativeProduct(avgMissedPayments, lateFeePerMissedPayment,
        i.defaultProbability >= 0.0 && i.lateFeePercentage >= 0.0);
      Some(LoanResults(monthlyEmi, totalInterest, totalRepayment, totalRepayment + potentialLateFees, potentialLateFees))
  }

  lemma NonNegativeProduct(a: real, b: real, both: bool)
    requires both ==> a >= 0.0 && b >= 0.0
    ensures both ==> a * b >= 0.0
  {
  }

  /**
   * The two loan calculators agree: a Loan Risk Lab loan at annual rate `R`
   * totals exactly what the Debt Trap Decoder's schedule at monthly rate
   * `R / 12` reports as repaid.
   */
  lemma AgreesWithAmortizationSchedule(i: LoanInputs)
    requires ValidInputs(i)
    ensures var r := MonthlyRate(i.annualInterestRate);
      var emi := Emi(i.loanAmount, r, i.tenureMonths);
      CalculateLoanDetails(i, None).value.totalRepayment
        == i.loanAmount + DebtTrapDecoder.SumInterest(DebtTrapDecoder.Schedule(i.loanAmount, r, emi, i.tenureMonths))
  {
    var r := MonthlyRate(i.annualInterestRate);
    var emi := Emi(i.loanAmount, r, i.tenureMonths);
    DebtTrapDecoder.SumInterestOfSchedule(i.loanAmount, r, emi, i.tenureMonths);
    DebtTrapDecoder.AnnuityClearsLoan(i.loanAmount, r, i.tenureMonths);
  }
}
