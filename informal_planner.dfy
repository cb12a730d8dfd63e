/**
 * The Informal Economy Financial Planner (`components/InformalPlanner.tsx`):
 * splits an irregular average monthly income into a fixed "salary" paid to
 * oneself and a surplus recommended for an income-smoothing fund.
 */
module InformalPlanner {

  predicate ValidInputs(averageMonthlyIncome: real, fixedSalaryPercentage: real)
  {
    averageMonthlyIncome > 0.0 && 0.0 < fixedSalaryPercentage <= 100.0
  }

  function FixedSalary(averageMonthlyIncome: real, fixedSalaryPercentage: real): real
  {
    averageMonthlyIncome * (fixedSalaryPercentage / 100.0)
  }

  /**
   * `calculateIncomeSmoothing`: rejected inputs keep the previous
   * recommendation; otherwise the salary and the surplus add up to the
   * income, and the surplus is at least 0 and below the income.
   */
  function CalculateIncomeSmoothing(averageMonthlyIncome: real, fixedSalaryPercentage: real, prev: real): (surplus: real)
    ensures !ValidInputs(averageMonthlyIncome, fixedSalaryPercentage) ==> surplus == prev
    ensures ValidInputs(averageMonthlyIncome, fixedSalaryPercentage) ==>
      && FixedSalary(averageMonthlyIncome, fixedSalaryPercentage) + surplus == averageMonthlyIncome
      && 0.0 <= surplus < averageMonthlyIncome
      && (fixedSalaryPercentage == 100.0 <==> surplus == 0.0)
  {
    if !ValidInputs(averageMonthlyIncome, fixedSalaryPercentage) then prev
    else
      var fixedSalary := FixedSalary(averageMonthlyIncome, fixedSalaryPercentage);
      SalaryWithinIncome(averageMonthlyIncome, fixedSalaryPercentage / 100.0);
      averageMonthlyIncome - fixedSalary
  }

  lemma SalaryWithinIncome(income: real, share: real)
    requires income > 0.0 && 0.0 < share <= 1.0
    ensures 0.0 < income * share <= income
    ensures income * share == income <==> share == 1.0
  {
    MulMonotoneReal(income, 1.0, share);
  }

  lemma MulMonotoneReal(c: real, a: real, b: real)
    requires c > 0.0 && a >= b
    ensures c * a >= c * b
    ensures c * a == c * b <==> a == b
  {
  }

  /** The recommendation panel is shown only for a positive surplus. */
  predicate ShowsRecommendation(incomeSmoothingFundRecommendation: real)
  {
    incomeSmoothingFundRecommendation > 0.0
  }

  /** Paying oneself the whole income leaves nothing to smooth with, so the panel stays hidden. */
  lemma FullSalaryHidesPanel(averageMonthlyIncome: real, prev: real)
    requires averageMonthlyIncome > 0.0
    ensures !ShowsRecommendation(CalculateIncomeSmoothing(averageMonthlyIncome, 100.0, prev))
  {
  }
}
