/**
 * The Real-India Income & Inflation Tracker
 * (`components/IncomeInflationTracker.tsx`): the monthly cost of a basic
 * "survival basket" in the selected city and its share of income, the
 * present-day value of a future savings goal under inflation, and the
 * high-fragility warning.
 */
module IncomeInflationTracker {
  import opened Wrappers
  import opened Types
  import opened FinMath

  datatype SurvivalBasket = SurvivalBasket(cost: real, percentage: real)

  /**
   * The survival-basket cost is rent, food, transport and miscellaneous
   * together, or 0 without city data; its share of income is a percentage,
   * left at 0 when there is no city data or no positive income.
   */
  function SurvivalBasketOf(cityData: Option<CityCostData>, currentMonthlyIncome: real): (b: SurvivalBasket)
    ensures cityData.None? ==> b == SurvivalBasket(0.0, 0.0)
    ensures cityData.Some? ==>
      b.cost == cityData.value.averageRent + cityData.value.foodCost
                + cityData.value.transportCost + cityData.value.miscellaneous
    ensures cityData.Some? && currentMonthlyIncome > 0.0 ==> b.percentage * currentMonthlyIncome == b.cost * 100.0
    ensures currentMonthlyIncome <= 0.0 ==> b.percentage == 0.0
  {
    match cityData
    case None => SurvivalBasket(0.0, 0.0)
    case Some(c) =>
      var cost := c.averageRent + c.foodCost + c.transportCost + c.miscellaneous;
      SurvivalBasket(cost, if currentMonthlyIncome > 0.0 then (cost / currentMonthlyIncome) * 100.0 else 0.0)
  }

  /** The growth factor `1 + inflation / 100`; division by it needs it to be non-zero. */
  function InflationFactor(inflationRate: real): real
  {
    1.0 + inflationRate / 100.0
  }

  /**
   * `futureRealValue`: the target discounted by `(1 + inflation / 100)^years`,
   * so that growing it back by that factor gives the target again.
   */
  function FutureRealValue(targetSavingsGoal: real, inflationRate: real, futureYears: int): (v: real)
    requires InflationFactor(inflationRate) != 0.0
    ensures v * PowInt(InflationFactor(inflationRate), futureYears) == targetSavingsGoal
  {
    var q := InflationFactor(inflationRate);
    PowIntNonZero(q, futureYears);
    targetSavingsGoal / PowInt(q, futureYears)
  }

  lemma PowIntNonZero(q: real, n: int)
    requires q != 0.0
    ensures PowInt(q, n) != 0.0
  {
    PowNonZero(q, if n >= 0 then n else -n);
    if n < 0 {
      assert PowInt(q, n) == 1.0 / Pow(q, -n);
    }
  }

  /** Without inflation the goal keeps its value. */
  lemma {:induction false} NoInflationKeepsValue(targetSavingsGoal: real, futureYears: int)
    ensures FutureRealValue(targetSavingsGoal, 0.0, futureYears) == targetSavingsGoal
  {
    PowIntOfOne(futureYears);
  }

  lemma {:induction false} PowIntOfOne(n: int)
    ensures PowInt(1.0, n) == 1.0
  {
    OnePow(if n >= 0 then n else -n);
  }

  lemma {:induction false} OnePow(n: nat)
    ensures Pow(1.0, n) == 1.0
  {
    if n > 0 {
      OnePow(n - 1);
    }
  }

  /** With positive inflation a positive goal is worth strictly less the further away it is. */
  lemma FutureRealValueDecreasing(targetSavingsGoal: real, inflationRate: real, y1: int, y2: int)
    requires inflationRate > 0.0 && targetSavingsGoal > 0.0 && y1 < y2
    ensures FutureRealValue(targetSavingsGoal, inflationRate, y2) < FutureRealValue(targetSavingsGoal, inflationRate, y1)
  {
    var q := InflationFactor(inflationRate);
    PowIntStrictlyIncreasing(q, y1, y2);
    PowIntPositive(q, y1);
    DivideByLarger(targetSavingsGoal, PowInt(q, y1), PowInt(q, y2));
  }

  lemma DivideByLarger(t: real, a: real, b: real)
    requires t > 0.0 && 0.0 < a < b
    ensures t / b < t / a
  {
    var x, y := t / a, t / b;
    assert x * a == t && y * b == t;
    assert x > 0.0;
    MulStrictMonotone(x, b, a);
    assert y * b < x * b;
    CancelPositive(b, y, x);
  }

  lemma CancelPositive(b: real, y: real, x: real)
    requires b > 0.0 && y * b < x * b
    ensures y < x
  {
    if y >= x {
      MulMonotone(b, y, x);
    }
  }

  /**
   * The "High financial fragility!" warning is shown exactly when there is
   * a positive income and the basket takes more than 70% of it.
   */
  function ShowsFragilityWarning(cityData: Option<CityCostData>, currentMonthlyIncome: real): (shown: bool)
    ensures shown <==> currentMonthlyIncome > 0.0 && SurvivalBasketOf(cityData, currentMonthlyIncome).percentage > 70.0
    ensures shown ==> cityData.Some? && SurvivalBasketOf(cityData, currentMonthlyIncome).cost * 100.0 > 70.0 * currentMonthlyIncome
  {
    var b := SurvivalBasketOf(cityData, currentMonthlyIncome);
    cityData.Some? && currentMonthlyIncome > 0.0
    && (MulStrictMonotoneWhen(currentMonthlyIncome, b.percentage, 70.0); b.percentage > 70.0)
  }

  lemma MulStrictMonotoneWhen(c: real, a: real, b: real)
    requires c > 0.0
    ensures a > b ==> a * c > b * c
  {
  }
}
