/**
 * The Hidden Cost Visualizer (`components/HiddenCostVisualizer.tsx`): the
 * lifetime cost of owning an item, itemised for a pie chart. The reported
 * total is the purchase price plus electricity, maintenance and loan
 * interest; the chart also shows a depreciation slice equal to the price,
 * which the total does not include.
 */
module HiddenCostVisualizer {
  import opened Wrappers

  datatype CostInputs = CostInputs(
    itemCost: real,
    expectedLifespanYears: int,
    electricityConsumptionKwH: real,
    usageHoursPerDay: real,
    electricityRate: real,
    maintenanceCostPerYear: real,
    loanEmi: real)

  datatype ChartItem = ChartItem(name: string, value: real)

  /** The record written by `setTotalCost`. */
  datatype TotalCost = TotalCost(
    directCost: real,
    depreciation: real,
    electricityCost: real,
    maintenance: real,
    loanInterest: real,
    total: real,
    chartData: seq<ChartItem>)

  predicate ValidInputs(i: CostInputs)
  {
    i.itemCost > 0.0 && i.expectedLifespanYears > 0
  }

  predicate NonNegativeInputs(i: CostInputs)
  {
    && i.itemCost >= 0.0 && i.expectedLifespanYears >= 0
    && i.electricityConsumptionKwH >= 0.0 && i.usageHoursPerDay >= 0.0 && i.electricityRate >= 0.0
    && i.maintenanceCostPerYear >= 0.0 && i.loanEmi >= 0.0
  }

  function ElectricityCost(i: CostInputs): real
  {
    i.electricityConsumptionKwH * i.usageHoursPerDay * 365.0 * (i.expectedLifespanYears as real) * i.electricityRate
  }

  function MaintenanceCost(i: CostInputs): real
  {
    i.maintenanceCostPerYear * (i.expectedLifespanYears as real)
  }

  function LoanInterest(i: CostInputs): real
  {
    i.loanEmi * 12.0 * (i.expectedLifespanYears as real)
  }

  /** `chartData.filter(d => d.value > 0)`. */
  function FilterPositive(items: seq<ChartItem>): seq<ChartItem>
  {
    if items == [] then []
    else if items[0].value > 0.0 then [items[0]] + FilterPositive(items[1..])
    else FilterPositive(items[1..])
  }

  function SumValues(items: seq<ChartItem>): real
  {
    if items == [] then 0.0 else items[0].value + SumValues(items[1..])
  }

  /** The filter keeps exactly the entries with a positive value. */
  lemma {:induction false} FilterPositiveKeepsPositive(items: seq<ChartItem>)
    ensures forall x :: x in FilterPositive(items) <==> x in items && x.value > 0.0
    ensures |FilterPositive(items)| <= |items|
  {
    if items != [] {
      FilterPositiveKeepsPositive(items[1..]);
      assert forall x :: x in items <==> x == items[0] || x in items[1..];
    }
  }

  /** Dropping entries that are not positive loses nothing when none is negative. */
  lemma {:induction false} FilterPositiveKeepsSum(items: seq<ChartItem>)
    requires forall k :: 0 <= k < |items| ==> items[k].value >= 0.0
    ensures SumValues(FilterPositive(items)) == SumValues(items)
  {
    if items != [] {
      FilterPositiveKeepsSum(items[1..]);
    }
  }

  /** An order-preserving filter: on a list whose values are all positive it changes nothing. */
  lemma {:induction false} FilterPositiveIdentity(items: seq<ChartItem>)
    requires forall k :: 0 <= k < |items| ==> items[k].value > 0.0
    ensures FilterPositive(items) == items
  {
    if items != [] {
      FilterPositiveIdentity(items[1..]);
    }
  }

  /** The chart list before filtering: four fixed slices, then the loan slice only when an EMI is given. */
  function UnfilteredChart(i: CostInputs): seq<ChartItem>
  {
    [ ChartItem("Direct Purchase Cost", i.itemCost),
      ChartItem("Depreciation (over lifespan)", i.itemCost),
      ChartItem("Electricity Cost (over lifespan)", ElectricityCost(i)),
      ChartItem("Maintenance Cost (over lifespan)", MaintenanceCost(i)) ]
    + (if i.loanEmi > 0.0 then [ChartItem("Loan Interest (over lifespan)", LoanInterest(i))] else [])
  }

  function Total(i: CostInputs): real
  {
    i.itemCost + ElectricityCost(i) + MaintenanceCost(i) + LoanInterest(i)
  }

  /**
   * With non-negative inputs the chart shows the total plus the
   * depreciation slice, which equals the purchase price a second time.
   */
  lemma ChartSumIsTotalPlusDepreciation(i: CostInputs)
    requires NonNegativeInputs(i)
    ensures SumValues(FilterPositive(UnfilteredChart(i))) == Total(i) + i.itemCost
  {
    var chart := UnfilteredChart(i);
    ChartValuesNonNegative(i);
    FilterPositiveKeepsSum(chart);
    SumOfChart(chart, i.itemCost, ElectricityCost(i), MaintenanceCost(i),
      if i.loanEmi > 0.0 then LoanInterest(i) else 0.0, i.loanEmi > 0.0);
  }

  /**
   * `calculateHiddenCosts`: a non-positive price or lifespan leaves the
   * previous result in place; otherwise the new record has the components,
   * a total without depreciation, and the positive chart entries in the
   * order Direct, Depreciation, Electricity, Maintenance, Loan (the last
   * only when an EMI is given).
   */
  method CalculateHiddenCosts(i: CostInputs, prev: Option<TotalCost>) returns (result: Option<TotalCost>)
    ensures !ValidInputs(i) ==> result == prev
    ensures ValidInputs(i) ==> result.Some?
    ensures ValidInputs(i) ==>
      var c := result.value;
      && c.directCost == i.itemCost
      && c.depreciation == i.itemCost
      && c.electricityCost == ElectricityCost(i)
      && c.maintenance == MaintenanceCost(i)
      && c.loanInterest == LoanInterest(i)
      && c.total == c.directCost + c.electricityCost + c.maintenance + c.loanInterest
      && c.chartData == FilterPositive(UnfilteredChart(i))
      && (forall x :: x in c.chartData ==> x.value > 0.0)
      && (NonNegativeInputs(i) ==> SumValues(c.chartData) == c.total + i.itemCost)
  {
    if !ValidInputs(i) {
      return prev;
    }
    var totalElectricityCost := ElectricityCost(i);
    var totalMaintenanceCost := MaintenanceCost(i);
    var totalDepreciation := i.itemCost;
    var totalLoanInterest := LoanInterest(i);
    var overallTotalCost := i.itemCost + totalElectricityCost + totalMaintenanceCost + totalLoanInterest;

    var chartData := [
      ChartItem("Direct Purchase Cost", i.itemCost),
      ChartItem("Depreciation (over lifespan)", totalDepreciation),
      ChartItem("Electricity Cost (over lifespan)", totalElectricityCost),
      ChartItem("Maintenance Cost (over lifespan)", totalMaintenanceCost)
    ];
    if i.loanEmi > 0.0 {
      chartData := chartData + [ChartItem("Loan Interest (over lifespan)", totalLoanInterest)];
    }
    assert chartData == UnfilteredChart(i);
    FilterPositiveKeepsPositive(chartData);
    if NonNegativeInputs(i) {
      ChartSumIsTotalPlusDepreciation(i);
    }
    result := Some(TotalCost(
      i.itemCost, totalDepreciation, totalElectricityCost, totalMaintenanceCost,
      totalLoanInterest, overallTotalCost, FilterPositive(chartData)));
  }

  lemma ChartValuesNonNegative(i: CostInputs)
    requires NonNegativeInputs(i)
    ensures ElectricityCost(i) >= 0.0 && MaintenanceCost(i) >= 0.0 && LoanInterest(i) >= 0.0
  {
    var years := i.expectedLifespanYears as real;
    var a := i.electricityConsumptionKwH * i.usageHoursPerDay;
    assert a >= 0.0;
    assert a * 365.0 >= 0.0;
    assert a * 365.0 * years >= 0.0;
  }

  lemma SumOfChart(chart: seq<ChartItem>, item: real, elec: real, maint: real, loan: real, withLoan: bool)
    requires |chart| == if withLoan then 5 else 4
    requires chart[0].value == item && chart[1].value == item
    requires chart[2].value == elec && chart[3].value == maint
    requires withLoan ==> chart[4].value == loan
    requires !withLoan ==> loan == 0.0
    ensures SumValues(chart) == item + elec + maint + loan + item
  {
    assert SumValues(chart[4..]) == loan by {
      if withLoan {
        assert chart[4..][1..] == [];
      }
    }
    assert SumValues(chart[3..]) == maint + SumValues(chart[4..]) by { assert chart[3..][1..] == chart[4..]; }
    assert SumValues(chart[2..]) == elec + SumValues(chart[3..]) by { assert chart[2..][1..] == chart[3..]; }
    assert SumValues(chart[1..]) == item + SumValues(chart[2..]) by { assert chart[1..][1..] == chart[2..]; }
  }
}
