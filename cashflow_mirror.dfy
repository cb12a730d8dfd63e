/**
 * The Cashflow Mirror (`components/CashflowMirror.tsx`): the cashflow a
 * business would have if every sale were paid at once (ideal), the one it
 * has once credit given and received is accounted for (real), and the
 * difference (money leaks). No input is validated.
 */
module CashflowMirror {
  import opened Wrappers

  datatype CashflowInputs = CashflowInputs(
    revenue: real,
    fixedCosts: real,
    variableCosts: real,
    creditGiven: real,
    creditReceived: real)

  datatype CashflowResult = CashflowResult(realCashflow: real, idealCashflow: real, moneyLeaks: real)

  datatype ChartItem = ChartItem(name: string, value: real)

  /**
   * `calculateCashflow`: never rejects. The real cashflow is the ideal one
   * minus the credit given plus the credit received, so the leak is exactly
   * `creditGiven - creditReceived`, whatever the signs of the inputs.
   */
  function CalculateCashflow(i: CashflowInputs): (r: CashflowResult)
    ensures r.idealCashflow == i.revenue - (i.fixedCosts + i.variableCosts)
    ensures r.realCashflow == r.idealCashflow - i.creditGiven + i.creditReceived
    ensures r.moneyLeaks == i.creditGiven - i.creditReceived
    ensures r.moneyLeaks == r.idealCashflow - r.realCashflow
  {
    var idealCashflow := i.revenue - (i.fixedCosts + i.variableCosts);
    var realCashflow := i.revenue - i.fixedCosts - i.variableCosts - i.creditGiven + i.creditReceived;
    CashflowResult(realCashflow, idealCashflow, idealCashflow - realCashflow)
  }

  /**
   * The chart `data`: empty until a result exists, then exactly the ideal
   * cashflow, the real cashflow and the leaks in that order, the leak bar
   * never drawn below zero.
   */
  function ChartData(result: Option<CashflowResult>): (data: seq<ChartItem>)
    ensures result.None? <==> data == []
    ensures result.Some? ==>
      && |data| == 3
      && data[0] == ChartItem("Ideal Cashflow", result.value.idealCashflow)
      && data[1] == ChartItem("Real Cashflow", result.value.realCashflow)
      && data[2].name == "Money Leaks"
      && data[2].value >= 0.0
      && data[2].value >= result.value.moneyLeaks
      && (result.value.moneyLeaks > 0.0 ==> data[2].value == result.value.moneyLeaks)
      && (result.value.moneyLeaks <= 0.0 ==> data[2].value == 0.0)
  {
    match result
    case None => []
    case Some(r) =>
      [ ChartItem("Ideal Cashflow", r.idealCashflow),
        ChartItem("Real Cashflow", r.realCashflow),
        ChartItem("Money Leaks", if r.moneyLeaks > 0.0 then r.moneyLeaks else 0.0) ]
  }

  /** The leak bar after a calculation is the net credit given, or 0 when more credit was received. */
  lemma LeakBarIsNetCreditGiven(i: CashflowInputs)
    ensures var leak := ChartData(Some(CalculateCashflow(i)))[2].value;
      leak == if i.creditGiven > i.creditReceived then i.creditGiven - i.creditReceived else 0.0
  {
  }
}
