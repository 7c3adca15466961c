/** The calculator's state: the eleven inputs the user edits and the results
    derived from them, recomputed in full after every edit. */
module Calculator {
  import opened Scenarios
  import opened Chart
  import ScenarioProperties

  class FinancialCalculator {
    var baseRevenue: real
    var additionalDays: real
    var newDayRevenue: real
    var newEmployees: real
    var employeeCost: real
    var priceIncrease: real
    var baseCogsPercent: real
    var taxRate: real
    var indirectCostPercent: real
    var electricityCost: real
    var waterCost: real
    var results: Results

    /** The current inputs, as the engine takes them. */
    function CurrentInputs(): Inputs
      reads this
    {
      Inputs(baseRevenue, additionalDays, newDayRevenue, newEmployees, employeeCost, priceIncrease,
             baseCogsPercent, taxRate, indirectCostPercent, electricityCost, waterCost)
    }

    /** The engine can run on the current inputs. */
    predicate Valid()
      reads this
    {
      WellDefined(CurrentInputs())
    }

    /** The results are those of the current inputs. */
    predicate UpToDate()
      reads this
      requires Valid()
    {
      results == CalculateScenarios(CurrentInputs())
    }

    /** The chart rows for the results currently held: once the results are
        up to date, the chart of the current inputs' projections. */
    function CurrentChart(): (rows: seq<ChartRow>)
      reads this
      ensures |rows| == 3
      ensures Valid() && UpToDate() ==> rows == ChartData(CalculateScenarios(CurrentInputs()))
    {
      ChartData(results)
    }

    /** Starts with the default inputs and all-zero results. */
    constructor ()
      ensures Valid()
      ensures CurrentInputs() == Defaults()
      ensures results == ZeroResults()
    {
      baseRevenue := 53400000.0;
      additionalDays := 1.0;
      newDayRevenue := 1800000.0;
      newEmployees := 2.0;
      employeeCost := 1500000.0;
      priceIncrease := 5.0;
      baseCogsPercent := 21.2;
      taxRate := 19.7;
      indirectCostPercent := 10.0;
      electricityCost := 1500000.0;
      waterCost := 222000.0;
      results := ZeroResults();
    }

    /** Recomputes all three scenarios from the current inputs and replaces the results at once. */
    method Recalculate()
      requires Valid()
      modifies this`results
      ensures Valid() && UpToDate()
      ensures CurrentChart() == ChartData(CalculateScenarios(CurrentInputs()))
      ensures Balanced(results)
    {
      results := CalculateScenarios(CurrentInputs());
    }

    method SetBaseRevenue(v: real)
      requires Valid()
      modifies this
      ensures CurrentInputs() == old(CurrentInputs()).(baseRevenue := v)
      ensures Valid() && UpToDate()
      ensures CurrentChart() == ChartData(CalculateScenarios(CurrentInputs()))
    {
      baseRevenue := v;
      Recalculate();
    }

    method SetAdditionalDays(v: real)
      requires Valid()
      modifies this
      ensures CurrentInputs() == old(CurrentInputs()).(additionalDays := v)
      ensures Valid() && UpToDate()
      ensures CurrentChart() == ChartData(CalculateScenarios(CurrentInputs()))
      ensures old(UpToDate()) ==> results.fiveDay == old(results.fiveDay)
    {
      ghost var before := CurrentInputs();
      additionalDays := v;
      Recalculate();
      ScenarioProperties.FiveDayIgnoresExtraDays(before, CurrentInputs());
    }

    method SetNewDayRevenue(v: real)
      requires Valid()
      modifies this
      ensures CurrentInputs() == old(CurrentInputs()).(newDayRevenue := v)
      ensures Valid() && UpToDate()
      ensures CurrentChart() == ChartData(CalculateScenarios(CurrentInputs()))
      ensures old(UpToDate()) ==> results.fiveDay == old(results.fiveDay)
    {
      ghost var before := CurrentInputs();
      newDayRevenue := v;
      Recalculate();
      ScenarioProperties.FiveDayIgnoresExtraDays(before, CurrentInputs());
    }

    method SetNewEmployees(v: real)
      requires Valid()
      modifies this
      ensures CurrentInputs() == old(CurrentInputs()).(newEmployees := v)
      ensures Valid() && UpToDate()
      ensures CurrentChart() == ChartData(CalculateScenarios(CurrentInputs()))
      ensures old(UpToDate()) ==> results.fiveDay == old(results.fiveDay)
    {
      ghost var before := CurrentInputs();
      newEmployees := v;
      Recalculate();
      ScenarioProperties.FiveDayIgnoresExtraDays(before, CurrentInputs());
    }

    method SetEmployeeCost(v: real)
      requires Valid()
      modifies this
      ensures CurrentInputs() == old(CurrentInputs()).(employeeCost := v)
      ensures Valid() && UpToDate()
      ensures CurrentChart() == ChartData(CalculateScenarios(CurrentInputs()))
      ensures old(UpToDate()) ==> results.fiveDay == old(results.fiveDay)
    {
      ghost var before := CurrentInputs();
      employeeCost := v;
      Recalculate();
      ScenarioProperties.FiveDayIgnoresExtraDays(before, CurrentInputs());
    }

    /** The price increase may be anything but -100 %, where the COGS adjustment divides by zero. */
    method SetPriceIncrease(v: real)
      requires Valid()
      requires v != -100.0
      modifies this
      ensures CurrentInputs() == old(CurrentInputs()).(priceIncrease := v)
      ensures Valid() && UpToDate()
      ensures CurrentChart() == ChartData(CalculateScenarios(CurrentInputs()))
    {
      priceIncrease := v;
      Recalculate();
    }

    method SetBaseCogsPercent(v: real)
      requires Valid()
      modifies this
      ensures CurrentInputs() == old(CurrentInputs()).(baseCogsPercent := v)
      ensures Valid() && UpToDate()
      ensures CurrentChart() == ChartData(CalculateScenarios(CurrentInputs()))
    {
      baseCogsPercent := v;
      Recalculate();
    }

    method SetTaxRate(v: real)
      requires Valid()
      modifies this
      ensures CurrentInputs() == old(CurrentInputs()).(taxRate := v)
      ensures Valid() && UpToDate()
      ensures CurrentChart() == ChartData(CalculateScenarios(CurrentInputs()))
    {
      taxRate := v;
      Recalculate();
    }

    method SetIndirectCostPercent(v: real)
      requires Valid()
      modifies this
      ensures CurrentInputs() == old(CurrentInputs()).(indirectCostPercent := v)
      ensures Valid() && UpToDate()
      ensures CurrentChart() == ChartData(CalculateScenarios(CurrentInputs()))
    {
      indirectCostPercent := v;
      Recalculate();
    }

    method SetElectricityCost(v: real)
      requires Valid()
      modifies this
      ensures CurrentInputs() == old(CurrentInputs()).(electricityCost := v)
      ensures Valid() && UpToDate()
      ensures CurrentChart() == ChartData(CalculateScenarios(CurrentInputs()))
    {
      electricityCost := v;
      Recalculate();
    }

    method SetWaterCost(v: real)
      requires Valid()
      modifies this
      ensures CurrentInputs() == old(CurrentInputs()).(waterCost := v)
      ensures Valid() && UpToDate()
      ensures CurrentChart() == ChartData(CalculateScenarios(CurrentInputs()))
    {
      waterCost := v;
      Recalculate();
    }
  }
}
