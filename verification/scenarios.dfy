/** The scenario engine of the financial calculator: from eleven numeric
    inputs it projects the monthly revenue, costs and profit of operating
    five, six or seven days a week.  Amounts are in ARS and modelled as exact
    reals; percentages are plain numbers (19.7 means 19.7 %). */
module Scenarios {

  /** The eleven user-editable parameters. */
  datatype Inputs = Inputs(
    baseRevenue: real,          // current monthly revenue, before the price increase
    additionalDays: real,       // 1 charges the new staff to six days, 2 to seven days
    newDayRevenue: real,        // revenue of one extra operating day, before the increase
    newEmployees: real,
    employeeCost: real,         // monthly cost of one new employee
    priceIncrease: real,        // percent
    baseCogsPercent: real,      // cost of goods sold, percent of revenue at current prices
    taxRate: real,              // percent
    indirectCostPercent: real,  // percent
    electricityCost: real,      // monthly, at five-day operation
    waterCost: real             // monthly, at five-day operation
  )

  /** One projected month. */
  datatype ScenarioResult = ScenarioResult(revenue: real, costs: real, profit: real)

  /** The three projections the engine always produces together. */
  datatype Results = Results(fiveDay: ScenarioResult, sixDay: ScenarioResult, sevenDay: ScenarioResult)

  /** The values the calculator starts with. */
  function Defaults(): Inputs {
    Inputs(53400000.0, 1.0, 1800000.0, 2.0, 1500000.0, 5.0, 21.2, 19.7, 10.0, 1500000.0, 222000.0)
  }

  /** The results shown before the first calculation. */
  function ZeroResults(): (r: Results)
    ensures Balanced(r)
    ensures r.fiveDay.revenue == r.sixDay.revenue == r.sevenDay.revenue == 0.0
  {
    var z := ScenarioResult(0.0, 0.0, 0.0);
    Results(z, z, z)
  }

  /** Every profit is that scenario's revenue minus its costs. */
  predicate Balanced(r: Results) {
    && r.fiveDay.profit == r.fiveDay.revenue - r.fiveDay.costs
    && r.sixDay.profit == r.sixDay.revenue - r.sixDay.costs
    && r.sevenDay.profit == r.sevenDay.revenue - r.sevenDay.costs
  }

  /** The calculation is defined unless the price factor is zero. */
  predicate WellDefined(i: Inputs) {
    i.priceIncrease != -100.0
  }

  /** The multiplier a price increase applies to revenue. */
  function PriceFactor(priceIncrease: real): real {
    1.0 + priceIncrease / 100.0
  }

  /** The COGS rate restated against post-increase prices. */
  function AdjustedCogsPercent(i: Inputs): real
    requires WellDefined(i)
  {
    i.baseCogsPercent / PriceFactor(i.priceIncrease)
  }

  /** The cost of goods sold charged on a revenue figure, at the adjusted rate. */
  function CogsCharge(i: Inputs, revenue: real): real
    requires WellDefined(i)
  {
    revenue * (AdjustedCogsPercent(i) / 100.0)
  }

  /** COGS, tax and indirect costs charged on a revenue figure, each rate applied separately. */
  function RateCosts(i: Inputs, revenue: real): real
    requires WellDefined(i)
  {
    CogsCharge(i, revenue) +
    revenue * (i.taxRate / 100.0) +
    revenue * (i.indirectCostPercent / 100.0)
  }

  /** The monthly cost of the new staff. */
  function StaffCost(i: Inputs): real {
    i.newEmployees * i.employeeCost
  }

  /** A scenario record whose profit is filled in from its revenue and costs. */
  function WithProfit(revenue: real, costs: real): ScenarioResult {
    ScenarioResult(revenue, costs, revenue - costs)
  }

  /** Five days: the rates are charged on the revenue BEFORE the price increase. */
  function FiveDay(i: Inputs): ScenarioResult
    requires WellDefined(i)
  {
    WithProfit(
      i.baseRevenue * PriceFactor(i.priceIncrease),
      RateCosts(i, i.baseRevenue) + i.electricityCost + i.waterCost)
  }

  /** Revenue of `extraDays` additional operating days a month, at the new prices. */
  function AddedRevenue(i: Inputs, extraDays: real): real {
    i.newDayRevenue * extraDays * PriceFactor(i.priceIncrease)
  }

  /** Six days: four extra operating days a month; the staff is charged here when additionalDays is 1. */
  function SixDay(i: Inputs): ScenarioResult
    requires WellDefined(i)
  {
    var revenue := FiveDay(i).revenue + AddedRevenue(i, 4.0);
    WithProfit(
      revenue,
      RateCosts(i, revenue) + (i.electricityCost + i.waterCost) * 1.2 +
      (if i.additionalDays == 1.0 then StaffCost(i) else 0.0))
  }

  /** Seven days: eight extra operating days a month; the staff is charged here when additionalDays is 2. */
  function SevenDay(i: Inputs): ScenarioResult
    requires WellDefined(i)
  {
    var revenue := FiveDay(i).revenue + AddedRevenue(i, 8.0);
    WithProfit(
      revenue,
      RateCosts(i, revenue) + (i.electricityCost + i.waterCost) * 1.4 +
      (if i.additionalDays == 2.0 then StaffCost(i) else 0.0))
  }

  /** The whole calculation: the three scenarios, computed together. */
  function CalculateScenarios(i: Inputs): (r: Results)
    requires WellDefined(i)
    ensures Balanced(r)
    ensures r.sixDay.revenue == r.fiveDay.revenue + i.newDayRevenue * 4.0 * PriceFactor(i.priceIncrease)
    ensures r.sevenDay.revenue == r.fiveDay.revenue + i.newDayRevenue * 8.0 * PriceFactor(i.priceIncrease)
  {
    Results(FiveDay(i), SixDay(i), SevenDay(i))
  }
}
