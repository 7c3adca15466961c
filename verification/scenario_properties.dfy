/** What the scenario engine guarantees, stated over all inputs. */
module ScenarioProperties {
  import opened Scenarios

  /** The staff cost is charged to six days exactly when additionalDays is 1, to
      seven days exactly when it is 2, never to five days, and never to both:
      removing the staff changes a scenario's costs only where it was charged. */
  lemma StaffChargedWhereSelected(i: Inputs)
    requires WellDefined(i)
    requires StaffCost(i) != 0.0
    ensures var r, r0 := CalculateScenarios(i), CalculateScenarios(i.(newEmployees := 0.0));
      && r.fiveDay == r0.fiveDay
      && (r.sixDay.costs != r0.sixDay.costs <==> i.additionalDays == 1.0)
      && (r.sevenDay.costs != r0.sevenDay.costs <==> i.additionalDays == 2.0)
      && !(r.sixDay.costs != r0.sixDay.costs && r.sevenDay.costs != r0.sevenDay.costs)
  {
  }

  /** Switching additionalDays from 1 to 2 moves the staff cost from the
      six-day to the seven-day scenario and changes nothing else. */
  lemma MoveStaffCharge(i: Inputs)
    requires WellDefined(i)
    ensures var one, two := CalculateScenarios(i.(additionalDays := 1.0)), CalculateScenarios(i.(additionalDays := 2.0));
      && two.fiveDay == one.fiveDay
      && two.sixDay.revenue == one.sixDay.revenue
      && two.sixDay.costs == one.sixDay.costs - StaffCost(i)
      && two.sevenDay.revenue == one.sevenDay.revenue
      && two.sevenDay.costs == one.sevenDay.costs + StaffCost(i)
  {
  }

  /** Two inputs that differ at most in the extra-day parameters. */
  predicate DifferOnlyInExtraDays(i: Inputs, j: Inputs) {
    j == i.(additionalDays := j.additionalDays, newDayRevenue := j.newDayRevenue,
            newEmployees := j.newEmployees, employeeCost := j.employeeCost)
  }

  /** The five-day projection does not depend on the extra-day parameters. */
  lemma FiveDayIgnoresExtraDays(i: Inputs, j: Inputs)
    requires WellDefined(i) && DifferOnlyInExtraDays(i, j)
    ensures WellDefined(j)
    ensures CalculateScenarios(i).fiveDay == CalculateScenarios(j).fiveDay
  {
    SameRateCosts(i, j, i.baseRevenue);
  }

  /** The utilities add (electricity + water) times 1, 1.2 and 1.4 to the
      five-, six- and seven-day costs, and nothing to any revenue. */
  lemma UtilityMultipliers(i: Inputs)
    requires WellDefined(i)
    ensures var r, r0 := CalculateScenarios(i), CalculateScenarios(i.(electricityCost := 0.0, waterCost := 0.0));
      var utilities := i.electricityCost + i.waterCost;
      && r.fiveDay.revenue == r0.fiveDay.revenue
      && r.sixDay.revenue == r0.sixDay.revenue
      && r.sevenDay.revenue == r0.sevenDay.revenue
      && r.fiveDay.costs == r0.fiveDay.costs + utilities
      && r.sixDay.costs == r0.sixDay.costs + utilities * 1.2
      && r.sevenDay.costs == r0.sevenDay.costs + utilities * 1.4
  {
    var j := i.(electricityCost := 0.0, waterCost := 0.0);
    assert FiveDay(j).revenue == FiveDay(i).revenue;
    SameRateCosts(i, j, i.baseRevenue);
    assert SixDay(j).revenue == SixDay(i).revenue;
    SameRateCosts(i, j, SixDay(i).revenue);
    assert SevenDay(j).revenue == SevenDay(i).revenue;
    SameRateCosts(i, j, SevenDay(i).revenue);
  }

  /** Without a price increase the COGS rate is not adjusted and revenues are the current ones. */
  lemma NoPriceIncrease(i: Inputs)
    requires i.priceIncrease == 0.0
    ensures WellDefined(i)
    ensures AdjustedCogsPercent(i) == i.baseCogsPercent
    ensures CalculateScenarios(i).fiveDay.revenue == i.baseRevenue
    ensures CalculateScenarios(i).sixDay.revenue == i.baseRevenue + 4.0 * i.newDayRevenue
    ensures CalculateScenarios(i).sevenDay.revenue == i.baseRevenue + 8.0 * i.newDayRevenue
  {
  }

  /** With a positive price factor and non-negative extra-day revenue, more days
      never bring less revenue, and bring strictly more exactly when the extra
      day earns something. */
  lemma RevenueOrdered(i: Inputs)
    requires i.priceIncrease > -100.0 && i.newDayRevenue >= 0.0
    ensures WellDefined(i)
    ensures var r := CalculateScenarios(i);
      && r.fiveDay.revenue <= r.sixDay.revenue <= r.sevenDay.revenue
      && (r.fiveDay.revenue < r.sixDay.revenue <==> i.newDayRevenue > 0.0)
      && (r.sixDay.revenue < r.sevenDay.revenue <==> i.newDayRevenue > 0.0)
  {
  }

  /** Five-day revenue grows strictly with the current revenue. */
  lemma FiveDayRevenueGrowsWithBase(i: Inputs, baseRevenue: real)
    requires i.priceIncrease > -100.0 && i.baseRevenue < baseRevenue
    ensures WellDefined(i)
    ensures CalculateScenarios(i).fiveDay.revenue < CalculateScenarios(i.(baseRevenue := baseRevenue)).fiveDay.revenue
  {
  }

  /** Five-day revenue grows strictly with the price increase when there is revenue to raise. */
  lemma FiveDayRevenueGrowsWithPrice(i: Inputs, priceIncrease: real)
    requires -100.0 < i.priceIncrease < priceIncrease && i.baseRevenue > 0.0
    ensures WellDefined(i)
    ensures CalculateScenarios(i).fiveDay.revenue < CalculateScenarios(i.(priceIncrease := priceIncrease)).fiveDay.revenue
  {
  }

  /** The adjusted COGS rate makes the six- and seven-day COGS equal to the base
      rate on the sales volume at current prices; the five-day COGS, charged on
      the pre-increase revenue, is that amount divided once more by the price factor. */
  lemma CogsAtCurrentPrices(i: Inputs)
    requires WellDefined(i)
    ensures CogsCharge(i, CalculateScenarios(i).sixDay.revenue) ==
            (i.baseRevenue + 4.0 * i.newDayRevenue) * i.baseCogsPercent / 100.0
    ensures CogsCharge(i, CalculateScenarios(i).sevenDay.revenue) ==
            (i.baseRevenue + 8.0 * i.newDayRevenue) * i.baseCogsPercent / 100.0
    ensures CogsCharge(i, i.baseRevenue) * PriceFactor(i.priceIncrease) ==
            i.baseRevenue * i.baseCogsPercent / 100.0
  {
  }

  /** The five-day rates are charged on the revenue before the price increase,
      the six- and seven-day rates on the raised revenue: with no extra-day
      revenue all three scenarios earn the same, yet the rate-based part of the
      six- and seven-day costs is the five-day one times the price factor. */
  lemma FiveDayRatesOnBaseRevenue(i: Inputs)
    requires WellDefined(i) && i.newDayRevenue == 0.0
    ensures var r, u, f := CalculateScenarios(i), i.electricityCost + i.waterCost, PriceFactor(i.priceIncrease);
      && r.sixDay.revenue == r.fiveDay.revenue == r.sevenDay.revenue
      && r.sixDay.costs - u * 1.2 - (if i.additionalDays == 1.0 then StaffCost(i) else 0.0) == f * (r.fiveDay.costs - u)
      && r.sevenDay.costs - u * 1.4 - (if i.additionalDays == 2.0 then StaffCost(i) else 0.0) == f * (r.fiveDay.costs - u)
  {
    var f := PriceFactor(i.priceIncrease);
    assert FiveDay(i).revenue + AddedRevenue(i, 4.0) == f * i.baseRevenue;
    assert FiveDay(i).revenue + AddedRevenue(i, 8.0) == f * i.baseRevenue;
    RateCostsLinear(i, f, i.baseRevenue);
  }

  /** The projection for the initial parameters, in exact arithmetic. */
  lemma DefaultProjection()
    ensures WellDefined(Defaults())
    ensures CalculateScenarios(Defaults()) ==
      Results(ScenarioResult(56070000.0, 198544600.0 / 7.0, 193945400.0 / 7.0),
              ScenarioResult(63630000.0, 36811710.0, 26818290.0),
              ScenarioResult(71190000.0, 37927830.0, 33262170.0))
  {
  }

  /** The inputs with every money amount multiplied by `c` (a change of currency unit). */
  function ScaleMoney(i: Inputs, c: real): Inputs {
    i.(baseRevenue := c * i.baseRevenue, newDayRevenue := c * i.newDayRevenue,
       employeeCost := c * i.employeeCost, electricityCost := c * i.electricityCost, waterCost := c * i.waterCost)
  }

  /** A projection with every amount multiplied by `c`. */
  function ScaleResult(s: ScenarioResult, c: real): ScenarioResult {
    ScenarioResult(c * s.revenue, c * s.costs, c * s.profit)
  }

  function ScaleResults(r: Results, c: real): Results {
    Results(ScaleResult(r.fiveDay, c), ScaleResult(r.sixDay, c), ScaleResult(r.sevenDay, c))
  }

  /** The calculation does not depend on the currency unit: the rates are
      unit-free and every amount enters linearly, so scaling all amounts of the
      input scales all three projections by the same factor. */
  lemma CurrencyScaling(i: Inputs, c: real)
    requires WellDefined(i)
    ensures WellDefined(ScaleMoney(i, c))
    ensures CalculateScenarios(ScaleMoney(i, c)) == ScaleResults(CalculateScenarios(i), c)
  {
    FiveDayScale(i, c);
    SixDayScale(i, c);
    SevenDayScale(i, c);
  }

  lemma FiveDayScale(i: Inputs, c: real)
    requires WellDefined(i)
    ensures WellDefined(ScaleMoney(i, c))
    ensures FiveDay(ScaleMoney(i, c)) == ScaleResult(FiveDay(i), c)
  {
    RateCostsScale(i, c, i.baseRevenue);
  }

  lemma SixDayScale(i: Inputs, c: real)
    requires WellDefined(i)
    ensures WellDefined(ScaleMoney(i, c))
    ensures SixDay(ScaleMoney(i, c)) == ScaleResult(SixDay(i), c)
  {
    SixDayRevenueScale(i, c);
    SixDayCostsScale(i, c);
    ScenarioScale(c, SixDay(i).revenue, SixDay(i).costs);
  }

  lemma SixDayRevenueScale(i: Inputs, c: real)
    requires WellDefined(i)
    ensures WellDefined(ScaleMoney(i, c))
    ensures SixDay(ScaleMoney(i, c)).revenue == c * SixDay(i).revenue
  {
    ExtendedRevenueScale(i, c, 4.0);
  }

  lemma SixDayCostsScale(i: Inputs, c: real)
    requires WellDefined(i)
    ensures WellDefined(ScaleMoney(i, c))
    ensures SixDay(ScaleMoney(i, c)).costs == c * SixDay(i).costs
  {
    var j := ScaleMoney(i, c);
    ExtendedRevenueScale(i, c, 4.0);
    ExtraDayCostsScale(i, c, FiveDay(i).revenue + AddedRevenue(i, 4.0), FiveDay(j).revenue + AddedRevenue(j, 4.0), 1.2, 1.0);
  }

  lemma SevenDayScale(i: Inputs, c: real)
    requires WellDefined(i)
    ensures WellDefined(ScaleMoney(i, c))
    ensures SevenDay(ScaleMoney(i, c)) == ScaleResult(SevenDay(i), c)
  {
    SevenDayRevenueScale(i, c);
    SevenDayCostsScale(i, c);
    ScenarioScale(c, SevenDay(i).revenue, SevenDay(i).costs);
  }

  lemma SevenDayRevenueScale(i: Inputs, c: real)
    requires WellDefined(i)
    ensures WellDefined(ScaleMoney(i, c))
    ensures SevenDay(ScaleMoney(i, c)).revenue == c * SevenDay(i).revenue
  {
    ExtendedRevenueScale(i, c, 8.0);
  }

  lemma SevenDayCostsScale(i: Inputs, c: real)
    requires WellDefined(i)
    ensures WellDefined(ScaleMoney(i, c))
    ensures SevenDay(ScaleMoney(i, c)).costs == c * SevenDay(i).costs
  {
    var j := ScaleMoney(i, c);
    ExtendedRevenueScale(i, c, 8.0);
    ExtraDayCostsScale(i, c, FiveDay(i).revenue + AddedRevenue(i, 8.0), FiveDay(j).revenue + AddedRevenue(j, 8.0), 1.4, 2.0);
  }

  /** Revenue in every scenario is monotone in the current revenue, the
      extra-day revenue and the price increase taken together (for non-negative
      amounts and a positive price factor). */
  lemma RevenueMonotone(i: Inputs, j: Inputs)
    requires -100.0 < i.priceIncrease <= j.priceIncrease
    requires 0.0 <= i.baseRevenue <= j.baseRevenue
    requires 0.0 <= i.newDayRevenue <= j.newDayRevenue
    ensures WellDefined(i) && WellDefined(j)
    ensures CalculateScenarios(i).fiveDay.revenue <= CalculateScenarios(j).fiveDay.revenue
    ensures CalculateScenarios(i).sixDay.revenue <= CalculateScenarios(j).sixDay.revenue
    ensures CalculateScenarios(i).sevenDay.revenue <= CalculateScenarios(j).sevenDay.revenue
  {
    var fi, fj := PriceFactor(i.priceIncrease), PriceFactor(j.priceIncrease);
    assert 0.0 < fi <= fj;
    ProductMonotone(i.baseRevenue, j.baseRevenue, fi, fj);
    assert FiveDay(i).revenue <= FiveDay(j).revenue;
    ProductMonotone(i.newDayRevenue * 4.0, j.newDayRevenue * 4.0, fi, fj);
    assert AddedRevenue(i, 4.0) <= AddedRevenue(j, 4.0);
    ProductMonotone(i.newDayRevenue * 8.0, j.newDayRevenue * 8.0, fi, fj);
    assert AddedRevenue(i, 8.0) <= AddedRevenue(j, 8.0);
  }

  /** The rate-based costs depend on the rates and the price increase only. */
  lemma SameRateCosts(i: Inputs, j: Inputs, revenue: real)
    requires WellDefined(i)
    requires j.priceIncrease == i.priceIncrease && j.baseCogsPercent == i.baseCogsPercent
    requires j.taxRate == i.taxRate && j.indirectCostPercent == i.indirectCostPercent
    ensures WellDefined(j) && RateCosts(j, revenue) == RateCosts(i, revenue)
  {
  }

  /** The rate-based costs are proportional to the revenue they are charged on. */
  lemma RateCostsScale(i: Inputs, c: real, revenue: real)
    requires WellDefined(i)
    ensures WellDefined(ScaleMoney(i, c))
    ensures RateCosts(ScaleMoney(i, c), c * revenue) == c * RateCosts(i, revenue)
  {
    SameRateCosts(i, ScaleMoney(i, c), c * revenue);
    var cogs, tax, indirect := AdjustedCogsPercent(i) / 100.0, i.taxRate / 100.0, i.indirectCostPercent / 100.0;
    MulAssoc(c, revenue, cogs);
    MulAssoc(c, revenue, tax);
    MulAssoc(c, revenue, indirect);
    Distribute3(c, revenue * cogs, revenue * tax, revenue * indirect);
  }

  /** The rate-based costs are linear in the revenue they are charged on. */
  lemma RateCostsLinear(i: Inputs, c: real, revenue: real)
    requires WellDefined(i)
    ensures RateCosts(i, c * revenue) == c * RateCosts(i, revenue)
  {
    var cogs, tax, indirect := AdjustedCogsPercent(i) / 100.0, i.taxRate / 100.0, i.indirectCostPercent / 100.0;
    MulAssoc(c, revenue, cogs);
    MulAssoc(c, revenue, tax);
    MulAssoc(c, revenue, indirect);
    Distribute3(c, revenue * cogs, revenue * tax, revenue * indirect);
  }

  /** The revenue of a scenario with extra days scales with the amounts. */
  lemma ExtendedRevenueScale(i: Inputs, c: real, extraDays: real)
    requires WellDefined(i)
    ensures WellDefined(ScaleMoney(i, c))
    ensures var j := ScaleMoney(i, c);
      FiveDay(j).revenue + AddedRevenue(j, extraDays) == c * (FiveDay(i).revenue + AddedRevenue(i, extraDays))
  {
    var j := ScaleMoney(i, c);
    FiveDayScale(i, c);
    ScaledProduct3(c, i.newDayRevenue, extraDays, PriceFactor(i.priceIncrease));
    assert AddedRevenue(j, extraDays) == c * AddedRevenue(i, extraDays);
  }

  /** The costs of a scenario with extra days scale with the revenue they are charged on. */
  lemma ExtraDayCostsScale(i: Inputs, c: real, revenue: real, scaledRevenue: real, factor: real, selected: real)
    requires WellDefined(i) && scaledRevenue == c * revenue
    ensures WellDefined(ScaleMoney(i, c))
    ensures var j := ScaleMoney(i, c);
      RateCosts(j, scaledRevenue) + (j.electricityCost + j.waterCost) * factor +
        (if j.additionalDays == selected then StaffCost(j) else 0.0) ==
      c * (RateCosts(i, revenue) + (i.electricityCost + i.waterCost) * factor +
        (if i.additionalDays == selected then StaffCost(i) else 0.0))
  {
    RateCostsScale(i, c, revenue);
    UtilitiesScale(i, c, factor);
    StaffScale(i, c, selected);
    Distribute3(c, RateCosts(i, revenue), (i.electricityCost + i.waterCost) * factor,
                if i.additionalDays == selected then StaffCost(i) else 0.0);
  }

  lemma UtilitiesScale(i: Inputs, c: real, factor: real)
    ensures var j := ScaleMoney(i, c);
      (j.electricityCost + j.waterCost) * factor == c * ((i.electricityCost + i.waterCost) * factor)
  {
    ScaledSumTimes(c, i.electricityCost, i.waterCost, factor);
  }

  lemma StaffScale(i: Inputs, c: real, selected: real)
    ensures var j := ScaleMoney(i, c);
      (if j.additionalDays == selected then StaffCost(j) else 0.0) ==
      c * (if i.additionalDays == selected then StaffCost(i) else 0.0)
  {
    MulAssoc(c, i.newEmployees, i.employeeCost);
    assert i.newEmployees * (c * i.employeeCost) == c * (i.newEmployees * i.employeeCost);
  }

  // Algebra steps the solver does not take on its own.

  lemma MulAssoc(a: real, b: real, d: real)
    ensures (a * b) * d == a * (b * d)
  {
  }

  lemma ScenarioScale(c: real, revenue: real, costs: real)
    ensures WithProfit(c * revenue, c * costs) == ScaleResult(WithProfit(revenue, costs), c)
  {
  }

  lemma Distribute3(c: real, a: real, b: real, d: real)
    ensures c * a + c * b + c * d == c * (a + b + d)
  {
  }

  lemma ScaledSumTimes(c: real, a: real, b: real, k: real)
    ensures (c * a + c * b) * k == c * ((a + b) * k)
  {
  }

  lemma ScaledProduct3(c: real, a: real, b: real, d: real)
    ensures (c * a) * b * d == c * (a * b * d)
  {
  }

  lemma ProductMonotone(a: real, b: real, x: real, y: real)
    requires 0.0 <= a <= b && 0.0 <= x <= y
    ensures a * x <= b * y
  {
  }
}
