# Strange Brewing financial calculator — Dafny model

The calculator helps a small business decide whether to open a sixth or
seventh day a week. From eleven numbers (current monthly revenue, the revenue
one extra day brings, new staff and their cost, a price increase, the COGS,
tax and indirect-cost rates, electricity and water) it projects monthly
revenue, costs and profit for operating five, six and seven days, and shows the
three projections as a bar chart.

The model has four files, following the single component
`src/components/Chaculator.tsx`:

- `scenarios.dfy`, module `Scenarios`: the scenario engine `calculateScenarios`
  as pure functions over exact `real` numbers. `Inputs` holds the eleven
  parameters, `ScenarioResult` one projection, `Results` the three together.
- `scenario_properties.dfy`, module `ScenarioProperties`: lemmas about the
  engine. They cover where the staff cost is charged, the utility multipliers,
  what the five-day projection ignores, the price normalisation of COGS,
  revenue ordering and monotonicity, independence from the currency unit, and
  the projection for the default inputs.
- `chart.dfy`, module `Chart`: the chart rows built from the results.
- `calculator.dfy`, module `Calculator`: the component's state as a class
  `FinancialCalculator`. It has the eleven input fields and a `results` field.
  Every setter ends by recomputing all three scenarios from the current inputs
  and replacing `results` in one step.

Modelling decisions:

- All numbers are `real`, so every formula holds exactly. The only division by
  a value that can be zero is by `1 + priceIncrease/100`, which the source never
  guards; every other division is by the constant 100. The model requires
  `priceIncrease != -100` (`WellDefined`) wherever that division happens.
- `additionalDays` is a number compared with `== 1` and `== 2`, as the source's
  `===` does. Any other value charges the staff to neither scenario.
- The five-day costs apply the COGS, tax and indirect rates to `baseRevenue`,
  the revenue before the price increase (lines 46-48). The six- and seven-day
  costs apply them to their own raised revenue. The model keeps this asymmetry.
  Charging the five-day rates on the raised five-day revenue, as the other
  two scenarios do, would be the symmetric reading, but the code does not do
  that and the model follows the code. For the default inputs the five-day
  figures are therefore costs 198544600/7 ≈ 28363514.29 and profit
  193945400/7 ≈ 27706485.71 (`DefaultProjection`). The symmetric reading would
  give costs 29695590 and profit 26374410. `FiveDayRatesOnBaseRevenue` states
  the asymmetry for all inputs.
- React's effect re-runs `calculateScenarios` after a render whenever an input
  changes. The model makes this a synchronous `Recalculate()` at the end of
  every setter. The first effect run, after mounting, is a call to
  `Recalculate()` on a freshly constructed calculator. Until then `results`
  holds zeros, as the source's initial state does.
- The rendered form binds input fields to only six setters: base revenue, new
  day revenue, price increase, COGS, new employees and cost per employee. The
  setters for `additionalDays`, `taxRate`, `indirectCostPercent`,
  `electricityCost` and `waterCost` exist in the component but no control
  calls them. The model keeps all eleven.

## Model

| member | source | states |
|---|---|---|
| `Scenarios.CalculateScenarios` | src/components/Chaculator.tsx:39-78 | All three projections come out together. In each one, profit is revenue minus costs. Six-day revenue is five-day revenue plus newDayRevenue × 4 × the price factor; seven-day revenue uses 8 in place of 4. |
| `Scenarios.ZeroResults` | src/components/Chaculator.tsx:33-37 | The initial results: every revenue is zero and every profit equals revenue minus costs. |
| `ScenarioProperties.StaffChargedWhereSelected` | src/components/Chaculator.tsx:46-73 | With a nonzero staff cost, removing the staff changes six-day costs exactly when additionalDays is 1 and seven-day costs exactly when it is 2. The five-day result does not change, and the staff cost never lands in both scenarios. |
| `ScenarioProperties.MoveStaffCharge` | src/components/Chaculator.tsx:61-73 | Switching additionalDays from 1 to 2 subtracts newEmployees × employeeCost from six-day costs and adds it to seven-day costs. Five-day results and all revenues stay the same. |
| `ScenarioProperties.FiveDayIgnoresExtraDays` | src/components/Chaculator.tsx:44-51 | Inputs that differ only in additionalDays, newDayRevenue, newEmployees and employeeCost give the same five-day result. |
| `ScenarioProperties.UtilityMultipliers` | src/components/Chaculator.tsx:49-72 | Electricity plus water adds exactly (electricity + water) × 1, × 1.2 and × 1.4 to the five-, six- and seven-day costs, and nothing to any revenue. |
| `ScenarioProperties.NoPriceIncrease` | src/components/Chaculator.tsx:41-68 | With a 0 % price increase the adjusted COGS rate is the base rate. Revenues are then baseRevenue, baseRevenue + 4·newDayRevenue and baseRevenue + 8·newDayRevenue. |
| `ScenarioProperties.RevenueOrdered` | src/components/Chaculator.tsx:45-68 | If priceIncrease > -100 and newDayRevenue ≥ 0, then five-day ≤ six-day ≤ seven-day revenue. Each step is strict exactly when newDayRevenue > 0. |
| `ScenarioProperties.FiveDayRevenueGrowsWithBase` | src/components/Chaculator.tsx:45 | If priceIncrease > -100, a larger baseRevenue gives a strictly larger five-day revenue. |
| `ScenarioProperties.FiveDayRevenueGrowsWithPrice` | src/components/Chaculator.tsx:45 | If baseRevenue > 0, a larger price increase above -100 gives a strictly larger five-day revenue. |
| `ScenarioProperties.RevenueMonotone` | src/components/Chaculator.tsx:45-68 | Raising baseRevenue, newDayRevenue and priceIncrease together never lowers any scenario's revenue. This holds for non-negative amounts and a price increase above -100. |
| `ScenarioProperties.CogsAtCurrentPrices` | src/components/Chaculator.tsx:41-71 | The adjusted COGS rate charged on the six- or seven-day revenue equals the base COGS rate on the volume at current prices, (baseRevenue + 4 or 8 × newDayRevenue). Charged on baseRevenue, it times the price factor equals the base rate on baseRevenue. |
| `ScenarioProperties.FiveDayRatesOnBaseRevenue` | src/components/Chaculator.tsx:44-71 | With no extra-day revenue all three revenues are equal, yet six- and seven-day costs, less their utilities (× 1.2, × 1.4) and any staff charge, are the price factor times the five-day costs less utilities: the five-day rates are charged on the revenue before the increase. |
| `ScenarioProperties.DefaultProjection` | src/components/Chaculator.tsx:18-75 | The exact projections for the initial inputs. Revenues are 56070000, 63630000 and 71190000. Costs are 198544600/7, 36811710 and 37927830. Profits are 193945400/7, 26818290 and 33262170. |
| `ScenarioProperties.CurrencyScaling` | src/components/Chaculator.tsx:39-78 | Multiplying every money input by c, with the rates and the price increase left as they are, multiplies every revenue, cost and profit by c. |
| `Chart.ChartData` | src/components/Chaculator.tsx:86-105 | Exactly three rows, "5 Days", "6 Days" and "7 Days" in that order. Each row carries the revenue, costs and profit of its scenario. |
| `Chart.ChartRoundTrip` | src/components/Chaculator.tsx:86-105 | The three scenario results can be read back from the chart rows unchanged. |
| `Chart.ChartRowsBalanced` | src/components/Chaculator.tsx:86-105 | For computed results, every row's net profit equals its revenue minus its costs. |
| `Calculator.FinancialCalculator.CurrentChart` | src/components/Chaculator.tsx:86-105 | The chart read from the state has three rows; when the results are up to date it is the chart of the current inputs' projections. Recalculate and every setter leave it so. |
| `Calculator.FinancialCalculator.constructor` | src/components/Chaculator.tsx:18-37 | The inputs are the defaults (`Scenarios.Defaults`, lines 18-30) and the results are all zero. |
| `Calculator.FinancialCalculator.Recalculate` | src/components/Chaculator.tsx:77-84 | Results are replaced by the engine's output for the current inputs; the inputs are untouched. |
| `Calculator.FinancialCalculator.SetBaseRevenue` | src/components/Chaculator.tsx:18 | Only baseRevenue changes among the inputs. Afterwards results are those of the new inputs. |
| `Calculator.FinancialCalculator.SetAdditionalDays` | src/components/Chaculator.tsx:19 | Only additionalDays changes among the inputs, and results are recomputed. If the results were up to date before, the five-day result is unchanged. |
| `Calculator.FinancialCalculator.SetNewDayRevenue` | src/components/Chaculator.tsx:20 | Only newDayRevenue changes among the inputs, and results are recomputed. If the results were up to date before, the five-day result is unchanged. |
| `Calculator.FinancialCalculator.SetNewEmployees` | src/components/Chaculator.tsx:21 | Only newEmployees changes among the inputs, and results are recomputed. If the results were up to date before, the five-day result is unchanged. |
| `Calculator.FinancialCalculator.SetEmployeeCost` | src/components/Chaculator.tsx:22 | Only employeeCost changes among the inputs, and results are recomputed. If the results were up to date before, the five-day result is unchanged. |
| `Calculator.FinancialCalculator.SetPriceIncrease` | src/components/Chaculator.tsx:23 | Only priceIncrease changes among the inputs; results are recomputed. |
| `Calculator.FinancialCalculator.SetBaseCogsPercent` | src/components/Chaculator.tsx:26 | Only baseCogsPercent changes among the inputs; results are recomputed. |
| `Calculator.FinancialCalculator.SetTaxRate` | src/components/Chaculator.tsx:27 | Only taxRate changes among the inputs; results are recomputed. |
| `Calculator.FinancialCalculator.SetIndirectCostPercent` | src/components/Chaculator.tsx:28 | Only indirectCostPercent changes among the inputs; results are recomputed. |
| `Calculator.FinancialCalculator.SetElectricityCost` | src/components/Chaculator.tsx:29 | Only electricityCost changes among the inputs; results are recomputed. |
| `Calculator.FinancialCalculator.SetWaterCost` | src/components/Chaculator.tsx:30 | Only waterCost changes among the inputs; results are recomputed. |

## Left out

- `SetPriceIncrease` requires the new value to differ from -100. The source
  accepts -100 and then shows infinite or NaN figures, because it divides by
  zero at line 41. The same exclusion is the `requires` of every function
  that divides by the price factor and of every function that calls one.
- IEEE-754 double rounding: the model computes in exact reals, so the worked
  figures are exact where the browser's would be rounded.
- `formatARS` (lines 7-14): currency formatting is delegated to the browser's
  `Intl.NumberFormat`.
- The JSX layout, the `Card`, `Input` and `Label` components, and the recharts
  `BarChart`: presentation in foreign libraries. Only the data handed to the
  chart (`chartData`) is modelled.
- `Number(e.target.value)` parsing in the change handlers: setters take
  already-parsed numbers.
- React's scheduling of `useEffect` (when the effect runs relative to
  rendering, batching of several updates): the model recomputes synchronously
  at the end of each setter.
- Determinism of the calculation (the same inputs always give the same
  results) holds because `CalculateScenarios` is a function. It needs no
  separate statement.
