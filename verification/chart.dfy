/** The rows the bar chart is drawn from: one per scenario, each carrying the
    three series Revenue, Costs and Net Profit. */
module Chart {
  import opened Scenarios

  datatype ChartRow = ChartRow(name: string, revenue: real, costs: real, netProfit: real)

  /** The scenario a row was drawn from. */
  function RowResult(row: ChartRow): ScenarioResult {
    ScenarioResult(row.revenue, row.costs, row.netProfit)
  }

  /** The chart rows, in scenario order, labelled by the number of operating days. */
  function ChartData(r: Results): (rows: seq<ChartRow>)
    ensures |rows| == 3
    ensures rows[0].name == "5 Days" && rows[1].name == "6 Days" && rows[2].name == "7 Days"
    ensures RowResult(rows[0]) == r.fiveDay
    ensures RowResult(rows[1]) == r.sixDay
    ensures RowResult(rows[2]) == r.sevenDay
  {
    [ ChartRow("5 Days", r.fiveDay.revenue, r.fiveDay.costs, r.fiveDay.profit),
      ChartRow("6 Days", r.sixDay.revenue, r.sixDay.costs, r.sixDay.profit),
      ChartRow("7 Days", r.sevenDay.revenue, r.sevenDay.costs, r.sevenDay.profit) ]
  }

  /** The results can be read back from the chart: the projection loses nothing. */
  lemma ChartRoundTrip(r: Results)
    ensures var rows := ChartData(r);
      Results(RowResult(rows[0]), RowResult(rows[1]), RowResult(rows[2])) == r
  {
  }

  /** Every bar group of a computed chart shows a net profit equal to revenue minus costs. */
  lemma ChartRowsBalanced(i: Inputs)
    requires WellDefined(i)
    ensures var rows := ChartData(CalculateScenarios(i));
      forall k :: 0 <= k < |rows| ==> rows[k].netProfit == rows[k].revenue - rows[k].costs
  {
  }
}
