/** The income/expense trend chart: one point per month over the last 6 or
    12 months, oldest first. */
module SpendingTrendChart {
  import opened Base
  import opened Table
  import opened TransactionService
  import opened Aggregation

  /** `loadChartData`: all transactions (`getAll`, newest first), the
      months of the range, and per month its income and expenses. The
      points are those of the stored transactions, whatever their order. */
  method LoadChartData(store: TransactionStore, now: MonthKey, timeRange: string) returns (data: seq<MonthTotals>)
    ensures data == MonthlyTotals(store.transactions, MonthsEndingAt(now, MonthCount(timeRange)))
  {
    var transactions := store.GetAll();
    var months := LastMonths(now, MonthCount(timeRange));
    forall j | 0 <= j < |months|
      ensures MonthIncome(transactions, months[j]) == MonthIncome(store.transactions, months[j])
      ensures MonthExpenses(transactions, months[j]) == MonthExpenses(store.transactions, months[j])
    {
      MonthTotalsIgnoreOrder(transactions, store.transactions, months[j]);
    }
    data := MonthlyTotals(transactions, months);
  }

  /** The x-axis categories and the two series of the chart. */
  datatype ChartSeries = ChartSeries(categories: seq<MonthKey>, income: seq<real>, expenses: seq<real>)

  /** `chartData.map(d => d.month)`, `chartData.map(d => d.income)` and
      `chartData.map(d => d.expenses)`: three columns of equal length, read
      from the same point at each index. */
  function Columns(data: seq<MonthTotals>): (c: ChartSeries)
    ensures |c.categories| == |data| && |c.income| == |data| && |c.expenses| == |data|
    ensures forall j :: 0 <= j < |data| ==>
              MonthTotals(c.categories[j], c.income[j], c.expenses[j]) == data[j]
  {
    ChartSeries(seq(|data|, j requires 0 <= j < |data| => data[j].month),
                seq(|data|, j requires 0 <= j < |data| => data[j].income),
                seq(|data|, j requires 0 <= j < |data| => data[j].expenses))
  }

  /** The chart has 6 or 12 points as the range says, for consecutive
      months ending with the current one, and no point shows negative
      expenses. */
  lemma ChartShape(txs: seq<Transaction>, now: MonthKey, timeRange: string)
    requires ValidMonth(now)
    ensures var c := Columns(MonthlyTotals(txs, MonthsEndingAt(now, MonthCount(timeRange))));
            |c.categories| == (if timeRange == "6months" then 6 else 12) &&
            c.categories[|c.categories| - 1] == now &&
            (forall j :: 0 < j < |c.categories| ==> MonthIndex(c.categories[j]) == MonthIndex(c.categories[j - 1]) + 1) &&
            (forall j :: 0 <= j < |c.expenses| ==> c.expenses[j] >= 0.0)
  {
  }
}
