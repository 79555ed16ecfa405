/** The reports page: a row of income, expenses and net per month over the
    last 6 or 12 months, the expense breakdown by category (largest first,
    the top 10 charted), and the summary totals and monthly averages. */
module Reports {
  import opened Base
  import opened Table
  import opened TransactionService
  import opened Aggregation

  /** One month of the report: `{ month, income, expenses, net }`. */
  datatype ReportRow = ReportRow(month: MonthKey, income: real, expenses: real, net: real)

  /** `months.map(...)` in `getFilteredData`: per month, its income, its
      expenses, and the difference. */
  function ReportRows(txs: seq<Transaction>, months: seq<MonthKey>): (r: seq<ReportRow>)
    ensures |r| == |months|
    ensures forall j :: 0 <= j < |r| ==>
              r[j].month == months[j] &&
              r[j].income == MonthIncome(txs, months[j]) &&
              r[j].expenses == MonthExpenses(txs, months[j]) && r[j].expenses >= 0.0 &&
              r[j].net == r[j].income - r[j].expenses
  {
    seq(|months|, j requires 0 <= j < |months| =>
      var income := MonthIncome(txs, months[j]);
      var expenses := MonthExpenses(txs, months[j]);
      ReportRow(months[j], income, expenses, income - expenses))
  }

  /** `getFilteredData()`: the rows for the last 6 months when the range is
      "6months", otherwise for the last 12, oldest first. */
  method FilteredData(txs: seq<Transaction>, now: MonthKey, timeRange: string) returns (rows: seq<ReportRow>)
    ensures rows == ReportRows(txs, MonthsEndingAt(now, MonthCount(timeRange)))
  {
    var months := LastMonths(now, MonthCount(timeRange));
    rows := ReportRows(txs, months);
  }

  /** The report has 6 or 12 rows as the range says, for consecutive
      months, the last of which is the current one. */
  lemma FilteredDataShape(txs: seq<Transaction>, now: MonthKey, timeRange: string)
    requires ValidMonth(now)
    ensures var rows := ReportRows(txs, MonthsEndingAt(now, MonthCount(timeRange)));
            |rows| == (if timeRange == "6months" then 6 else 12) &&
            rows[|rows| - 1].month == now &&
            forall j :: 0 < j < |rows| ==> MonthIndex(rows[j].month) == MonthIndex(rows[j - 1].month) + 1
  {
  }

  function RowIncomeOf(row: ReportRow): real {
    row.income
  }

  function RowExpensesOf(row: ReportRow): real {
    row.expenses
  }

  /** The summary cards: total income, total expenses, and each divided by
      the number of rows. */
  datatype Summary = Summary(totalIncome: real, totalExpenses: real, averageIncome: real, averageExpenses: real)

  /** The summary over the rows; the report always has 6 or 12 of them. */
  function Summarize(rows: seq<ReportRow>): (s: Summary)
    requires |rows| > 0
    ensures s.totalIncome == SumBy(rows, RowIncomeOf)
    ensures s.totalExpenses == SumBy(rows, RowExpensesOf)
    ensures s.averageIncome * (|rows| as real) == s.totalIncome
    ensures s.averageExpenses * (|rows| as real) == s.totalExpenses
  {
    var income := SumBy(rows, RowIncomeOf);
    var expenses := SumBy(rows, RowExpensesOf);
    Summary(income, expenses, income / (|rows| as real), expenses / (|rows| as real))
  }

  /** The total income on the report is the income of every transaction
      dated in one of the report's months, each counted once. */
  lemma TotalIncomeIsWindowIncome(txs: seq<Transaction>, now: MonthKey, timeRange: string)
    ensures var months := MonthsEndingAt(now, MonthCount(timeRange));
            Summarize(ReportRows(txs, months)).totalIncome == IncomeTotal(Filter(txs, InAnyMonth(months)))
  {
    var months := MonthsEndingAt(now, MonthCount(timeRange));
    var rows := ReportRows(txs, months);
    SumByPointwise(rows, RowIncomeOf, months, IncomeByMonth(txs));
    IncomeSplitsByMonth(txs, months);
  }

  /** The total expenses on the report are never negative. */
  lemma {:induction false} TotalExpensesNonNegative(rows: seq<ReportRow>)
    requires forall j :: 0 <= j < |rows| ==> rows[j].expenses >= 0.0
    ensures SumBy(rows, RowExpensesOf) >= 0.0
  {
    SumByNonNegative(rows, RowExpensesOf);
  }

  /** The comparator `b.amount - a.amount` sorts by this key ascending. */
  function LargestFirst(e: CategoryAmount): real {
    -e.amount
  }

  /** `getCategoryBreakdown()`: the expense totals by category, sorted by
      amount, largest first. */
  method CategoryBreakdown(txs: seq<Transaction>) returns (r: seq<CategoryAmount>)
    ensures multiset(r) == multiset(CategoryEntries(Filter(txs, IsExpense)))
    ensures forall i, j :: 0 <= i < j < |r| ==> r[i].amount >= r[j].amount
  {
    var totals := CategoryTotals(Filter(txs, IsExpense));
    r := SortBy(totals, LargestFirst);
    assert forall i, j :: 0 <= i < j < |r| ==> LargestFirst(r[i]) <= LargestFirst(r[j]);
  }

  /** `categoryData.slice(0, 10)`: at most the first ten entries. */
  function TopEntries(entries: seq<CategoryAmount>): (top: seq<CategoryAmount>)
    ensures |top| == if |entries| < 10 then |entries| else 10
    ensures top == entries[..|top|]
  {
    if |entries| <= 10 then entries else entries[..10]
  }

  /** On a breakdown sorted largest first, no entry left off the chart is
      larger than any entry on it, and the chart's labels and values name
      the same entries index for index. */
  lemma TopEntriesAreLargest(entries: seq<CategoryAmount>)
    requires forall i, j :: 0 <= i < j < |entries| ==> entries[i].amount >= entries[j].amount
    ensures var top := TopEntries(entries);
            (forall i, j :: 0 <= i < |top| <= j < |entries| ==> entries[j].amount <= top[i].amount) &&
            |Labels(top)| == |Series(top)| &&
            (forall i :: 0 <= i < |top| ==> CategoryAmount(Labels(top)[i], Series(top)[i]) == top[i])
  {
  }
}
