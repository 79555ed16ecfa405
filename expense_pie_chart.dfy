/** The expense pie: this month's expenses by category. */
module ExpensePieChart {
  import opened Base
  import opened Table
  import opened TransactionService
  import opened Aggregation

  /** This month's expenses: `getByMonth(currentMonth)`, then the expense
      transactions. */
  function MonthExpenseTransactions(txs: seq<Transaction>, currentMonth: MonthKey): seq<Transaction> {
    Filter(Filter(txs, InMonth(currentMonth)), IsExpense)
  }

  /** `loadChartData`: no slices without expenses; otherwise the
      accumulated total per category, in order of first occurrence. */
  method LoadChartData(store: TransactionStore, currentMonth: MonthKey) returns (data: seq<CategoryAmount>)
    ensures data == CategoryEntries(MonthExpenseTransactions(store.transactions, currentMonth))
  {
    var transactions := store.GetByMonth(currentMonth);
    var expenses := Filter(transactions, IsExpense);
    if |expenses| == 0 {
      data := [];
      return;
    }
    data := CategoryTotals(expenses);
  }

  /** The pie is empty exactly when the month has no expense. */
  lemma EmptyExactlyWithoutExpenses(expenses: seq<Transaction>)
    ensures CategoryEntries(expenses) == [] <==> expenses == []
  {
    if expenses != [] {
      assert CategoryOf(expenses[0]) in Distinct(expenses, CategoryOf);
    }
  }

  /** One slice per expense category of the month, each worth the sum of
      the magnitudes of that category's expenses. */
  lemma SliceForEveryCategory(txs: seq<Transaction>, currentMonth: MonthKey, t: Transaction)
    requires t in txs && t.kind == Expense && MonthKeyOf(t.date) == currentMonth
    ensures exists j :: 0 <= j < |CategoryEntries(MonthExpenseTransactions(txs, currentMonth))| &&
              CategoryEntries(MonthExpenseTransactions(txs, currentMonth))[j] ==
              CategoryAmount(t.category, SumBy(Filter(MonthExpenseTransactions(txs, currentMonth), InCategory(t.category)), Magnitude))
  {
    var inMonth := Filter(txs, InMonth(currentMonth));
    var expenses := MonthExpenseTransactions(txs, currentMonth);
    assert t in inMonth;
    assert t in expenses;
    var i :| 0 <= i < |expenses| && expenses[i] == t;
    CategoryEntriesCoverCategories(expenses, i);
    CategoryTotalIsFilteredSum(expenses, t.category);
  }

  /** The slices add up to the dashboard's expense figure for the month,
      provided every expense is stored with a non-positive amount. */
  lemma SlicesAddUp(txs: seq<Transaction>, currentMonth: MonthKey)
    requires forall i :: 0 <= i < |txs| ==> SignAgrees(txs[i])
    ensures SumBy(CategoryEntries(MonthExpenseTransactions(txs, currentMonth)), EntryAmount) ==
            MonthExpenses(txs, currentMonth)
  {
    var monthTransactions := Filter(txs, InMonth(currentMonth));
    assert forall i :: 0 <= i < |monthTransactions| ==> monthTransactions[i] in txs;
    ExpenseTotalIsSumOfMagnitudes(monthTransactions);
    CategoryEntriesAddUp(Filter(monthTransactions, IsExpense));
  }
}
