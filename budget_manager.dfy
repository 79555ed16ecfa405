/** The budget view: this month's budgets with what was spent against each,
    a utilisation bar with severity tiers, the category drop-down of the
    add form, and the form's validation before `upsertBudget`. */
module BudgetManager {
  import opened Base
  import opened Table
  import opened TransactionService
  import opened BudgetService
  import opened CategoryService
  import opened Aggregation

  /** An expense dated in the given month. */
  function ExpenseInMonth(currentMonth: MonthKey): Transaction -> bool {
    (t: Transaction) => IsExpense(t) && MonthKeyOf(t.date) == currentMonth
  }

  /** The transactions the view loads: `getByMonth(currentMonth)`, then
      only the expenses. This is one pass keeping the month's expenses, in
      stored order, each record as often as it is stored. */
  function BudgetTransactions(all: seq<Transaction>, currentMonth: MonthKey): (r: seq<Transaction>)
    ensures r == Filter(all, ExpenseInMonth(currentMonth))
    ensures forall i :: 0 <= i < |r| ==> r[i] in all && IsExpense(r[i]) && MonthKeyOf(r[i].date) == currentMonth
    ensures forall i :: 0 <= i < |all| && IsExpense(all[i]) && MonthKeyOf(all[i].date) == currentMonth ==>
              all[i] in r
  {
    var inMonth := Filter(all, TransactionService.InMonth(currentMonth));
    FilterTwice(all, TransactionService.InMonth(currentMonth), IsExpense, ExpenseInMonth(currentMonth));
    Filter(inMonth, IsExpense)
  }

  /** `getSpentAmount(category)`: the sum of `Math.abs(amount)` over the
      loaded transactions of that category. It is the category's total in
      the per-category breakdown, and never negative. */
  function SpentAmount(txs: seq<Transaction>, category: string): (r: real)
    ensures r == CategoryTotal(txs, category)
    ensures r >= 0.0
  {
    CategoryTotalIsFilteredSum(txs, category);
    SumBy(Filter(txs, InCategory(category)), Magnitude)
  }

  /** `getProgressPercentage(spent, limit)`. */
  function ProgressPercentage(spent: real, limit: real): (r: real)
    requires limit > 0.0
  {
    CappedPercent(spent, limit)
  }

  /** The bar's percentage is at most 100, is 100 exactly when the spending
      reaches the limit, and grows with the spending. */
  lemma ProgressPercentageBounds(spent: real, spent2: real, limit: real)
    requires limit > 0.0 && spent >= 0.0
    ensures 0.0 <= ProgressPercentage(spent, limit) <= 100.0
    ensures ProgressPercentage(spent, limit) == 100.0 <==> spent >= limit
    ensures spent <= spent2 ==> ProgressPercentage(spent, limit) <= ProgressPercentage(spent2, limit)
  {
    if spent <= spent2 {
      CappedPercentMonotone(spent, spent2, limit);
    }
  }

  /** `getProgressColor(percentage)`: "error" from 90, "warning" from 75,
      otherwise "success". */
  function ProgressColor(percentage: real): (r: string)
    ensures r == "error" || r == "warning" || r == "success"
  {
    if percentage >= 90.0 then "error"
    else if percentage >= 75.0 then "warning"
    else "success"
  }

  /** The colour tiers in terms of money: "error" once 90% of the limit is
      spent, "warning" from 75% up to that, "success" below 75%. */
  lemma ColorTiers(spent: real, limit: real)
    requires limit > 0.0
    ensures ProgressColor(ProgressPercentage(spent, limit)) == "error" <==> spent * 10.0 >= limit * 9.0
    ensures ProgressColor(ProgressPercentage(spent, limit)) == "warning" <==>
              spent * 4.0 >= limit * 3.0 && spent * 10.0 < limit * 9.0
    ensures ProgressColor(ProgressPercentage(spent, limit)) == "success" <==> spent * 4.0 < limit * 3.0
  {
    CappedPercentThreshold(spent, limit, 90.0);
    CappedPercentThreshold(spent, limit, 75.0);
  }

  /** `Math.max(0, monthlyLimit - spent)`: what is left of the limit. */
  function Remaining(limit: real, spent: real): (r: real)
    ensures r >= 0.0
    ensures r >= limit - spent
    ensures r == 0.0 <==> spent >= limit
    ensures spent < limit ==> r + spent == limit
  {
    Max(0.0, limit - spent)
  }

  /** The alert under the bar: none below 90%, "Budget exceeded!" from
      100%, otherwise "Close to budget limit". */
  function AlertMessage(percentage: real): (r: Option<string>)
    ensures r.None? <==> percentage < 90.0
    ensures r == Some("Budget exceeded!") <==> percentage >= 100.0
    ensures r == Some("Close to budget limit") <==> 90.0 <= percentage < 100.0
  {
    if percentage < 90.0 then None
    else if percentage >= 100.0 then Some("Budget exceeded!")
    else Some("Close to budget limit")
  }

  /** An alert is shown exactly when the bar is red; it says the budget is
      exceeded exactly when nothing remains. */
  lemma AlertAgreesWithBar(spent: real, limit: real)
    requires limit > 0.0
    ensures AlertMessage(ProgressPercentage(spent, limit)).Some? <==>
            ProgressColor(ProgressPercentage(spent, limit)) == "error"
    ensures AlertMessage(ProgressPercentage(spent, limit)) == Some("Budget exceeded!") <==>
            Remaining(limit, spent) == 0.0
  {
  }

  /** `b => b.category === name`. */
  function BudgetFor(name: string): Budget -> bool {
    (b: Budget) => b.category == name
  }

  /** `cat => !budgets.find(b => b.category === cat.name)`. */
  function Unbudgeted(budgets: seq<Budget>): Category -> bool {
    (c: Category) => FindIndex(budgets, BudgetFor(c.name)).None?
  }

  /** The drop-down of the add form: the expense categories (in stored
      order) that have no budget among this month's budgets. */
  function CategoryOptions(categories: seq<Category>, monthBudgets: seq<Budget>): seq<Category> {
    Filter(Filter(categories, OfKind(Expense)), Unbudgeted(monthBudgets))
  }

  /** A category is offered exactly when it is an expense category and no
      budget of the month carries its name. */
  lemma CategoryOptionsExact(categories: seq<Category>, monthBudgets: seq<Budget>, c: Category)
    ensures c in CategoryOptions(categories, monthBudgets) <==>
            c in categories && c.kind == Expense &&
            forall j :: 0 <= j < |monthBudgets| ==> monthBudgets[j].category != c.name
  {
    var expense := Filter(categories, OfKind(Expense));
    var r := Filter(expense, Unbudgeted(monthBudgets));
    if c in r {
      var i :| 0 <= i < |r| && r[i] == c;
      assert Unbudgeted(monthBudgets)(r[i]) && r[i] in expense;
      var k :| 0 <= k < |expense| && expense[k] == c;
      assert OfKind(Expense)(expense[k]) && expense[k] in categories;
    }
    if c in categories && c.kind == Expense &&
       forall j :: 0 <= j < |monthBudgets| ==> monthBudgets[j].category != c.name {
      var i :| 0 <= i < |categories| && categories[i] == c;
      assert OfKind(Expense)(categories[i]);
      assert c in expense;
      var k :| 0 <= k < |expense| && expense[k] == c;
      assert Unbudgeted(monthBudgets)(expense[k]);
    }
  }

  /** The add form's checks: both fields filled in, and a limit that parses
      to a positive number. */
  function ValidateBudget(category: string, limit: NumericInput): (r: Submitted<real>)
    ensures r.Accepted? <==> category != "" && limit.Entered? && limit.parsed.Some? && limit.parsed.value > 0.0
    ensures r.Accepted? ==> r.value == limit.parsed.value
    ensures r.Rejected? && (category == "" || limit.Blank?) ==> r.message == "Please fill in all fields"
    ensures r.Rejected? && category != "" && limit.Entered? ==> r.message == "Please enter a valid budget limit"
  {
    if category == "" || limit.Blank? then Rejected("Please fill in all fields")
    else if limit.parsed.None? || limit.parsed.value <= 0.0 then Rejected("Please enter a valid budget limit")
    else Accepted(limit.parsed.value)
  }

  /** `handleSubmit`: a rejected form leaves the store alone; an accepted one
      upserts the budget for the current month, whose year is the key's. */
  method HandleSubmit(store: BudgetStore, category: string, limit: NumericInput, currentMonth: MonthKey)
    returns (r: Submitted<Budget>)
    modifies store
    ensures ValidateBudget(category, limit).Rejected? ==>
              r == Rejected(ValidateBudget(category, limit).message) && store.budgets == old(store.budgets)
    ensures ValidateBudget(category, limit).Accepted? ==>
              var value := ValidateBudget(category, limit).value;
              r.Accepted? && r.value.monthlyLimit == value && value > 0.0 &&
              store.budgets == Upserted(old(store.budgets), category, value, currentMonth, currentMonth.year)
  {
    match ValidateBudget(category, limit)
    case Rejected(message) =>
      return Rejected(message);
    case Accepted(value) =>
      var saved := store.UpsertBudget(category, value, currentMonth, currentMonth.year);
      return Accepted(saved);
  }
}
