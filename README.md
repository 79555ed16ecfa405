# Personal finance tracker: stores and finance rules

This project models the core of a single-page personal finance tracker in
Dafny. The tracker keeps transactions, monthly budgets, savings goals and
categories in four in-memory stores. Its views derive figures from them:
monthly income and expenses, per-category spending, budget utilisation,
trailing 6- or 12-month series, and savings progress.

The model has two halves.

- **The stores** (`budget_service.dfy`, `transaction_service.dfy`,
  `savings_goal_service.dfy`, `category_service.dfy`).
  - Each service is a class with one `seq` field that its methods reassign, as the source's module-level array is pushed to, spliced and overwritten in place.
  - Every method's `ensures` gives the whole new array in terms of the old one, through pure functions of module `Table`: `NextId`, `FindById`, `DeleteById`, `Filter`, `SortBy`.
  - Lemmas prove what those functions promise: Ids stay unique, a delete removes exactly one record, an upsert keeps (category, month, year) keys unique, and no run of deletes removes a built-in category.
- **The finance rules of the views** (`aggregation.dfy`, `budget_manager.dfy`,
  `reports.dfy`, `dashboard.dfy`, `transaction_list.dfy`,
  `transaction_form.dfy`, `expense_pie_chart.dfy`,
  `spending_trend_chart.dfy`, `savings_goal_manager.dfy`).
  - Computations shared by several views are defined once, in module `Aggregation`: monthly totals, the trailing months and the per-category totals.
  - The loops of the source are methods proved against these functions: `getLastMonths` is `Aggregation.LastMonths`; the `reduce` into an accumulator object is `Aggregation.CategoryTotals`.

Conventions:

- **Amounts** are `real`.
- **Instants** are `int` milliseconds since the Unix epoch.
- **Month keys.** A month key is `MonthKey(year, month)`. `Base.MonthKeyOf` is the UTC calendar month of an instant, the `YYYY-MM` of `toISOString`.
- **Numeric form fields** are `Blank`, or `Entered` with the optional result of `parseFloat` (`None` for NaN).
- **Date form fields** are `BlankDate`, or `DateEntered` with the optional instant of `new Date(text)` (`None` for an invalid date).
- **Inputs from outside.** The clock, the current month and the text `formatDateInput` produces are parameters.

## Model

| member | source | states |
|---|---|---|
| Base.MonthAt | src/components/pages/Reports.jsx:84 | `new Date(year, month - i, 1)` lands on a valid month whose running index is exactly the requested one, so month arithmetic wraps across years |
| Base.MonthAtIndex | src/components/pages/Reports.jsx:84 | a valid month key is recovered from its running index |
| Base.CappedPercent | src/components/organisms/BudgetManager.jsx:94-96 | `min(part / whole * 100, 100)` is at most 100, is 100 exactly when part reaches whole, is the plain share below that, and is non-negative for a non-negative part |
| Base.CappedPercentMonotone | src/components/organisms/BudgetManager.jsx:94-96 | for a fixed positive whole the capped share never falls as the part grows |
| Base.CappedPercentThreshold | src/components/organisms/BudgetManager.jsx:98-102 | the capped share reaches a threshold t ≤ 100 exactly when part·100 ≥ t·whole |
| Table.FindById | src/services/api/budgetService.js:13-17 | `getById` finds a record carrying the Id, or none exactly when no record carries it; with unique Ids it is the only such record |
| Table.NextIdAsWritten | src/services/api/budgetService.js:21 | the Id rule as written: -Infinity exactly on an empty array, otherwise above every existing Id |
| Table.EmptyStoreHasNoNextId | src/services/api/budgetService.js:21 | on an empty array the written rule gives no integer Id |
| Table.NextId | src/services/api/budgetService.js:21 | the corrected rule: above every existing Id, one more than the largest, and 1 on an empty array |
| Table.NextIdAgreesWhenNonEmpty | src/services/api/budgetService.js:21 | on every non-empty array the corrected rule equals the written one |
| Table.AppendNextIdKeepsUnique | src/services/api/budgetService.js:19-28 | appending a record with the next Id keeps Ids unique, and `getById` then finds that record |
| Table.DeleteById | src/services/api/budgetService.js:39-46 | an absent Id leaves the array as it is; a present one splices out the first record with it, the others keeping their order |
| Table.DeleteByIdRemovesOnlyTarget | src/services/api/budgetService.js:39-46 | with unique Ids, no record with the deleted Id remains and the Ids stay unique |
| Table.FilterIsSubsequence | src/components/organisms/TransactionList.jsx:14 | `filter` keeps what it keeps in the input's order |
| Table.SortBy | src/services/api/transactionService.js:10 | the comparator sort returns a permutation of its input, ordered by the key |
| Table.Distinct | src/components/organisms/ExpensePieChart.jsx:33-42 | the accumulator's keys: each key of the input once, and nothing else |
| Table.DistinctInFirstOccurrenceOrder | src/components/organisms/ExpensePieChart.jsx:33-42 | the keys come in the order of their first occurrence: wherever a later key occurs, every earlier key has occurred before it |
| BudgetService.Merge | src/services/api/budgetService.js:35 | the shallow merge takes each field from the patch when given and keeps it otherwise; the Id is kept (a patch has no Id field) |
| BudgetService.MergeLaws | src/services/api/budgetService.js:35 | an empty patch changes nothing, and applying a patch twice equals applying it once |
| BudgetService.Upserted | src/services/api/budgetService.js:53-74 | with a budget for (category, month, year) only its limit changes; without one a budget with a fresh Id and those four fields is appended (corrected Id rule, see Findings) |
| BudgetService.UpsertKeepsKeysUnique | src/services/api/budgetService.js:53-74 | upserting keeps Ids and (category, month, year) keys unique, and the key's budget afterwards has the new limit |
| BudgetService.UpsertSameKeyTwice | src/services/api/budgetService.js:53-74 | upserting one key twice adds at most one budget, and the second call changes no Id |
| BudgetService.BudgetStore.constructor | src/services/api/budgetService.js:1-3 | the store starts as a copy of the seed array |
| BudgetService.BudgetStore.GetAll | src/services/api/budgetService.js:8-11 | returns the stored budgets, store unchanged |
| BudgetService.BudgetStore.GetById | src/services/api/budgetService.js:13-17 | the budget with the Id, or none exactly when absent |
| BudgetService.BudgetStore.Create | src/services/api/budgetService.js:19-28 | appends the input with the next Id; unique Ids stay unique (corrected Id rule, see Findings) |
| BudgetService.BudgetStore.Update | src/services/api/budgetService.js:30-37 | absent Id: none and no change; present: only that record is replaced by the merge, in place |
| BudgetService.BudgetStore.Delete | src/services/api/budgetService.js:39-46 | true and exactly that record spliced out, or false and no change |
| BudgetService.BudgetStore.GetByMonth | src/services/api/budgetService.js:48-51 | exactly the budgets of that month, in stored order |
| BudgetService.BudgetStore.UpsertBudget | src/services/api/budgetService.js:53-74 | the store becomes `Upserted` of the old one, and the returned budget has the key and the limit (corrected Id rule, see Findings) |
| TransactionService.NewTransaction | src/services/api/transactionService.js:19-29 | the created record copies the input's fields and adds the Id and `createdAt` |
| TransactionService.Merge | src/services/api/transactionService.js:36 | field-wise shallow merge; Id and `createdAt` kept (a patch has no such fields) |
| TransactionService.ByDateDescending | src/services/api/transactionService.js:10 | a permutation of the transactions, newest date first |
| TransactionService.TransactionStore.constructor | src/services/api/transactionService.js:1-3 | the store starts as a copy of the seed array |
| TransactionService.TransactionStore.GetAll | src/services/api/transactionService.js:8-11 | a permutation of the stored transactions, newest first, store unchanged |
| TransactionService.TransactionStore.GetById | src/services/api/transactionService.js:13-17 | the transaction with the Id, or none exactly when absent |
| TransactionService.TransactionStore.Create | src/services/api/transactionService.js:19-29 | appends `NewTransaction` with the next Id; unique Ids stay unique (corrected Id rule, see Findings) |
| TransactionService.TransactionStore.Update | src/services/api/transactionService.js:31-38 | absent Id: none and no change; present: that record alone is merged in place |
| TransactionService.TransactionStore.Delete | src/services/api/transactionService.js:40-47 | true and exactly that record removed, or false and no change |
| TransactionService.TransactionStore.GetByMonth | src/services/api/transactionService.js:49-55 | exactly the transactions whose UTC month is the key, in stored order |
| TransactionService.TransactionStore.GetByCategory | src/services/api/transactionService.js:57-60 | exactly the transactions of the category, in stored order |
| SavingsGoalService.NewGoal | src/services/api/savingsGoalService.js:19-29 | the created goal copies the input and adds the Id and `createdAt` |
| SavingsGoalService.Merge | src/services/api/savingsGoalService.js:36 | field-wise shallow merge; Id and `createdAt` kept (a patch has no such fields) |
| SavingsGoalService.Contributed | src/services/api/savingsGoalService.js:54 | the balance becomes max(0, balance + amount); no other field changes and there is no cap at the target |
| SavingsGoalService.PositiveContributionAdds | src/services/api/savingsGoalService.js:54 | a positive contribution to a non-negative balance adds exactly the amount, even past the target |
| SavingsGoalService.ByDeadline | src/services/api/savingsGoalService.js:10 | a permutation of the goals, earliest deadline first |
| SavingsGoalService.SavingsGoalStore.constructor | src/services/api/savingsGoalService.js:1-3 | the store starts as a copy of the seed array |
| SavingsGoalService.SavingsGoalStore.GetAll | src/services/api/savingsGoalService.js:8-11 | a permutation of the goals by deadline ascending, store unchanged |
| SavingsGoalService.SavingsGoalStore.GetById | src/services/api/savingsGoalService.js:13-17 | the goal with the Id, or none exactly when absent |
| SavingsGoalService.SavingsGoalStore.Create | src/services/api/savingsGoalService.js:19-29 | appends `NewGoal` with the next Id; unique Ids stay unique (corrected Id rule, see Findings) |
| SavingsGoalService.SavingsGoalStore.Update | src/services/api/savingsGoalService.js:31-38 | absent Id: none and no change; present: that goal alone is merged in place |
| SavingsGoalService.SavingsGoalStore.Delete | src/services/api/savingsGoalService.js:40-47 | true and exactly that goal removed, or false and no change |
| SavingsGoalService.SavingsGoalStore.UpdateAmount | src/services/api/savingsGoalService.js:49-56 | absent Id: none and no change; present: only that goal's balance changes, to `Contributed`, and it is non-negative |
| CategoryService.NewCategory | src/services/api/categoryService.js:19-29 | the created category copies name and type and is always custom |
| CategoryService.Merge | src/services/api/categoryService.js:36 | field-wise shallow merge; Id kept (a patch has no Id field) |
| CategoryService.Deleted | src/services/api/categoryService.js:40-47 | unchanged unless the Id is present and custom, then exactly that category is removed |
| CategoryService.DeleteKeepsBuiltIns | src/services/api/categoryService.js:43-45 | one delete leaves the list of built-in categories as it was |
| CategoryService.DeletesKeepBuiltIns | src/services/api/categoryService.js:40-47 | no sequence of deletes removes a built-in category |
| CategoryService.CategoryStore.constructor | src/services/api/categoryService.js:1-3 | the store starts as a copy of the seed array |
| CategoryService.CategoryStore.GetAll | src/services/api/categoryService.js:8-11 | returns the stored categories, store unchanged |
| CategoryService.CategoryStore.GetById | src/services/api/categoryService.js:13-17 | the category with the Id, or none exactly when absent |
| CategoryService.CategoryStore.Create | src/services/api/categoryService.js:19-29 | appends `NewCategory` with the next Id; unique Ids stay unique (corrected Id rule, see Findings) |
| CategoryService.CategoryStore.Update | src/services/api/categoryService.js:31-38 | absent Id: none and no change; present: that category alone is merged in place |
| CategoryService.CategoryStore.Delete | src/services/api/categoryService.js:40-47 | returns whether the category was present and custom, and the store becomes `Deleted` of the old one |
| CategoryService.CategoryStore.GetByType | src/services/api/categoryService.js:49-52 | exactly the categories of the type, in stored order |
| Aggregation.ExpenseTotal | src/components/pages/Dashboard.jsx:42-44 | the absolute value of the signed expense sum is never negative |
| Aggregation.IncomeTotalNonNegative | src/components/pages/Dashboard.jsx:38-40 | income of transactions whose sign agrees with their type is never negative |
| Aggregation.ExpenseTotalIsSumOfMagnitudes | src/components/pages/Dashboard.jsx:42-44 | for sign-agreeing transactions, the absolute value of the sum equals the sum of absolute values |
| Aggregation.IncomeTotal | src/components/pages/Dashboard.jsx:38-40 | the signed sum of the amounts of the income transactions |
| Aggregation.MonthCount | src/components/organisms/SpendingTrendChart.jsx:27 | 6 months exactly for "6months", otherwise 12 |
| Aggregation.MonthsEndingAt | src/components/pages/Reports.jsx:78-91 | n distinct, valid, consecutive months, oldest first, the last being the current month |
| Aggregation.LastMonths | src/components/pages/Reports.jsx:78-91 | the counting loop builds exactly `MonthsEndingAt`; the trend chart's copy of this loop (SpendingTrendChart.jsx lines 58-71) builds the same months |
| Aggregation.MonthTotalsIgnoreOrder | src/components/organisms/SpendingTrendChart.jsx:26-41 | a month's income and expenses are the same for any ordering of the transactions, so the sorted copy `getAll` returns gives the stored figures |
| Aggregation.MonthIncome | src/components/pages/Reports.jsx:42-49 | the income total of the transactions whose UTC month is the given one |
| Aggregation.MonthExpenses | src/components/pages/Reports.jsx:42-53 | the expense total (absolute value of the signed sum) of the transactions whose UTC month is the given one |
| Aggregation.MonthlyTotals | src/components/organisms/SpendingTrendChart.jsx:29-48 | one point per month, in order, with that month's income and non-negative expenses |
| Aggregation.IncomeSplitsByMonth | src/components/pages/Reports.jsx:42-49 | the incomes of distinct months add up to the income of the transactions dated in any of them |
| Aggregation.MonthlyIncomeAddsUp | src/components/organisms/SpendingTrendChart.jsx:29-37 | the trend chart's income series adds up to the income of its whole window |
| Aggregation.CategoryTotal | src/components/pages/Reports.jsx:67-71 | the accumulator's total for a category is never negative |
| Aggregation.CategoryTotalIsFilteredSum | src/components/organisms/BudgetManager.jsx:88-92 | the accumulator's total equals the filter-then-reduce sum of magnitudes of that category |
| Aggregation.AbsentCategoryTotalsZero | src/components/pages/Reports.jsx:67-71 | a category no transaction carries totals 0 |
| Aggregation.CategoryEntries | src/components/pages/Reports.jsx:64-74 | one entry per distinct category, in `Distinct`'s first-occurrence order, each with its total, no category twice, no negative amount |
| Aggregation.CategoryEntriesCoverCategories | src/components/pages/Reports.jsx:64-74 | every transaction's category has an entry |
| Aggregation.CategoryEntriesOnlyCategories | src/components/pages/Reports.jsx:64-74 | every entry is the category of some transaction |
| Aggregation.CategoryTotalsAddUp | src/components/organisms/ExpensePieChart.jsx:33-42 | the per-category totals add up to the sum of all magnitudes |
| Aggregation.CategoryEntriesAddUp | src/components/organisms/ExpensePieChart.jsx:33-42 | the entries' amounts add up to the sum of all magnitudes |
| Aggregation.Labels | src/components/organisms/ExpensePieChart.jsx:89 | one label per entry, its category, index for index |
| Aggregation.Series | src/components/organisms/ExpensePieChart.jsx:169 | one value per entry, its amount, index for index |
| Aggregation.CategoryTotals | src/components/organisms/ExpensePieChart.jsx:33-42 | the accumulator loop over a dictionary produces exactly `CategoryEntries` |
| BudgetManager.BudgetTransactions | src/components/organisms/BudgetManager.jsx:41-46 | `getByMonth` then the expense filter equals one filter keeping the month's expenses: in stored order, each record as often as stored, so `SpentAmount` counts each once |
| BudgetManager.SpentAmount | src/components/organisms/BudgetManager.jsx:88-92 | spent is the category's total of magnitudes, and never negative |
| BudgetManager.ProgressPercentageBounds | src/components/organisms/BudgetManager.jsx:94-96 | the bar is within 0..100, is 100 exactly when spent reaches the limit, and grows with spending |
| BudgetManager.ProgressPercentage | src/components/organisms/BudgetManager.jsx:94-96 | `Math.min(spent / limit * 100, 100)`, the capped share of the limit, for a positive limit |
| BudgetManager.ProgressColor | src/components/organisms/BudgetManager.jsx:98-102 | one of the three colours |
| BudgetManager.ColorTiers | src/components/organisms/BudgetManager.jsx:98-102 | "error" iff 90% of the limit is spent, "warning" iff 75% but not 90%, "success" iff under 75% |
| BudgetManager.Remaining | src/components/organisms/BudgetManager.jsx:185 | never negative, 0 exactly when spending reaches the limit, otherwise the unspent part |
| BudgetManager.AlertMessage | src/components/organisms/BudgetManager.jsx:225-229 | no alert below 90%, "Budget exceeded!" exactly from 100%, "Close to budget limit" exactly in between |
| BudgetManager.AlertAgreesWithBar | src/components/organisms/BudgetManager.jsx:225-229 | an alert shows exactly when the bar is red, and says "Budget exceeded!" exactly when nothing remains |
| BudgetManager.CategoryOptions | src/components/organisms/BudgetManager.jsx:136-137 | the expense categories, in stored order, that no budget of the month names |
| BudgetManager.CategoryOptionsExact | src/components/organisms/BudgetManager.jsx:136-137 | a category is offered iff it is an expense category with no budget this month |
| BudgetManager.ValidateBudget | src/components/organisms/BudgetManager.jsx:57-66 | accepted iff both fields are filled and the limit parses to a positive number, with each toast message on its own case |
| BudgetManager.HandleSubmit | src/components/organisms/BudgetManager.jsx:54-86 | rejected: store unchanged; accepted: the store becomes the upsert for the current month and its year |
| Reports.ReportRows | src/components/pages/Reports.jsx:39-62 | one row per month in order, with the month's income, non-negative expenses, and net = income − expenses |
| Reports.FilteredData | src/components/pages/Reports.jsx:39-41 | the rows for the months of the selected range |
| Reports.FilteredDataShape | src/components/pages/Reports.jsx:39-41 | 6 or 12 rows as the range says, for consecutive months ending with the current one |
| Reports.Summarize | src/components/pages/Reports.jsx:235-238 | totals are the column sums and each average times the number of rows is its total |
| Reports.TotalIncomeIsWindowIncome | src/components/pages/Reports.jsx:235 | the total income is the income of every transaction dated in the window, each counted once |
| Reports.TotalExpensesNonNegative | src/components/pages/Reports.jsx:236 | total expenses are never negative |
| Reports.CategoryBreakdown | src/components/pages/Reports.jsx:64-76 | a permutation of the expense categories' entries, sorted by amount, largest first |
| Reports.TopEntries | src/components/pages/Reports.jsx:180 | the first min(10, n) entries |
| Reports.TopEntriesAreLargest | src/components/pages/Reports.jsx:180-199 | no entry left off the chart is larger than one on it, and labels and values align |
| Dashboard.LoadDashboard | src/components/pages/Dashboard.jsx:31-53 | income and expenses of the current month, remaining + expenses = the month's total limits, and the overall savings progress |
| Dashboard.SavingsProgress | src/components/pages/Dashboard.jsx:49-53 | the summed balances over the summed targets, times 100, uncapped; 0 when the summed target is not positive |
| Dashboard.RemainingColor | src/components/pages/Dashboard.jsx:103 | "success" iff the remaining budget is non-negative, else "error" |
| Dashboard.RemainingBudgetSign | src/components/pages/Dashboard.jsx:46-47 | the remaining budget is negative exactly when the month's expenses exceed its total limits |
| Dashboard.SavingsProgressBounds | src/components/pages/Dashboard.jsx:49-53 | 0 without a positive target, never negative, and at least 100 exactly when balances cover targets |
| Dashboard.SavingsProgressUncapped | src/components/pages/Dashboard.jsx:49-53 | the progress is not capped: a goal at twice its target shows 200 |
| TransactionList.Lower | src/components/organisms/TransactionList.jsx:15-16 | same length, each letter lowered |
| TransactionList.LowerIdempotent | src/components/organisms/TransactionList.jsx:15-16 | lowering twice is lowering once |
| TransactionList.Includes | src/components/organisms/TransactionList.jsx:15-16 | `includes`: the term is a prefix of the string or of one of its suffixes |
| TransactionList.IncludesIff | src/components/organisms/TransactionList.jsx:15-16 | `includes` holds iff the term occurs at some position |
| TransactionList.IncludesEmpty | src/components/organisms/TransactionList.jsx:15-16 | every string includes the empty term |
| TransactionList.Shown | src/components/organisms/TransactionList.jsx:14-19 | the filter's test: the lowered description or category includes the lowered term, and the type filter is "all" or the transaction's type |
| TransactionList.Visible | src/components/organisms/TransactionList.jsx:14-19 | `filteredTransactions`: the transactions passing that test, in stored order |
| TransactionList.VisibleExact | src/components/organisms/TransactionList.jsx:14-19 | a transaction is listed iff it matches the search and the type filter, and the list is an ordered subsequence |
| TransactionList.SearchIgnoresCase | src/components/organisms/TransactionList.jsx:14-19 | a term and its lower-case form list the same transactions |
| TransactionList.EmptySearchShowsAll | src/components/organisms/TransactionList.jsx:14-19 | no term and "all" list every transaction |
| TransactionList.CategoryColor | src/components/organisms/TransactionList.jsx:32-54 | the table colour of a listed category, "#64748b" for any other |
| TransactionList.CategoryColorIsHex | src/components/organisms/TransactionList.jsx:32-54 | every badge colour is a well-formed `#rrggbb` |
| TransactionList.EmptyMessage | src/components/organisms/TransactionList.jsx:103-105 | "Try adjusting your search filters" exactly when a term is set or the type filter is not "all", otherwise "Add your first transaction to get started" |
| TransactionList.EmptyMessageIsHonest | src/components/organisms/TransactionList.jsx:103-105 | the "add your first transaction" hint shows on an empty list only when there are no transactions |
| TransactionForm.SignedFor | src/components/organisms/TransactionForm.jsx:65 | same magnitude, non-positive for an expense, non-negative for income |
| TransactionForm.Submit | src/components/organisms/TransactionForm.jsx:47-67 | accepted iff fields filled, amount positive and date valid; each toast on its case; accepted data keeps the fields and |amount| |
| TransactionForm.SubmittedSignAgrees | src/components/organisms/TransactionForm.jsx:65 | a submitted expense is negative, income positive, so a created transaction agrees in sign with its type |
| TransactionForm.FromTransaction | src/components/organisms/TransactionForm.jsx:26-36 | the form shows |amount| and the transaction's other fields |
| TransactionForm.EditRoundTrip | src/components/organisms/TransactionForm.jsx:29-65 | re-submitting an unchanged sign-agreeing transaction gives back its amount; a zero amount is refused |
| TransactionForm.Reset | src/components/organisms/TransactionForm.jsx:71-79 | blank amount, category and description, type expense |
| TransactionForm.AfterSave | src/components/organisms/TransactionForm.jsx:71-79 | kept while editing, reset after adding |
| TransactionForm.ResubmitAfterAddIsRejected | src/components/organisms/TransactionForm.jsx:71-79 | an immediate second submit after adding is refused |
| TransactionForm.ChangeType | src/components/organisms/TransactionForm.jsx:101-104 | the new type, no category, other fields kept |
| TransactionForm.ChangeTypeNeedsNewCategory | src/components/organisms/TransactionForm.jsx:101-104 | after a type change the form is refused until a category is picked |
| TransactionForm.SaveNew | src/components/organisms/TransactionForm.jsx:47-69 | refused: store unchanged; accepted: the new transaction appended, and sign agreement of the store preserved |
| ExpensePieChart.LoadChartData | src/components/organisms/ExpensePieChart.jsx:19-44 | the slices are `CategoryEntries` of the current month's expenses |
| ExpensePieChart.MonthExpenseTransactions | src/components/organisms/ExpensePieChart.jsx:24-26 | `getByMonth(currentMonth)` followed by the expense filter |
| ExpensePieChart.EmptyExactlyWithoutExpenses | src/components/organisms/ExpensePieChart.jsx:28-31 | no slices exactly when there are no expenses |
| ExpensePieChart.SliceForEveryCategory | src/components/organisms/ExpensePieChart.jsx:33-37 | each expense category of the month has a slice worth the sum of its magnitudes |
| ExpensePieChart.SlicesAddUp | src/components/organisms/ExpensePieChart.jsx:33-42 | the slices add up to the month's expense figure for sign-agreeing transactions |
| SpendingTrendChart.LoadChartData | src/components/organisms/SpendingTrendChart.jsx:21-56 | the points are the monthly totals of the stored transactions over the range's months |
| SpendingTrendChart.Columns | src/components/organisms/SpendingTrendChart.jsx:126 | x-axis, income and expense series of equal length, index-aligned with the points |
| SpendingTrendChart.ChartShape | src/components/organisms/SpendingTrendChart.jsx:179-188 | 6 or 12 points for consecutive months ending now, no negative expenses |
| SavingsGoalManager.AchievedExactly | src/components/organisms/SavingsGoalManager.jsx:121-123 | at most 100; achieved iff balance ≥ target iff nothing left to go; "to go" negative iff over target; stays achieved as balance grows |
| SavingsGoalManager.ProgressPercentage | src/components/organisms/SavingsGoalManager.jsx:121-123 | `Math.min(current / target * 100, 100)`, the capped share of the target, for a positive target |
| SavingsGoalManager.ToGo | src/components/organisms/SavingsGoalManager.jsx:259 | target minus balance, negative once the balance passes the target |
| SavingsGoalManager.DaysRemaining | src/components/organisms/SavingsGoalManager.jsx:125-131 | the ceiling of the whole days between now and the deadline |
| SavingsGoalManager.DaysRemainingUnique | src/components/organisms/SavingsGoalManager.jsx:129 | that ceiling is the only integer with the property |
| SavingsGoalManager.Overdue | src/components/organisms/SavingsGoalManager.jsx:210 | `isOverdue`: fewer than 0 days remaining |
| SavingsGoalManager.OverdueIff | src/components/organisms/SavingsGoalManager.jsx:210 | overdue iff a whole day has passed since the deadline |
| SavingsGoalManager.Label | src/components/organisms/SavingsGoalManager.jsx:223-229 | "(Overdue)" iff overdue, otherwise the days left |
| SavingsGoalManager.SoonIff | src/components/organisms/SavingsGoalManager.jsx:225-226 | the warning style iff the deadline is less than a day past and at most 30 days ahead |
| SavingsGoalManager.BarColor | src/components/organisms/SavingsGoalManager.jsx:264-270 | green iff achieved, red iff overdue and not achieved |
| SavingsGoalManager.SubmitGoal | src/components/organisms/SavingsGoalManager.jsx:47-67 | accepted iff fields filled, target positive and deadline valid; each toast on its case; a new goal starts at 0 |
| SavingsGoalManager.NewGoalStartsEmpty | src/components/organisms/SavingsGoalManager.jsx:65 | a goal created through the form shows 0% and is not achieved |
| SavingsGoalManager.CreateGoal | src/components/organisms/SavingsGoalManager.jsx:47-81 | refused: store unchanged; accepted: the goal appended with balance 0 |
| SavingsGoalManager.ValidateContribution | src/components/organisms/SavingsGoalManager.jsx:86-95 | accepted iff a goal is selected and the amount parses to a positive number, each toast on its case |
| SavingsGoalManager.HandleContribute | src/components/organisms/SavingsGoalManager.jsx:83-107 | refused: the toast's message and the store unchanged; accepted: `updateAmount` runs, the selected goal's balance becomes `Contributed` and the updated goal is returned, or nothing is returned and nothing changes when no goal has the Id; in every case the goals keep their number and all fields but the balance, and no balance goes down |

## Left out

- Simulated latency (`delay`), `async`/`await`, `Promise.all`, React state, toasts, `window.confirm`, loading and error flags: they carry no finance rule. The stores are synchronous methods.
- Chart configuration objects, label formatters, `toFixed`, `toLocaleString`, `toLocaleDateString` month labels and `formatCurrency`: presentation only. A trend point carries its month key in place of the label.
- Floating point: amounts are exact reals, so IEEE rounding in sums and percentages is not modelled.
- Seed JSON files: the stores take the initial array as a constructor argument.
- `formatDateInput` is not part of this model. The date text it produces, and the instant `new Date` parses from a form field, are parameters (`DateInput`).
- `getCurrentMonth` is not part of this model; the current month is a parameter.
- Create inputs carry no `Id` field, so the spread order that would let a caller's `Id` override the generated one is not modelled.
- BudgetService.Merge, TransactionService.Merge, SavingsGoalService.Merge, CategoryService.Merge and the four store `Update` methods: update patches carry no `Id` or `createdAt` field. The source's spread `{ ...record, ...patch }` would let a patch carrying one override the stored value, and a patched `Id` could break Id uniqueness (for example `update(1, { Id: 2 })` on a store holding Ids 1 and 2). The model promises that the Id and `createdAt` are kept and Ids stay unique only for patches without those fields; the transactions page, the one caller of `update`, passes the form's fields and no `Id`.
- The Transactions page that supplies `onSubmit` to the transaction form is not part of this model, beyond `TransactionForm.SaveNew` standing for its create path. Failures inside `onSubmit` are not modelled; only the invalid-date failure is.
- Aggregation.LastMonths: the source builds each month with the local-time `new Date(y, m - i, 1)` and reads its key in UTC. East of UTC that shifts every key back one month. The model takes the local zone to be UTC.
- Aggregation.CategoryTotals: `Object.entries` lists integer-like category names first; the model keeps insertion order for every name.
- TransactionService.ByDateDescending: `Array.prototype.sort` is stable, so records with equal dates keep their stored order; the contract states a permutation sorted newest first, not the order among equal dates.
- SavingsGoalService.ByDeadline: likewise states a permutation sorted by deadline, not the order among equal deadlines.
- Reports.CategoryBreakdown: states a permutation sorted largest first, not which of two equal amounts comes first.
- TransactionList.Lower: lowers ASCII letters only; full Unicode case mapping is not modelled.
- TransactionList.CategoryColor: on names inherited from `Object.prototype` (such as "constructor") the source returns an inherited function rather than a colour; the model returns the default colour.
- Shared records: `getAll` and `getByMonth` return shallow copies (`[...budgets]`) whose elements are the store's own objects, and `upsertBudget` (budgetService.js line 60) and `updateAmount` (savingsGoalService.js line 54) assign a field of the stored object. An array handed out earlier therefore sees the new `monthlyLimit` or `currentAmount`. The model returns values, so such aliasing is not captured.
- Aggregation.CategoryTotals: the source's accumulators `acc[category] || 0` (Reports.jsx line 69, ExpensePieChart.jsx line 35) read names inherited from `Object.prototype`, so a category named "constructor" starts from a function and its total becomes a string. The model starts every category at 0.
- Store `GetById`, `Update`, `Delete`: the source compares against `parseInt(id)`, so a string such as "3abc" finds record 3. The model takes the Id as an integer and does not model that coercion.
- TransactionForm.FromTransaction: assumes `parseFloat(x.toString())` gives back `x`.
- BudgetManager.ProgressPercentage: requires a positive limit. With a zero limit the source divides by zero (Infinity or NaN); the form never stores one.
- SavingsGoalManager.ProgressPercentage: requires a positive target, for the same reason.
- Reports.Summarize: requires at least one row; the report always has 6 or 12.
- SavingsGoalManager.HandleContribute: the source reports success even when `updateAmount` finds no goal (it returns `null`); the model returns that `None` without a message.

## Findings

| source | as written | input that shows it | evidently intended | confidence | as-written member | corrected member |
|---|---|---|---|---|---|---|
| src/services/api/budgetService.js:21 (also transactionService.js:21, savingsGoalService.js:21, categoryService.js:21, budgetService.js:63) | `Math.max(...ids) + 1` on an empty array is `-Infinity`, so the first record of an emptied store gets Id `-Infinity` | delete every budget, then `create` one | the first Id of an empty store is 1, and every new Id is above all existing ones | not executed | Table.NextIdAsWritten, Table.EmptyStoreHasNoNextId | Table.NextId, Table.NextIdAgreesWhenNonEmpty |
