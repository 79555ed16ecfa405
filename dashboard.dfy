/** The dashboard: this month's income and expenses, the budget left after
    this month's expenses, and the overall savings progress. */
module Dashboard {
  import opened Base
  import opened Table
  import opened TransactionService
  import opened BudgetService
  import opened SavingsGoalService
  import opened Aggregation

  datatype DashboardData = DashboardData(monthlyIncome: real, monthlyExpenses: real,
                                         remainingBudget: real, savingsProgress: real)

  function BudgetLimit(b: Budget): real {
    b.monthlyLimit
  }

  function GoalTarget(g: SavingsGoal): real {
    g.targetAmount
  }

  function GoalCurrent(g: SavingsGoal): real {
    g.currentAmount
  }

  /** `totalSavingsTarget > 0 ? (totalSavingsCurrent / totalSavingsTarget) * 100 : 0`,
      summed over all goals and not capped. */
  function SavingsProgress(goals: seq<SavingsGoal>): real {
    var target := SumBy(goals, GoalTarget);
    var current := SumBy(goals, GoalCurrent);
    if target > 0.0 then current / target * 100.0 else 0.0
  }

  /** `loadDashboardData`: the figures over the month's transactions and
      budgets (`getByMonth(currentMonth)`) and all goals. The remaining
      budget is not clamped. */
  function LoadDashboard(transactions: seq<Transaction>, budgets: seq<Budget>, goals: seq<SavingsGoal>,
                         currentMonth: MonthKey): (d: DashboardData)
    ensures d.monthlyIncome == MonthIncome(transactions, currentMonth)
    ensures d.monthlyExpenses == MonthExpenses(transactions, currentMonth) && d.monthlyExpenses >= 0.0
    ensures d.remainingBudget + d.monthlyExpenses == SumBy(Filter(budgets, BudgetService.InMonth(currentMonth)), BudgetLimit)
    ensures d.savingsProgress == SavingsProgress(goals)
  {
    var monthTransactions := Filter(transactions, TransactionService.InMonth(currentMonth));
    var monthBudgets := Filter(budgets, BudgetService.InMonth(currentMonth));
    var income := IncomeTotal(monthTransactions);
    var expenses := ExpenseTotal(monthTransactions);
    DashboardData(income, expenses, SumBy(monthBudgets, BudgetLimit) - expenses, SavingsProgress(goals))
  }

  /** The budget card is green when the remaining budget is non-negative. */
  function RemainingColor(d: DashboardData): (r: string)
    ensures r == "success" <==> d.remainingBudget >= 0.0
    ensures r == "success" || r == "error"
  {
    if d.remainingBudget >= 0.0 then "success" else "error"
  }

  /** The remaining budget goes negative exactly when this month's expenses
      exceed the month's total limit; expenses in categories without a
      budget count against it too. */
  lemma RemainingBudgetSign(transactions: seq<Transaction>, budgets: seq<Budget>, goals: seq<SavingsGoal>,
                            currentMonth: MonthKey)
    ensures var d := LoadDashboard(transactions, budgets, goals, currentMonth);
            RemainingColor(d) == "error" <==>
            MonthExpenses(transactions, currentMonth) > SumBy(Filter(budgets, BudgetService.InMonth(currentMonth)), BudgetLimit)
  {
  }

  /** With no target at all the progress is 0; with non-negative balances
      it is never negative; it reaches 100 exactly when the balances cover
      the targets, and it can pass 100. */
  lemma SavingsProgressBounds(goals: seq<SavingsGoal>)
    requires forall i :: 0 <= i < |goals| ==> goals[i].currentAmount >= 0.0
    ensures SumBy(goals, GoalTarget) <= 0.0 ==> SavingsProgress(goals) == 0.0
    ensures SavingsProgress(goals) >= 0.0
    ensures SumBy(goals, GoalTarget) > 0.0 ==>
              (SavingsProgress(goals) >= 100.0 <==> SumBy(goals, GoalCurrent) >= SumBy(goals, GoalTarget))
  {
    SumByNonNegative(goals, GoalCurrent);
    var target := SumBy(goals, GoalTarget);
    var current := SumBy(goals, GoalCurrent);
    if target > 0.0 {
      var progress := current / target * 100.0;
      assert progress * target == current * 100.0;
      if progress >= 100.0 {
        assert progress * target >= 100.0 * target;
      } else {
        assert progress * target < 100.0 * target;
      }
    }
  }

  /** Progress is not capped: one goal at twice its target shows 200. */
  lemma SavingsProgressUncapped(g: SavingsGoal)
    requires g.targetAmount == 100.0 && g.currentAmount == 200.0
    ensures SavingsProgress([g]) == 200.0
  {
    assert [g][..0] == [];
    assert SumBy([g], GoalTarget) == 100.0;
    assert SumBy([g], GoalCurrent) == 200.0;
  }
}
