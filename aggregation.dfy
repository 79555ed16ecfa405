/** The totals every finance view computes from transactions: income and
    expenses of a list, per calendar month and per category, and the window
    of the last few months the charts and reports cover. The views repeat
    these computations inline; here each is defined once. */
module Aggregation {
  import opened Base
  import opened Table
  import opened TransactionService

  predicate IsIncome(t: Transaction) {
    t.kind == Income
  }

  predicate IsExpense(t: Transaction) {
    t.kind == Expense
  }

  function SignedAmount(t: Transaction): real {
    t.amount
  }

  function Magnitude(t: Transaction): real {
    Abs(t.amount)
  }

  /** A transaction whose amount has the sign its kind calls for, as the
      transaction form stores it: income positive, expenses negative. */
  predicate SignAgrees(t: Transaction) {
    (t.kind == Income ==> t.amount >= 0.0) && (t.kind == Expense ==> t.amount <= 0.0)
  }

  /** `filter(type === "income").reduce((sum, t) => sum + t.amount, 0)`. */
  function IncomeTotal(txs: seq<Transaction>): real {
    SumBy(Filter(txs, IsIncome), SignedAmount)
  }

  /** `Math.abs(filter(type === "expense").reduce((sum, t) => sum + t.amount, 0))`:
      the magnitude of the signed expense sum. */
  function ExpenseTotal(txs: seq<Transaction>): (r: real)
    ensures r >= 0.0
  {
    Abs(SumBy(Filter(txs, IsExpense), SignedAmount))
  }

  /** Income of well-signed transactions is never negative. */
  lemma IncomeTotalNonNegative(txs: seq<Transaction>)
    requires forall i :: 0 <= i < |txs| ==> SignAgrees(txs[i])
    ensures IncomeTotal(txs) >= 0.0
  {
    var incomes := Filter(txs, IsIncome);
    forall i | 0 <= i < |incomes|
      ensures SignedAmount(incomes[i]) >= 0.0
    {
      assert IsIncome(incomes[i]) && incomes[i] in txs;
    }
    SumByNonNegative(incomes, SignedAmount);
  }

  /** When every expense is stored negative, the magnitude of the signed
      sum (the dashboard and trend figure) is the sum of the magnitudes
      (the category breakdown and budget figure). */
  lemma ExpenseTotalIsSumOfMagnitudes(txs: seq<Transaction>)
    requires forall i :: 0 <= i < |txs| ==> SignAgrees(txs[i])
    ensures ExpenseTotal(txs) == SumBy(Filter(txs, IsExpense), Magnitude)
  {
    var expenses := Filter(txs, IsExpense);
    forall i | 0 <= i < |expenses|
      ensures SignedAmount(expenses[i]) <= 0.0 && Magnitude(expenses[i]) == -SignedAmount(expenses[i])
    {
      assert IsExpense(expenses[i]) && expenses[i] in txs;
    }
    SumByNonPositive(expenses, SignedAmount, Magnitude);
  }

  /** `timeRange === "6months" ? 6 : 12`. */
  function MonthCount(timeRange: string): (n: nat)
    ensures n == 6 || n == 12
    ensures n == 6 <==> timeRange == "6months"
  {
    if timeRange == "6months" then 6 else 12
  }

  /** The `count` consecutive months ending with `now`, oldest first. */
  function MonthsEndingAt(now: MonthKey, count: nat): (r: seq<MonthKey>)
    ensures |r| == count
    ensures forall j :: 0 <= j < count ==>
              ValidMonth(r[j]) && MonthIndex(r[j]) == MonthIndex(now) - (count - 1) + j
    ensures forall i, j :: 0 <= i < j < count ==> r[i] != r[j]
    ensures ValidMonth(now) && count > 0 ==> r[count - 1] == now
  {
    var r := seq(count, j requires 0 <= j < count => MonthAt(MonthIndex(now) - (count - 1) + j));
    assert forall j :: 0 <= j < count ==> r[j] == MonthAt(MonthIndex(now) - (count - 1) + j);
    assert forall j :: 0 <= j < count ==> MonthIndex(r[j]) == MonthIndex(now) - (count - 1) + j;
    if ValidMonth(now) && count > 0 then MonthAtIndex(now); r else r
  }

  /** `getLastMonths(count)`: for `i` from `count - 1` down to 0, push the
      key of the month `i` months before the current one. */
  method LastMonths(now: MonthKey, count: nat) returns (months: seq<MonthKey>)
    ensures months == MonthsEndingAt(now, count)
  {
    months := [];
    var i: int := count - 1;
    while i >= 0
      invariant -1 <= i <= count - 1
      invariant months == MonthsEndingAt(now, count)[..count - 1 - i]
    {
      months := months + [MonthAt(MonthIndex(now) - i)];
      i := i - 1;
    }
  }

  /** Income of the transactions dated in `month`. */
  function MonthIncome(txs: seq<Transaction>, month: MonthKey): real {
    IncomeTotal(Filter(txs, InMonth(month)))
  }

  /** Expenses of the transactions dated in `month`. */
  function MonthExpenses(txs: seq<Transaction>, month: MonthKey): real {
    ExpenseTotal(Filter(txs, InMonth(month)))
  }

  /** The totals of a month do not depend on the order of the
      transactions, so the sorted copy `getAll` returns gives the same
      figures as the stored order. */
  lemma MonthTotalsIgnoreOrder(a: seq<Transaction>, b: seq<Transaction>, month: MonthKey)
    requires multiset(a) == multiset(b)
    ensures MonthIncome(a, month) == MonthIncome(b, month)
    ensures MonthExpenses(a, month) == MonthExpenses(b, month)
  {
    var ma, mb := Filter(a, InMonth(month)), Filter(b, InMonth(month));
    FilterPermutation(a, b, InMonth(month));
    FilterPermutation(ma, mb, IsIncome);
    SumByPermutation(Filter(ma, IsIncome), Filter(mb, IsIncome), SignedAmount);
    FilterPermutation(ma, mb, IsExpense);
    SumByPermutation(Filter(ma, IsExpense), Filter(mb, IsExpense), SignedAmount);
  }

  /** `month => MonthIncome(txs, month)`. */
  function IncomeByMonth(txs: seq<Transaction>): MonthKey -> real {
    (month: MonthKey) => MonthIncome(txs, month)
  }

  /** `t => months.includes(month of t)`. */
  function InAnyMonth(months: seq<MonthKey>): Transaction -> bool {
    (t: Transaction) => MonthKeyOf(t.date) in months
  }

  /** The totals of one month, as the trend chart and the report rows hold them. */
  datatype MonthTotals = MonthTotals(month: MonthKey, income: real, expenses: real)

  /** `months.map(month => ({ month, income, expenses }))`: one row per
      month, in the order of `months`. */
  function MonthlyTotals(txs: seq<Transaction>, months: seq<MonthKey>): (r: seq<MonthTotals>)
    ensures |r| == |months|
    ensures forall j :: 0 <= j < |r| ==>
              r[j].month == months[j] && r[j].expenses >= 0.0 &&
              r[j].income == MonthIncome(txs, months[j]) && r[j].expenses == MonthExpenses(txs, months[j])
  {
    seq(|months|, j requires 0 <= j < |months| =>
      MonthTotals(months[j], MonthIncome(txs, months[j]), MonthExpenses(txs, months[j])))
  }

  function RowIncome(row: MonthTotals): real {
    row.income
  }

  function RowExpenses(row: MonthTotals): real {
    row.expenses
  }

  /** Appending one transaction to a list filtered by `p` adds its amount
      to the income exactly when it passes `p` and is income. */
  lemma IncomeSnoc(txs: seq<Transaction>, t: Transaction, p: Transaction -> bool)
    ensures IncomeTotal(Filter(txs + [t], p)) ==
            IncomeTotal(Filter(txs, p)) + (if IsIncome(t) && p(t) then t.amount else 0.0)
  {
    FilterSnoc(txs, t, p);
    var kept := Filter(txs, p);
    if p(t) {
      assert Filter(txs + [t], p) == kept + [t];
      FilterSnoc(kept, t, IsIncome);
      if IsIncome(t) {
        assert Filter(kept + [t], IsIncome) == Filter(kept, IsIncome) + [t];
        SumBySnoc(Filter(kept, IsIncome), t, SignedAmount);
      } else {
        assert Filter(kept + [t], IsIncome) == Filter(kept, IsIncome);
      }
    } else {
      assert Filter(txs + [t], p) == kept;
    }
  }

  /** Adding up the income of distinct months gives the income of the
      transactions dated in any of them: a transaction is counted in
      exactly one month's total, or in none. */
  lemma {:induction false} IncomeSplitsByMonth(txs: seq<Transaction>, months: seq<MonthKey>)
    requires forall i, j :: 0 <= i < j < |months| ==> months[i] != months[j]
    ensures SumBy(months, IncomeByMonth(txs)) == IncomeTotal(Filter(txs, InAnyMonth(months)))
  {
    if txs == [] {
      SumByPointwise(months, IncomeByMonth(txs), months, (m: MonthKey) => 0.0);
      ZeroSum(months);
    } else {
      var init, t := txs[..|txs| - 1], txs[|txs| - 1];
      assert txs == init + [t];
      IncomeSplitsByMonth(init, months);
      var bump := if IsIncome(t) then t.amount else 0.0;
      var month := MonthKeyOf(t.date);
      forall i | 0 <= i < |months|
        ensures IncomeByMonth(txs)(months[i]) ==
                IncomeByMonth(init)(months[i]) + (if months[i] == month then bump else 0.0)
      {
        IncomeSnoc(init, t, InMonth(months[i]));
      }
      SumByBump(months, IncomeByMonth(init), IncomeByMonth(txs), month, bump);
      IncomeSnoc(init, t, InAnyMonth(months));
    }
  }

  lemma {:induction false} ZeroSum(months: seq<MonthKey>)
    ensures SumBy(months, (m: MonthKey) => 0.0) == 0.0
  {
    if months != [] {
      ZeroSum(months[..|months| - 1]);
    }
  }

  /** The income column of the monthly rows adds up to the income of the
      transactions dated anywhere in the window. */
  lemma MonthlyIncomeAddsUp(txs: seq<Transaction>, months: seq<MonthKey>)
    requires forall i, j :: 0 <= i < j < |months| ==> months[i] != months[j]
    ensures SumBy(MonthlyTotals(txs, months), RowIncome) == IncomeTotal(Filter(txs, InAnyMonth(months)))
  {
    SumByPointwise(MonthlyTotals(txs, months), RowIncome, months, IncomeByMonth(txs));
    IncomeSplitsByMonth(txs, months);
  }

  /** One slice of a per-category breakdown. */
  datatype CategoryAmount = CategoryAmount(category: string, amount: real)

  function CategoryOf(t: Transaction): string {
    t.category
  }

  function EntryCategory(e: CategoryAmount): string {
    e.category
  }

  function EntryAmount(e: CategoryAmount): real {
    e.amount
  }

  /** What the accumulator adds up for one category: `Math.abs(amount)`
      of each transaction of that category, left to right. */
  function CategoryTotal(txs: seq<Transaction>, category: string): (r: real)
    ensures r >= 0.0
  {
    if txs == [] then 0.0
    else
      var t := txs[|txs| - 1];
      CategoryTotal(txs[..|txs| - 1], category) + (if t.category == category then Abs(t.amount) else 0.0)
  }

  /** The accumulator's total for a category is the filter-then-reduce sum
      of magnitudes over that category's transactions. */
  lemma {:induction false} CategoryTotalIsFilteredSum(txs: seq<Transaction>, category: string)
    ensures CategoryTotal(txs, category) == SumBy(Filter(txs, InCategory(category)), Magnitude)
  {
    if txs != [] {
      var init, t := txs[..|txs| - 1], txs[|txs| - 1];
      assert txs == init + [t];
      CategoryTotalIsFilteredSum(init, category);
      SumByFilterSnoc(init, t, InCategory(category), Magnitude);
    }
  }

  /** `category => CategoryTotal(txs, category)`. */
  function TotalOf(txs: seq<Transaction>): string -> real {
    (category: string) => CategoryTotal(txs, category)
  }

  lemma CategoryTotalSnoc(txs: seq<Transaction>, t: Transaction, category: string)
    ensures CategoryTotal(txs + [t], category) ==
            CategoryTotal(txs, category) + (if t.category == category then Abs(t.amount) else 0.0)
  {
    assert (txs + [t])[..|txs|] == txs;
  }

  /** A category no transaction carries totals 0. */
  lemma {:induction false} AbsentCategoryTotalsZero(txs: seq<Transaction>, category: string)
    requires forall i :: 0 <= i < |txs| ==> txs[i].category != category
    ensures CategoryTotal(txs, category) == 0.0
  {
    if txs != [] {
      AbsentCategoryTotalsZero(txs[..|txs| - 1], category);
    }
  }

  /** The categories of `txs` with their totals, in the order in which each
      category first occurs: `Object.entries` of the `acc[category] =
      (acc[category] || 0) + Math.abs(amount)` accumulator. */
  function CategoryEntries(txs: seq<Transaction>): (r: seq<CategoryAmount>)
    ensures |r| == |Distinct(txs, CategoryOf)|
    ensures forall j :: 0 <= j < |r| ==>
              r[j].category == Distinct(txs, CategoryOf)[j] &&
              r[j].amount == CategoryTotal(txs, r[j].category)
    ensures forall i, j :: 0 <= i < j < |r| ==> r[i].category != r[j].category
    ensures forall j :: 0 <= j < |r| ==> r[j].amount >= 0.0
  {
    var categories := Distinct(txs, CategoryOf);
    seq(|categories|, j requires 0 <= j < |categories| =>
      CategoryAmount(categories[j], CategoryTotal(txs, categories[j])))
  }

  /** Every category the transactions carry has an entry. */
  lemma CategoryEntriesCoverCategories(txs: seq<Transaction>, i: nat)
    requires i < |txs|
    ensures exists j :: 0 <= j < |CategoryEntries(txs)| && CategoryEntries(txs)[j].category == txs[i].category
  {
    var categories := Distinct(txs, CategoryOf);
    assert CategoryOf(txs[i]) in categories;
    var j :| 0 <= j < |categories| && categories[j] == CategoryOf(txs[i]);
    assert CategoryEntries(txs)[j].category == txs[i].category;
  }

  /** Every entry names a category some transaction carries. */
  lemma CategoryEntriesOnlyCategories(txs: seq<Transaction>, j: nat)
    requires j < |CategoryEntries(txs)|
    ensures exists i :: 0 <= i < |txs| && txs[i].category == CategoryEntries(txs)[j].category
  {
    var categories := Distinct(txs, CategoryOf);
    var i :| 0 <= i < |txs| && CategoryOf(txs[i]) == categories[j];
    assert txs[i].category == CategoryEntries(txs)[j].category;
  }

  /** Adding up the per-category totals gives the sum of all magnitudes:
      every transaction lands in exactly one category. */
  lemma {:induction false} CategoryTotalsAddUp(txs: seq<Transaction>)
    ensures SumBy(Distinct(txs, CategoryOf), TotalOf(txs)) == SumBy(txs, Magnitude)
  {
    if txs != [] {
      var init, t := txs[..|txs| - 1], txs[|txs| - 1];
      assert txs == init + [t];
      CategoryTotalsAddUp(init);
      SumBySnoc(init, t, Magnitude);
      var d := Distinct(init, CategoryOf);
      DistinctSnoc(init, t, CategoryOf);
      TotalsBump(init, t, d);
      if t.category !in d {
        NewCategoryTotal(init, t);
        SumBySnoc(d, t.category, TotalOf(txs));
      }
    }
  }

  /** Over distinct categories, appending a transaction raises the summed
      totals by its magnitude when its category is among them. */
  lemma TotalsBump(init: seq<Transaction>, t: Transaction, categories: seq<string>)
    requires forall i, j :: 0 <= i < j < |categories| ==> categories[i] != categories[j]
    ensures SumBy(categories, TotalOf(init + [t])) ==
            SumBy(categories, TotalOf(init)) + (if t.category in categories then Abs(t.amount) else 0.0)
  {
    forall i | 0 <= i < |categories|
      ensures TotalOf(init + [t])(categories[i]) ==
              TotalOf(init)(categories[i]) + (if categories[i] == t.category then Abs(t.amount) else 0.0)
    {
      CategoryTotalSnoc(init, t, categories[i]);
    }
    SumByBump(categories, TotalOf(init), TotalOf(init + [t]), t.category, Abs(t.amount));
  }

  /** A chart's labels and series from per-category entries: the
      categories and the amounts, index for index. */
  function Labels(entries: seq<CategoryAmount>): (r: seq<string>)
    ensures |r| == |entries|
    ensures forall j :: 0 <= j < |r| ==> r[j] == entries[j].category
  {
    seq(|entries|, j requires 0 <= j < |entries| => entries[j].category)
  }

  function Series(entries: seq<CategoryAmount>): (r: seq<real>)
    ensures |r| == |entries|
    ensures forall j :: 0 <= j < |r| ==> r[j] == entries[j].amount
  {
    seq(|entries|, j requires 0 <= j < |entries| => entries[j].amount)
  }

  /** The total of a category that first occurs in the last transaction is
      that transaction's magnitude. */
  lemma NewCategoryTotal(init: seq<Transaction>, t: Transaction)
    requires t.category !in Distinct(init, CategoryOf)
    ensures CategoryTotal(init + [t], t.category) == Abs(t.amount)
  {
    forall i | 0 <= i < |init|
      ensures init[i].category != t.category
    {
      assert CategoryOf(init[i]) in Distinct(init, CategoryOf);
    }
    AbsentCategoryTotalsZero(init, t.category);
    CategoryTotalSnoc(init, t, t.category);
  }

  /** The entries' amounts add up to the sum of all magnitudes. */
  lemma CategoryEntriesAddUp(txs: seq<Transaction>)
    ensures SumBy(CategoryEntries(txs), EntryAmount) == SumBy(txs, Magnitude)
  {
    SumByPointwise(CategoryEntries(txs), EntryAmount, Distinct(txs, CategoryOf), TotalOf(txs));
    CategoryTotalsAddUp(txs);
  }

  /** What the category accumulator holds after the transactions `seen`:
      one key per category in order of first occurrence, each mapped to
      that category's total. */
  ghost predicate Accumulated(seen: seq<Transaction>, acc: map<string, real>, keys: seq<string>) {
    keys == Distinct(seen, CategoryOf) && SameKeys(acc, keys) && TotalsMatch(seen, acc)
  }

  /** The object's keys, in insertion order. */
  ghost predicate SameKeys(acc: map<string, real>, keys: seq<string>) {
    forall k :: k in acc <==> k in keys
  }

  ghost predicate TotalsMatch(seen: seq<Transaction>, acc: map<string, real>) {
    forall k :: k in acc ==> acc[k] == CategoryTotal(seen, k)
  }

  /** One step of `acc[category] = (acc[category] || 0) + Math.abs(amount)`
      keeps the accumulator in step with the transactions seen. */
  lemma AccumulateStep(seen: seq<Transaction>, t: Transaction, next: seq<Transaction>,
                        acc: map<string, real>, keys: seq<string>)
    requires Accumulated(seen, acc, keys) && next == seen + [t]
    ensures Accumulated(next,
                        acc[t.category := (if t.category in acc then acc[t.category] else 0.0) + Abs(t.amount)],
                        if t.category in keys then keys else keys + [t.category])
  {
    DistinctSnoc(seen, t, CategoryOf);
    TotalsStep(seen, t, acc);
  }

  lemma TotalsStep(seen: seq<Transaction>, t: Transaction, acc: map<string, real>)
    requires TotalsMatch(seen, acc)
    requires t.category !in acc ==> t.category !in Distinct(seen, CategoryOf)
    ensures TotalsMatch(seen + [t], acc[t.category := (if t.category in acc then acc[t.category] else 0.0) + Abs(t.amount)])
  {
    forall k | k in acc && k != t.category
      ensures CategoryTotal(seen + [t], k) == acc[k]
    {
      CategoryTotalSnoc(seen, t, k);
    }
    if t.category in acc {
      CategoryTotalSnoc(seen, t, t.category);
    } else {
      NewCategoryTotal(seen, t);
    }
  }

  /** `Object.entries(acc).map(([category, amount]) => ({ category, amount }))`,
      with the object's key order given by `keys`. */
  function EntriesOf(acc: map<string, real>, keys: seq<string>): (r: seq<CategoryAmount>)
    requires forall j :: 0 <= j < |keys| ==> keys[j] in acc
    ensures |r| == |keys|
    ensures forall j :: 0 <= j < |r| ==> r[j] == CategoryAmount(keys[j], acc[keys[j]])
  {
    seq(|keys|, j requires 0 <= j < |keys| => CategoryAmount(keys[j], acc[keys[j]]))
  }

  lemma EntriesOfAccumulated(txs: seq<Transaction>, acc: map<string, real>, keys: seq<string>)
    requires Accumulated(txs, acc, keys)
    ensures forall j :: 0 <= j < |keys| ==> keys[j] in acc
    ensures EntriesOf(acc, keys) == CategoryEntries(txs)
  {
    assert forall j :: 0 <= j < |keys| ==> keys[j] in acc;
    var r, e := EntriesOf(acc, keys), CategoryEntries(txs);
    assert |r| == |e|;
    forall j | 0 <= j < |r|
      ensures r[j] == e[j]
    {
      assert keys[j] in acc;
    }
  }

  /** The category accumulator: a JavaScript object from category to
      running total, whose key order is the order of first insertion; the
      result is `Object.entries` of it. */
  method CategoryTotals(txs: seq<Transaction>) returns (entries: seq<CategoryAmount>)
    ensures entries == CategoryEntries(txs)
  {
    var acc: map<string, real> := map[];
    var keys: seq<string> := [];
    for i := 0 to |txs|
      invariant Accumulated(txs[..i], acc, keys)
    {
      var t := txs[i];
      AccumulateStep(txs[..i], t, txs[..i + 1], acc, keys);
      acc := acc[t.category := (if t.category in acc then acc[t.category] else 0.0) + Abs(t.amount)];
      keys := if t.category in keys then keys else keys + [t.category];
    }
    assert txs[..|txs|] == txs;
    EntriesOfAccumulated(txs, acc, keys);
    entries := EntriesOf(acc, keys);
  }
}
