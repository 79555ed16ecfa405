/** The budget service: an in-memory array of budgets keyed by `Id`, with
    `upsertBudget` keeping one budget per (category, month, year). */
module BudgetService {
  import opened Base
  import opened Table

  datatype Budget = Budget(id: int, category: string, monthlyLimit: real, month: MonthKey, year: int)

  /** What a caller hands to `create`: every field but the Id. */
  datatype BudgetData = BudgetData(category: string, monthlyLimit: real, month: MonthKey, year: int)
  {
    function WithId(id: int): Budget {
      Budget(id, category, monthlyLimit, month, year)
    }
  }

  /** A partial budget for `update`: a present field overwrites, an absent
      one is kept. */
  datatype BudgetPatch = BudgetPatch(category: Option<string>, monthlyLimit: Option<real>,
                                     month: Option<MonthKey>, year: Option<int>)

  function BudgetId(b: Budget): int {
    b.id
  }

  /** The shallow merge `{ ...b, ...p }`: only the fields present in the
      patch change, and the Id never does. */
  function Merge(b: Budget, p: BudgetPatch): (r: Budget)
    ensures r.id == b.id
    ensures r.category == (if p.category.Some? then p.category.value else b.category)
    ensures r.monthlyLimit == (if p.monthlyLimit.Some? then p.monthlyLimit.value else b.monthlyLimit)
    ensures r.month == (if p.month.Some? then p.month.value else b.month)
    ensures r.year == (if p.year.Some? then p.year.value else b.year)
  {
    b.(category := if p.category.Some? then p.category.value else b.category,
       monthlyLimit := if p.monthlyLimit.Some? then p.monthlyLimit.value else b.monthlyLimit,
       month := if p.month.Some? then p.month.value else b.month,
       year := if p.year.Some? then p.year.value else b.year)
  }

  /** An empty patch changes nothing, and merging a patch twice is merging
      it once. */
  lemma MergeLaws(b: Budget, p: BudgetPatch)
    ensures Merge(b, BudgetPatch(None, None, None, None)) == b
    ensures Merge(Merge(b, p), p) == Merge(b, p)
  {
  }

  /** `b => b.month === month`, the `getByMonth` test. */
  function InMonth(month: MonthKey): Budget -> bool {
    (b: Budget) => b.month == month
  }

  /** `b => b.category === category && b.month === month && b.year === year`,
      the `upsertBudget` test. */
  function HasKey(category: string, month: MonthKey, year: int): Budget -> bool {
    (b: Budget) => b.category == category && b.month == month && b.year == year
  }

  /** No two budgets share a (category, month, year) key. */
  predicate UniqueKeys(s: seq<Budget>) {
    forall i, j :: 0 <= i < j < |s| ==>
      !(s[i].category == s[j].category && s[i].month == s[j].month && s[i].year == s[j].year)
  }

  /** The array after `upsertBudget`: the first budget with the key gets the
      new limit, or a budget with a fresh Id is appended. */
  function Upserted(s: seq<Budget>, category: string, limit: real, month: MonthKey, year: int): (r: seq<Budget>)
    ensures FindIndex(s, HasKey(category, month, year)).Some? ==>
              var k := FindIndex(s, HasKey(category, month, year)).value;
              r == s[k := s[k].(monthlyLimit := limit)]
    ensures FindIndex(s, HasKey(category, month, year)).None? ==>
              r == s + [Budget(NextId(s, BudgetId), category, limit, month, year)]
  {
    match FindIndex(s, HasKey(category, month, year))
    case Some(k) => s[k := s[k].(monthlyLimit := limit)]
    case None => s + [Budget(NextId(s, BudgetId), category, limit, month, year)]
  }

  /** `upsertBudget` keeps both the Ids and the keys unique, and afterwards
      the key's budget carries the new limit. */
  lemma UpsertKeepsKeysUnique(s: seq<Budget>, category: string, limit: real, month: MonthKey, year: int)
    requires UniqueIds(s, BudgetId) && UniqueKeys(s)
    ensures UniqueIds(Upserted(s, category, limit, month, year), BudgetId)
    ensures UniqueKeys(Upserted(s, category, limit, month, year))
    ensures var r := Upserted(s, category, limit, month, year);
            var k := FindIndex(r, HasKey(category, month, year));
            k.Some? && r[k.value].monthlyLimit == limit
  {
    var r := Upserted(s, category, limit, month, year);
    match FindIndex(s, HasKey(category, month, year))
    case Some(k) =>
      ReplaceKeepingIdKeepsUnique(s, k, s[k].(monthlyLimit := limit), BudgetId);
      assert forall i :: 0 <= i < |s| ==> HasKey(category, month, year)(r[i]) == HasKey(category, month, year)(s[i]);
    case None =>
      var b := Budget(NextId(s, BudgetId), category, limit, month, year);
      AppendNextIdKeepsUnique(s, b, BudgetId);
      assert r[|s|] == b;
  }

  /** Upserting the same key twice adds at most one budget: the second call
      only changes the limit. */
  lemma UpsertSameKeyTwice(s: seq<Budget>, category: string, limit1: real, limit2: real,
                           month: MonthKey, year: int)
    ensures var once := Upserted(s, category, limit1, month, year);
            var twice := Upserted(once, category, limit2, month, year);
            |twice| == |once| <= |s| + 1 &&
            (forall i :: 0 <= i < |once| ==> twice[i].id == once[i].id)
  {
    var once := Upserted(s, category, limit1, month, year);
    match FindIndex(s, HasKey(category, month, year))
    case Some(k) =>
      assert HasKey(category, month, year)(once[k]);
    case None =>
      assert HasKey(category, month, year)(once[|s|]);
  }

  class BudgetStore {
    var budgets: seq<Budget>

    /** The store over its seed records. */
    constructor (seed: seq<Budget>)
      ensures budgets == seed
    {
      budgets := seed;
    }

    /** `getAll`: a copy of the array in stored order. */
    method GetAll() returns (r: seq<Budget>)
      ensures r == budgets
    {
      r := budgets;
    }

    /** `getById`: the record with that Id, or `null` when there is none. */
    method GetById(id: int) returns (r: Option<Budget>)
      ensures r.None? <==> forall i :: 0 <= i < |budgets| ==> budgets[i].id != id
      ensures r.Some? ==> r.value in budgets && r.value.id == id
      ensures UniqueIds(budgets, BudgetId) ==>
                forall i :: 0 <= i < |budgets| && budgets[i].id == id ==> r == Some(budgets[i])
    {
      r := FindById(budgets, BudgetId, id);
    }

    /** `create`: the new budget takes the next Id and is appended. */
    method Create(data: BudgetData) returns (r: Budget)
      modifies this
      ensures r == data.WithId(NextId(old(budgets), BudgetId))
      ensures budgets == old(budgets) + [r]
      ensures old(UniqueIds(budgets, BudgetId)) ==> UniqueIds(budgets, BudgetId)
    {
      var newId := NextId(budgets, BudgetId);
      r := data.WithId(newId);
      if UniqueIds(budgets, BudgetId) {
        AppendNextIdKeepsUnique(budgets, r, BudgetId);
      }
      budgets := budgets + [r];
    }

    /** `update`: `null` and no change for an absent Id; otherwise the patch
      is merged into that one record. */
    method Update(id: int, patch: BudgetPatch) returns (r: Option<Budget>)
      modifies this
      ensures match IndexOfId(old(budgets), BudgetId, id)
                case None => r == None && budgets == old(budgets)
                case Some(k) => budgets == old(budgets)[k := Merge(old(budgets)[k], patch)] &&
                                r == Some(budgets[k])
      ensures old(UniqueIds(budgets, BudgetId)) ==> UniqueIds(budgets, BudgetId)
    {
      var index := IndexOfId(budgets, BudgetId, id);
      if index.None? {
        return None;
      }
      var k := index.value;
      if UniqueIds(budgets, BudgetId) {
        ReplaceKeepingIdKeepsUnique(budgets, k, Merge(budgets[k], patch), BudgetId);
      }
      budgets := budgets[k := Merge(budgets[k], patch)];
      r := Some(budgets[k]);
    }

    /** `delete`: `false` and no change for an absent Id; otherwise that
      record is spliced out and `true` returned. */
    method Delete(id: int) returns (ok: bool)
      modifies this
      ensures ok == IndexOfId(old(budgets), BudgetId, id).Some?
      ensures budgets == DeleteById(old(budgets), BudgetId, id)
    {
      var index := IndexOfId(budgets, BudgetId, id);
      if index.None? {
        return false;
      }
      budgets := RemoveAt(budgets, index.value);
      ok := true;
    }

    /** `getByMonth`: the budgets of that month, in stored order. */
    method GetByMonth(month: MonthKey) returns (r: seq<Budget>)
      ensures r == Filter(budgets, InMonth(month))
    {
      r := Filter(budgets, InMonth(month));
    }

    /** `upsertBudget`: overwrite the limit of the budget with this key, or
      append a new budget; the returned copy carries the key and the limit. */
    method UpsertBudget(category: string, limit: real, month: MonthKey, year: int) returns (r: Budget)
      modifies this
      ensures budgets == Upserted(old(budgets), category, limit, month, year)
      ensures r in budgets && HasKey(category, month, year)(r) && r.monthlyLimit == limit
    {
      var existing := FindIndex(budgets, HasKey(category, month, year));
      if existing.Some? {
        var k := existing.value;
        budgets := budgets[k := budgets[k].(monthlyLimit := limit)];
        r := budgets[k];
      } else {
        var newId := NextId(budgets, BudgetId);
        r := Budget(newId, category, limit, month, year);
        budgets := budgets + [r];
      }
    }
  }
}
