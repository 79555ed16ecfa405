/** The savings-goal service: an in-memory array of goals keyed by `Id`,
    listed by deadline, whose balance changes through `updateAmount`. */
module SavingsGoalService {
  import opened Base
  import opened Table

  /** A savings goal; `deadline` and `createdAt` are instants in
      milliseconds since the Unix epoch. */
  datatype SavingsGoal = SavingsGoal(id: int, title: string, targetAmount: real, currentAmount: real,
                                     deadline: int, createdAt: Option<int>)

  /** What a caller hands to `create`. */
  datatype GoalData = GoalData(title: string, targetAmount: real, currentAmount: real, deadline: int)

  /** A partial goal for `update`. */
  datatype GoalPatch = GoalPatch(title: Option<string>, targetAmount: Option<real>,
                                 currentAmount: Option<real>, deadline: Option<int>)

  function GoalId(g: SavingsGoal): int {
    g.id
  }

  /** `{ Id: id, ...data, createdAt: now }`. */
  function NewGoal(id: int, data: GoalData, now: int): (g: SavingsGoal)
    ensures g.id == id && g.createdAt == Some(now)
    ensures g.title == data.title && g.targetAmount == data.targetAmount
    ensures g.currentAmount == data.currentAmount && g.deadline == data.deadline
  {
    SavingsGoal(id, data.title, data.targetAmount, data.currentAmount, data.deadline, Some(now))
  }

  /** The shallow merge `{ ...g, ...p }`: only the fields present in the
      patch change; the Id and `createdAt` never do. */
  function Merge(g: SavingsGoal, p: GoalPatch): (r: SavingsGoal)
    ensures r.id == g.id && r.createdAt == g.createdAt
    ensures r.title == (if p.title.Some? then p.title.value else g.title)
    ensures r.targetAmount == (if p.targetAmount.Some? then p.targetAmount.value else g.targetAmount)
    ensures r.currentAmount == (if p.currentAmount.Some? then p.currentAmount.value else g.currentAmount)
    ensures r.deadline == (if p.deadline.Some? then p.deadline.value else g.deadline)
  {
    g.(title := if p.title.Some? then p.title.value else g.title,
       targetAmount := if p.targetAmount.Some? then p.targetAmount.value else g.targetAmount,
       currentAmount := if p.currentAmount.Some? then p.currentAmount.value else g.currentAmount,
       deadline := if p.deadline.Some? then p.deadline.value else g.deadline)
  }

  /** The goal after `updateAmount(id, amount)`: the balance moves by
      `amount` but never below 0. There is no upper clamp at the target. */
  function Contributed(g: SavingsGoal, amount: real): (r: SavingsGoal)
    ensures r.currentAmount >= 0.0
    ensures r.currentAmount >= g.currentAmount + amount
    ensures g.currentAmount + amount >= 0.0 ==> r.currentAmount == g.currentAmount + amount
    ensures g.currentAmount + amount < 0.0 ==> r.currentAmount == 0.0
    ensures r == g.(currentAmount := r.currentAmount)
  {
    g.(currentAmount := Max(0.0, g.currentAmount + amount))
  }

  /** A positive contribution to a goal with a non-negative balance raises
      the balance by exactly that amount, even past the target. */
  lemma PositiveContributionAdds(g: SavingsGoal, amount: real)
    requires g.currentAmount >= 0.0 && amount > 0.0
    ensures Contributed(g, amount).currentAmount == g.currentAmount + amount
    ensures Contributed(g, amount).currentAmount > g.currentAmount
  {
  }

  /** The `getAll` comparator `new Date(a.deadline) - new Date(b.deadline)`. */
  function EarliestFirst(g: SavingsGoal): real {
    g.deadline as real
  }

  /** `getAll`: the goals ordered by deadline, earliest first. */
  function ByDeadline(s: seq<SavingsGoal>): (r: seq<SavingsGoal>)
    ensures multiset(r) == multiset(s)
    ensures forall i, j :: 0 <= i < j < |r| ==> r[i].deadline <= r[j].deadline
  {
    var r := SortBy(s, EarliestFirst);
    assert forall i, j :: 0 <= i < j < |r| ==> EarliestFirst(r[i]) <= EarliestFirst(r[j]);
    r
  }

  class SavingsGoalStore {
    var goals: seq<SavingsGoal>

    /** The store over its seed records. */
    constructor (seed: seq<SavingsGoal>)
      ensures goals == seed
    {
      goals := seed;
    }

    /** `getAll`: a sorted copy, earliest deadline first. */
    method GetAll() returns (r: seq<SavingsGoal>)
      ensures multiset(r) == multiset(goals)
      ensures forall i, j :: 0 <= i < j < |r| ==> r[i].deadline <= r[j].deadline
    {
      r := ByDeadline(goals);
    }

    /** `getById`: the record with that Id, or `null` when there is none. */
    method GetById(id: int) returns (r: Option<SavingsGoal>)
      ensures r.None? <==> forall i :: 0 <= i < |goals| ==> goals[i].id != id
      ensures r.Some? ==> r.value in goals && r.value.id == id
      ensures UniqueIds(goals, GoalId) ==>
                forall i :: 0 <= i < |goals| && goals[i].id == id ==> r == Some(goals[i])
    {
      r := FindById(goals, GoalId, id);
    }

    /** `create`: the new goal takes the next Id and the creation time
      `now`, and is appended. */
    method Create(data: GoalData, now: int) returns (r: SavingsGoal)
      modifies this
      ensures r == NewGoal(NextId(old(goals), GoalId), data, now)
      ensures goals == old(goals) + [r]
      ensures old(UniqueIds(goals, GoalId)) ==> UniqueIds(goals, GoalId)
    {
      var newId := NextId(goals, GoalId);
      r := NewGoal(newId, data, now);
      if UniqueIds(goals, GoalId) {
        AppendNextIdKeepsUnique(goals, r, GoalId);
      }
      goals := goals + [r];
    }

    /** `update`: `null` and no change for an absent Id; otherwise the patch
      is merged into that one record. */
    method Update(id: int, patch: GoalPatch) returns (r: Option<SavingsGoal>)
      modifies this
      ensures match IndexOfId(old(goals), GoalId, id)
                case None => r == None && goals == old(goals)
                case Some(k) => goals == old(goals)[k := Merge(old(goals)[k], patch)] &&
                                r == Some(goals[k])
      ensures old(UniqueIds(goals, GoalId)) ==> UniqueIds(goals, GoalId)
    {
      var index := IndexOfId(goals, GoalId, id);
      if index.None? {
        return None;
      }
      var k := index.value;
      if UniqueIds(goals, GoalId) {
        ReplaceKeepingIdKeepsUnique(goals, k, Merge(goals[k], patch), GoalId);
      }
      goals := goals[k := Merge(goals[k], patch)];
      r := Some(goals[k]);
    }

    /** `delete`: `false` and no change for an absent Id; otherwise that
      record is spliced out and `true` returned. */
    method Delete(id: int) returns (ok: bool)
      modifies this
      ensures ok == IndexOfId(old(goals), GoalId, id).Some?
      ensures goals == DeleteById(old(goals), GoalId, id)
    {
      var index := IndexOfId(goals, GoalId, id);
      if index.None? {
        return false;
      }
      goals := RemoveAt(goals, index.value);
      ok := true;
    }

    /** `updateAmount`: `null` and no change for an absent Id; otherwise the
      balance of that one goal becomes `max(0, balance + amount)`. */
    method UpdateAmount(id: int, amount: real) returns (r: Option<SavingsGoal>)
      modifies this
      ensures match IndexOfId(old(goals), GoalId, id)
                case None => r == None && goals == old(goals)
                case Some(k) => goals == old(goals)[k := Contributed(old(goals)[k], amount)] &&
                                r == Some(goals[k])
      ensures r.Some? ==> r.value.currentAmount >= 0.0
      ensures old(UniqueIds(goals, GoalId)) ==> UniqueIds(goals, GoalId)
    {
      var index := IndexOfId(goals, GoalId, id);
      if index.None? {
        return None;
      }
      var k := index.value;
      var updated := goals[k].(currentAmount := Max(0.0, goals[k].currentAmount + amount));
      if UniqueIds(goals, GoalId) {
        ReplaceKeepingIdKeepsUnique(goals, k, updated, GoalId);
      }
      goals := goals[k := updated];
      r := Some(goals[k]);
    }
  }
}
