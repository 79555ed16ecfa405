/** The savings goals view: each goal's progress bar, days left and
    deadline label, the new-goal form and the contribution form. */
module SavingsGoalManager {
  import opened Base
  import opened Table
  import opened SavingsGoalService

  /** `getProgressPercentage(current, target)`. */
  function ProgressPercentage(current: real, target: real): real
    requires target > 0.0
  {
    CappedPercent(current, target)
  }

  /** The "Goal achieved!" banner and the green bar. */
  predicate Achieved(percentage: real) {
    percentage >= 100.0
  }

  /** `targetAmount - currentAmount`, shown as "to go"; negative once the
      balance passes the target. */
  function ToGo(g: SavingsGoal): real {
    g.targetAmount - g.currentAmount
  }

  /** For a positive target: the bar never passes 100, a goal is achieved
      exactly when its balance reaches the target, that is exactly when
      nothing is left to go, and it stays achieved as the balance grows. */
  lemma AchievedExactly(g: SavingsGoal, larger: real)
    requires g.targetAmount > 0.0
    ensures ProgressPercentage(g.currentAmount, g.targetAmount) <= 100.0
    ensures Achieved(ProgressPercentage(g.currentAmount, g.targetAmount)) <==> g.currentAmount >= g.targetAmount
    ensures Achieved(ProgressPercentage(g.currentAmount, g.targetAmount)) <==> ToGo(g) <= 0.0
    ensures ToGo(g) < 0.0 <==> g.currentAmount > g.targetAmount
    ensures larger >= g.currentAmount && Achieved(ProgressPercentage(g.currentAmount, g.targetAmount)) ==>
              Achieved(ProgressPercentage(larger, g.targetAmount))
  {
    if larger >= g.currentAmount {
      CappedPercentMonotone(g.currentAmount, larger, g.targetAmount);
    }
  }

  /** `getDaysRemaining(deadline)` at instant `now`:
      `Math.ceil((deadline - now) / day)`, the whole days rounded up. */
  function DaysRemaining(deadline: int, now: int): (days: int)
    ensures (days - 1) * MsPerDay < deadline - now <= days * MsPerDay
  {
    var q := (now - deadline) / MsPerDay;
    assert q * MsPerDay <= now - deadline < q * MsPerDay + MsPerDay;
    -q
  }

  /** The ceiling is the only whole number of days with that property. */
  lemma DaysRemainingUnique(deadline: int, now: int, days: int)
    requires (days - 1) * MsPerDay < deadline - now <= days * MsPerDay
    ensures days == DaysRemaining(deadline, now)
  {
    var d := DaysRemaining(deadline, now);
    if days < d {
      assert false;
    } else if days > d {
      assert false;
    }
  }

  /** `isOverdue`: `daysRemaining < 0`. */
  predicate Overdue(deadline: int, now: int) {
    DaysRemaining(deadline, now) < 0
  }

  /** A goal becomes overdue only once a whole day has passed since its
      deadline; on the deadline's last day it still shows 0 days left. */
  lemma OverdueIff(deadline: int, now: int)
    ensures Overdue(deadline, now) <==> deadline - now <= -MsPerDay
    ensures !Overdue(deadline, now) && now >= deadline ==> DaysRemaining(deadline, now) == 0
  {
    var days := DaysRemaining(deadline, now);
    if days >= 1 {
      assert MsPerDay <= days * MsPerDay;
    }
  }

  /** The text after the target date. */
  datatype DeadlineLabel = OverdueLabel | SoonLabel(days: int) | DaysLeftLabel(days: int)

  /** "(Overdue)", a warning-coloured "(n days left)" up to 30 days, or a
      plain "(n days left)". */
  function Label(deadline: int, now: int): (l: DeadlineLabel)
    ensures l.OverdueLabel? <==> Overdue(deadline, now)
    ensures !l.OverdueLabel? ==> l.days == DaysRemaining(deadline, now)
  {
    var days := DaysRemaining(deadline, now);
    if days < 0 then OverdueLabel
    else if days <= 30 then SoonLabel(days)
    else DaysLeftLabel(days)
  }

  /** The warning style is shown exactly while the deadline is less than a
      day past and at most 30 days ahead. */
  lemma SoonIff(deadline: int, now: int)
    ensures Label(deadline, now).SoonLabel? <==> -MsPerDay < deadline - now <= 30 * MsPerDay
  {
    var days := DaysRemaining(deadline, now);
    OverdueIff(deadline, now);
    if days > 30 {
      assert 30 * MsPerDay <= (days - 1) * MsPerDay;
    } else {
      assert days * MsPerDay <= 30 * MsPerDay;
    }
  }

  /** The bar's colour: green once achieved, red when overdue, blue
      otherwise. */
  function BarColor(percentage: real, overdue: bool): (c: string)
    ensures c == "success" <==> Achieved(percentage)
    ensures c == "error" <==> !Achieved(percentage) && overdue
    ensures c == "success" || c == "error" || c == "primary"
  {
    if percentage >= 100.0 then "success"
    else if overdue then "error"
    else "primary"
  }

  /** The new-goal form. */
  datatype GoalForm = GoalForm(title: string, targetAmount: NumericInput, deadline: DateInput)

  /** `handleSubmit` up to `savingsGoalService.create`: every field filled
      in, a positive target, and a deadline that converts to an ISO string
      (an invalid one throws inside the `try`). A new goal starts at 0. */
  function SubmitGoal(form: GoalForm): (r: Submitted<GoalData>)
    ensures r.Accepted? <==>
              form.title != "" && form.targetAmount.Entered? && form.deadline.DateEntered? &&
              form.targetAmount.parsed.Some? && form.targetAmount.parsed.value > 0.0 && form.deadline.parsed.Some?
    ensures (form.title == "" || form.targetAmount.Blank? || form.deadline.BlankDate?) ==>
              r == Rejected("Please fill in all fields")
    ensures form.title != "" && form.targetAmount.Entered? && form.deadline.DateEntered? &&
            (form.targetAmount.parsed.None? || form.targetAmount.parsed.value <= 0.0) ==>
              r == Rejected("Please enter a valid target amount")
    ensures form.title != "" && form.targetAmount.Entered? && form.deadline.DateEntered? &&
            form.targetAmount.parsed.Some? && form.targetAmount.parsed.value > 0.0 && form.deadline.parsed.None? ==>
              r == Rejected("Failed to create savings goal")
    ensures r.Rejected? ==>
              r.message in {"Please fill in all fields", "Please enter a valid target amount", "Failed to create savings goal"}
    ensures r.Accepted? ==>
              r.value == GoalData(form.title, form.targetAmount.parsed.value, 0.0, form.deadline.parsed.value)
  {
    if form.title == "" || form.targetAmount.Blank? || form.deadline.BlankDate? then
      Rejected("Please fill in all fields")
    else if form.targetAmount.parsed.None? || form.targetAmount.parsed.value <= 0.0 then
      Rejected("Please enter a valid target amount")
    else if form.deadline.parsed.None? then
      Rejected("Failed to create savings goal")
    else
      Accepted(GoalData(form.title, form.targetAmount.parsed.value, 0.0, form.deadline.parsed.value))
  }

  /** A goal created through the form starts at 0% and is not achieved. */
  lemma NewGoalStartsEmpty(form: GoalForm, id: int, now: int)
    requires SubmitGoal(form).Accepted?
    ensures var g := NewGoal(id, SubmitGoal(form).value, now);
            g.currentAmount == 0.0 && g.targetAmount > 0.0 &&
            ProgressPercentage(g.currentAmount, g.targetAmount) == 0.0 &&
            !Achieved(ProgressPercentage(g.currentAmount, g.targetAmount)) && ToGo(g) == g.targetAmount
  {
  }

  /** The new-goal form against the store: a refused form changes nothing;
      an accepted one appends the new goal. */
  method CreateGoal(store: SavingsGoalStore, form: GoalForm, now: int) returns (r: Submitted<SavingsGoal>)
    modifies store
    ensures SubmitGoal(form).Rejected? ==>
              r == Rejected(SubmitGoal(form).message) && store.goals == old(store.goals)
    ensures SubmitGoal(form).Accepted? ==>
              r.Accepted? && r.value.currentAmount == 0.0 &&
              r.value == NewGoal(NextId(old(store.goals), GoalId), SubmitGoal(form).value, now) &&
              store.goals == old(store.goals) + [r.value]
  {
    match SubmitGoal(form)
    case Rejected(message) =>
      return Rejected(message);
    case Accepted(data) =>
      var created := store.Create(data, now);
      return Accepted(created);
  }

  /** A validated contribution: the selected goal's Id and a positive amount. */
  datatype Contribution = Contribution(goalId: int, amount: real)

  /** `handleContribute` up to `updateAmount`: a goal selected and an amount
      entered, then an amount that parses to a positive number. */
  function ValidateContribution(selectedGoal: Option<int>, amount: NumericInput): (r: Submitted<Contribution>)
    ensures r.Accepted? <==>
              selectedGoal.Some? && amount.Entered? && amount.parsed.Some? && amount.parsed.value > 0.0
    ensures (selectedGoal.None? || amount.Blank?) ==> r == Rejected("Please enter a contribution amount")
    ensures selectedGoal.Some? && amount.Entered? && (amount.parsed.None? || amount.parsed.value <= 0.0) ==>
              r == Rejected("Please enter a valid amount")
    ensures r.Accepted? ==> r.value == Contribution(selectedGoal.value, amount.parsed.value) && r.value.amount > 0.0
  {
    if selectedGoal.None? || amount.Blank? then Rejected("Please enter a contribution amount")
    else if amount.parsed.None? || amount.parsed.value <= 0.0 then Rejected("Please enter a valid amount")
    else Accepted(Contribution(selectedGoal.value, amount.parsed.value))
  }

  /** The contribution form against the store. A refused form changes
      nothing; an accepted one runs `updateAmount`. Either way the number
      of goals, their Ids and every field but the balance stay as they
      were, and no balance goes down: the view can only add savings. */
  method HandleContribute(store: SavingsGoalStore, selectedGoal: Option<int>, amount: NumericInput)
    returns (r: Submitted<Option<SavingsGoal>>)
    modifies store
    ensures ValidateContribution(selectedGoal, amount).Rejected? ==>
              r == Rejected(ValidateContribution(selectedGoal, amount).message) && store.goals == old(store.goals)
    ensures ValidateContribution(selectedGoal, amount).Accepted? ==>
              var c := ValidateContribution(selectedGoal, amount).value;
              r.Accepted? &&
              match IndexOfId(old(store.goals), GoalId, c.goalId)
              case None => r.value == None && store.goals == old(store.goals)
              case Some(k) => store.goals == old(store.goals)[k := Contributed(old(store.goals)[k], c.amount)] &&
                              r.value == Some(store.goals[k])
    ensures |store.goals| == |old(store.goals)|
    ensures forall i :: 0 <= i < |store.goals| ==>
              store.goals[i] == old(store.goals)[i].(currentAmount := store.goals[i].currentAmount)
    ensures forall i :: 0 <= i < |store.goals| ==> store.goals[i].currentAmount >= old(store.goals)[i].currentAmount
  {
    match ValidateContribution(selectedGoal, amount)
    case Rejected(message) =>
      return Rejected(message);
    case Accepted(c) =>
      var updated := store.UpdateAmount(c.goalId, c.amount);
      return Accepted(updated);
  }
}
