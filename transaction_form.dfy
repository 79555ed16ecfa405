/** The add/edit transaction form: its checks on submit, the sign it gives
    the stored amount, how an existing transaction is loaded into it, and
    how it resets and reacts to a change of type. */
module TransactionForm {
  import opened Base
  import opened Table
  import opened TransactionService
  import opened Aggregation

  /** The form's fields. */
  datatype FormState = FormState(amount: NumericInput, category: string, kind: Kind,
                                 description: string, date: DateInput)

  /** `-Math.abs(amount)` for an expense, `Math.abs(amount)` for income. */
  function SignedFor(kind: Kind, amount: real): (r: real)
    ensures Abs(r) == Abs(amount)
    ensures kind == Expense ==> r <= 0.0
    ensures kind == Income ==> r >= 0.0
  {
    if kind == Expense then -Abs(amount) else Abs(amount)
  }

  /** `handleSubmit` up to the hand-over to `onSubmit`: the required fields,
      then a positive amount, then a date that converts to an ISO string
      (an invalid one throws inside the `try`, which shows the save
      failure). */
  function Submit(form: FormState): (r: Submitted<TransactionData>)
    ensures r.Accepted? <==>
              form.amount.Entered? && form.category != "" && form.description != "" &&
              form.amount.parsed.Some? && form.amount.parsed.value > 0.0 &&
              form.date.DateEntered? && form.date.parsed.Some?
    ensures (form.amount.Blank? || form.category == "" || form.description == "") ==>
              r == Rejected("Please fill in all required fields")
    ensures form.amount.Entered? && form.category != "" && form.description != "" &&
            (form.amount.parsed.None? || form.amount.parsed.value <= 0.0) ==>
              r == Rejected("Please enter a valid amount")
    ensures form.amount.Entered? && form.category != "" && form.description != "" &&
            form.amount.parsed.Some? && form.amount.parsed.value > 0.0 &&
            (form.date.BlankDate? || form.date.parsed.None?) ==>
              r == Rejected("Failed to save transaction")
    ensures r.Rejected? ==>
              r.message in {"Please fill in all required fields", "Please enter a valid amount", "Failed to save transaction"}
    ensures r.Accepted? ==>
              r.value.category == form.category && r.value.kind == form.kind &&
              r.value.description == form.description && r.value.date == form.date.parsed.value &&
              Abs(r.value.amount) == form.amount.parsed.value
  {
    if form.amount.Blank? || form.category == "" || form.description == "" then
      Rejected("Please fill in all required fields")
    else if form.amount.parsed.None? || form.amount.parsed.value <= 0.0 then
      Rejected("Please enter a valid amount")
    else if form.date.BlankDate? || form.date.parsed.None? then
      Rejected("Failed to save transaction")
    else
      Accepted(TransactionData(SignedFor(form.kind, form.amount.parsed.value), form.category, form.kind,
                               form.description, form.date.parsed.value))
  }

  /** What the form hands on has the sign of its type, strictly: an expense
      is negative, income positive. A transaction created from it therefore
      agrees in sign with its type. */
  lemma SubmittedSignAgrees(form: FormState, id: int, now: int)
    requires Submit(form).Accepted?
    ensures var data := Submit(form).value;
            (data.kind == Expense ==> data.amount < 0.0) && (data.kind == Income ==> data.amount > 0.0)
    ensures SignAgrees(NewTransaction(id, Submit(form).value, now))
  {
  }

  /** The `initialData` effect: the amount is shown as its absolute value;
      `loadedDate` stands for the field text `formatDateInput` gives. */
  function FromTransaction(t: Transaction, loadedDate: DateInput): (form: FormState)
    ensures form.amount == Entered(Some(Abs(t.amount)))
    ensures form.category == t.category && form.kind == t.kind && form.description == t.description
    ensures form.date == loadedDate
  {
    FormState(Entered(Some(Abs(t.amount))), t.category, t.kind, t.description, loadedDate)
  }

  /** Editing and saving without a change gives back the stored amount,
      category, type and description, when the stored amount is non-zero
      and agrees in sign with the type; a zero amount cannot be saved. */
  lemma EditRoundTrip(t: Transaction, day: int)
    requires SignAgrees(t) && t.category != "" && t.description != ""
    ensures t.amount != 0.0 ==>
              Submit(FromTransaction(t, DateEntered(Some(day)))) ==
              Accepted(TransactionData(t.amount, t.category, t.kind, t.description, day))
    ensures t.amount == 0.0 ==>
              Submit(FromTransaction(t, DateEntered(Some(day)))) == Rejected("Please enter a valid amount")
  {
  }

  /** The empty form: blank amount, category and description, type
      "expense", and today's date. */
  function Reset(today: DateInput): (form: FormState)
    ensures form.amount.Blank? && form.category == "" && form.description == ""
    ensures form.kind == Expense && form.date == today
  {
    FormState(Blank, "", Expense, "", today)
  }

  /** The form after a successful save: kept while editing, reset when
      adding. */
  function AfterSave(form: FormState, isEditing: bool, today: DateInput): (next: FormState)
    ensures isEditing ==> next == form
    ensures !isEditing ==> next == Reset(today)
  {
    if isEditing then form else Reset(today)
  }

  /** After an added transaction is saved, submitting again at once is
      refused, so one click adds one transaction. */
  lemma ResubmitAfterAddIsRejected(form: FormState, today: DateInput)
    ensures Submit(AfterSave(form, false, today)) == Rejected("Please fill in all required fields")
  {
  }

  /** The type selector's `onChange`: the new type, and no category. */
  function ChangeType(form: FormState, kind: Kind): (next: FormState)
    ensures next.kind == kind && next.category == ""
    ensures next.amount == form.amount && next.description == form.description && next.date == form.date
  {
    form.(kind := kind, category := "")
  }

  /** A category chosen for one type is never submitted under another:
      after a type change the form is refused until a category is picked. */
  lemma ChangeTypeNeedsNewCategory(form: FormState, kind: Kind)
    ensures Submit(ChangeType(form, kind)) == Rejected("Please fill in all required fields")
    ensures Submit(ChangeType(form, kind).(category := form.category)).Accepted? ==>
              Submit(ChangeType(form, kind).(category := form.category)).value.kind == kind
  {
  }

  /** Adding through the form (the page's `onSubmit` is
      `transactionService.create`): a refused form changes nothing; an
      accepted one appends the new transaction. A store whose transactions
      all agree in sign with their type keeps doing so. */
  method SaveNew(store: TransactionStore, form: FormState, now: int) returns (r: Submitted<Transaction>)
    modifies store
    ensures Submit(form).Rejected? ==>
              r == Rejected(Submit(form).message) && store.transactions == old(store.transactions)
    ensures Submit(form).Accepted? ==>
              r.Accepted? &&
              r.value == NewTransaction(NextId(old(store.transactions), TransactionId), Submit(form).value, now) &&
              store.transactions == old(store.transactions) + [r.value]
    ensures (forall i :: 0 <= i < |old(store.transactions)| ==> SignAgrees(old(store.transactions)[i])) ==>
              forall i :: 0 <= i < |store.transactions| ==> SignAgrees(store.transactions[i])
  {
    match Submit(form)
    case Rejected(message) =>
      return Rejected(message);
    case Accepted(data) =>
      var created := store.Create(data, now);
      SubmittedSignAgrees(form, created.id, now);
      return Accepted(created);
  }
}
