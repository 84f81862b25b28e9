/**
 * The two forms that feed the service: the entry form, which checks its
 * required fields and renames them for a new sale or expense, and the edit
 * dialog, which turns a listed transaction and its edited fields into an
 * update of the underlying record.
 *
 * The number and date inputs yield either an empty string or a value, so an
 * empty amount or date is `None`.
 */
module EntryForm {
  import opened Wrappers
  import opened Records
  import opened Transactions
  import opened Store

  datatype EntryType = SaleEntry | ExpenseEntry

  /** The entry form's fields. */
  datatype FormFields = FormFields(amount: Option<Cents>, category: string, date: Option<Day>, notes: string)

  /** The store call a submission makes. */
  datatype Submission = SubmitSale(sale: SaleInput) | SubmitExpense(expense: ExpenseInput)

  /** `amount && category && date`: every required field is filled in. */
  predicate Filled(f: FormFields)
  {
    f.amount.Some? && f.category != "" && f.date.Some?
  }

  /**
   * `handleSubmit`: no store call unless the required fields are filled in;
   * a sale is sent as `{amount, category, date, notes}`, an expense as
   * `{amount, type: category, date, description: notes}`.
   */
  function HandleSubmit(entryType: EntryType, f: FormFields): Option<Submission>
  {
    if !Filled(f) then None
    else if entryType == SaleEntry then
      Some(SubmitSale(SaleInput(f.amount.value, f.category, f.date.value, Some(f.notes))))
    else
      Some(SubmitExpense(ExpenseInput(f.amount.value, f.category, f.date.value, Some(f.notes))))
  }

  /** The record the store creates for a submission. */
  function Created(sub: Submission, uid: UserId, id: int, now: Timestamp): Transaction
  {
    match sub
    case SubmitSale(data) => FromSale(NewSale(uid, data, id, now))
    case SubmitExpense(data) => FromExpense(NewExpense(uid, data, id, now))
  }

  /**
   * A submission reaches the store exactly when the required fields are
   * filled in, and then as the kind of entry chosen.
   */
  lemma HandleSubmitSpec(entryType: EntryType, f: FormFields)
    ensures HandleSubmit(entryType, f).Some? <==> Filled(f)
    ensures HandleSubmit(entryType, f).Some? ==>
      (HandleSubmit(entryType, f).value.SubmitSale? <==> entryType == SaleEntry)
  {
  }

  /**
   * What the form holds is what the transaction list shows for the new
   * record, whichever kind it is: the form's category (the expense's type),
   * amount and date, and its notes as the description, with empty notes
   * shown as absent.
   */
  lemma SubmitThenList(entryType: EntryType, f: FormFields, uid: UserId, id: int, now: Timestamp)
    requires Filled(f)
    ensures var t := Created(HandleSubmit(entryType, f).value, uid, id, now);
      && t.id == id
      && (t.kind == SaleKind <==> entryType == SaleEntry)
      && t.amount == f.amount.value
      && t.category == f.category
      && t.date == f.date.value
      && (t.description == None <==> f.notes == "")
      && (f.notes != "" ==> t.description == Some(f.notes))
  {
  }

  // ---------------------------------------------------------------------------
  // The edit dialog

  /** The dialog's fields. */
  datatype ModalFields = ModalFields(amount: Cents, category: string, date: Day, description: string)

  /** The update a saved dialog requests. */
  datatype UpdateRequest =
    | UpdateSaleRequest(id: int, salePatch: SalePatch)
    | UpdateExpenseRequest(id: int, expensePatch: ExpensePatch)

  /** The dialog opens on the transaction's values; an absent description shows as empty. */
  function OpenModal(t: Transaction): ModalFields
  {
    ModalFields(t.amount, t.category, t.date, t.description.GetOr(""))
  }

  /**
   * The update mapping: a sale's description goes to `notes`; an expense's
   * category goes to `type` and its description to `description`. Every
   * field is sent.
   */
  function EditRequest(t: Transaction, m: ModalFields): UpdateRequest
  {
    if t.kind == SaleKind then
      UpdateSaleRequest(t.id, SalePatch(Some(m.amount), Some(m.category), Some(m.date), Some(m.description)))
    else
      UpdateExpenseRequest(t.id, ExpensePatch(Some(m.amount), Some(m.category), Some(m.date), Some(m.description)))
  }

  /**
   * The patch the dialog sends for a listed sale targets that sale's id and,
   * applied to that sale, shows the dialog's values; its identity and
   * creation time are kept.
   */
  lemma EditSale(s: Sale, m: ModalFields, now: Timestamp)
    ensures EditRequest(FromSale(s), m).UpdateSaleRequest?
    ensures EditRequest(FromSale(s), m).id == s.id
    ensures FromSale(PatchSale(s, EditRequest(FromSale(s), m).salePatch, now)) ==
      Transaction(s.id, SaleKind, m.amount, m.category, m.date, Some(m.description), Some(s.createdAt))
  {
  }

  lemma EditExpense(e: Expense, m: ModalFields, now: Timestamp)
    ensures EditRequest(FromExpense(e), m).UpdateExpenseRequest?
    ensures EditRequest(FromExpense(e), m).id == e.id
    ensures FromExpense(PatchExpense(e, EditRequest(FromExpense(e), m).expensePatch, now)) ==
      Transaction(e.id, ExpenseKind, m.amount, m.category, m.date, Some(m.description), Some(e.createdAt))
  {
  }

  /**
   * Through the store: when the listed sale is the first row with its id
   * owned by its user, the update the dialog requests finds that very row,
   * and the store's new row (`UpdateSale` replaces position `i` by the
   * patched row) is listed with the dialog's values.
   */
  lemma EditListedSale(sales: seq<Sale>, i: nat, m: ModalFields, now: Timestamp)
    requires i < |sales| && SaleIndex(sales, sales[i].id, sales[i].userId) == i
    ensures var req := EditRequest(FromSale(sales[i]), m);
      && req.UpdateSaleRequest?
      && SaleIndex(sales, req.id, sales[i].userId) == i
      && FromSale(sales[i := PatchSale(sales[i], req.salePatch, now)][i]) ==
         Transaction(sales[i].id, SaleKind, m.amount, m.category, m.date, Some(m.description), Some(sales[i].createdAt))
  {
  }

  /**
   * An earlier row of the same user with the same id takes the update
   * instead: the listed sale is then not the row the store patches.
   */
  lemma EditSharedIdSale(sales: seq<Sale>, i: nat, j: nat, m: ModalFields)
    requires j < i < |sales| && sales[j].Matches(sales[i].id, sales[i].userId)
    ensures SaleIndex(sales, EditRequest(FromSale(sales[i]), m).id, sales[i].userId) != i
  {
  }

  lemma EditListedExpense(expenses: seq<Expense>, i: nat, m: ModalFields, now: Timestamp)
    requires i < |expenses| && ExpenseIndex(expenses, expenses[i].id, expenses[i].userId) == i
    ensures var req := EditRequest(FromExpense(expenses[i]), m);
      && req.UpdateExpenseRequest?
      && ExpenseIndex(expenses, req.id, expenses[i].userId) == i
      && FromExpense(expenses[i := PatchExpense(expenses[i], req.expensePatch, now)][i]) ==
         Transaction(expenses[i].id, ExpenseKind, m.amount, m.category, m.date, Some(m.description),
           Some(expenses[i].createdAt))
  {
  }

  /**
   * Saving the dialog unchanged keeps every value except that absent notes
   * are stored as an empty text, and `updatedAt` moves to `now`.
   */
  lemma EditUnchangedSale(s: Sale, now: Timestamp)
    ensures PatchSale(s, EditRequest(FromSale(s), OpenModal(FromSale(s))).salePatch, now) ==
      s.(notes := Some(s.notes.GetOr("")), updatedAt := now)
  {
  }

  lemma EditUnchangedExpense(e: Expense, now: Timestamp)
    ensures PatchExpense(e, EditRequest(FromExpense(e), OpenModal(FromExpense(e))).expensePatch, now) ==
      e.(description := Some(e.description.GetOr("")), updatedAt := now)
  {
  }
}
