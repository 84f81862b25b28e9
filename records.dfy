/**
 * The two stored entities, sales and expenses, with the inputs that create
 * and patch them, and the record-building steps the service performs on them.
 *
 * A calendar date is a day number: the service compares zero-padded ISO
 * `YYYY-MM-DD` strings, and for those the string order and the day order
 * agree. Amounts are exact minor units (cents).
 */
module Records {
  import opened Wrappers
  import opened Seqs

  type UserId = string

  /** A calendar date, as a day number. */
  type Day = int

  /** A money amount in exact minor units. */
  type Cents = int

  /** An instant as `toISOString` renders it; stored and copied, never compared. */
  type Timestamp = string

  datatype Sale = Sale(
    id: int,
    userId: UserId,
    amount: Cents,
    category: string,
    date: Day,
    notes: Option<string>,
    createdAt: Timestamp,
    updatedAt: Timestamp)
  {
    /** The row that `findIndex` and `filter` single out: this id, owned by this user. */
    predicate Matches(rowId: int, uid: UserId) {
      id == rowId && userId == uid
    }
  }

  datatype Expense = Expense(
    id: int,
    userId: UserId,
    amount: Cents,
    expenseType: string,
    date: Day,
    description: Option<string>,
    createdAt: Timestamp,
    updatedAt: Timestamp)
  {
    predicate Matches(rowId: int, uid: UserId) {
      id == rowId && userId == uid
    }
  }

  /** The data a new sale is created from; `notes` may be left out. */
  datatype SaleInput = SaleInput(amount: Cents, category: string, date: Day, notes: Option<string>)

  /** The data a new expense is created from; `description` may be left out. */
  datatype ExpenseInput = ExpenseInput(amount: Cents, expenseType: string, date: Day, description: Option<string>)

  /** A partial sale: `None` marks a field the caller left out. */
  datatype SalePatch = SalePatch(amount: Option<Cents>, category: Option<string>, date: Option<Day>, notes: Option<string>)

  /** A partial expense: `None` marks a field the caller left out. */
  datatype ExpensePatch = ExpensePatch(
    amount: Option<Cents>, expenseType: Option<string>, date: Option<Day>, description: Option<string>)

  /** The errors the service throws: "Not authenticated", "Sale not found", "Expense not found". */
  datatype Error = NotAuthenticated | SaleNotFound | ExpenseNotFound

  /** `text || null` on an optional string: a missing or empty text is stored as null. */
  function OrNull(text: Option<string>): Option<string>
  {
    if text == None || text == Some("") then None else text
  }

  /** The record `createSale` builds: owned by the current user, with `createdAt` and `updatedAt` modelled as one instant. */
  function NewSale(uid: UserId, data: SaleInput, id: int, now: Timestamp): Sale
  {
    Sale(id, uid, data.amount, data.category, data.date, OrNull(data.notes), now, now)
  }

  function NewExpense(uid: UserId, data: ExpenseInput, id: int, now: Timestamp): Expense
  {
    Expense(id, uid, data.amount, data.expenseType, data.date, OrNull(data.description), now, now)
  }

  /** `{...sale, ...patch, updatedAt: now}`: supplied fields overwrite, omitted fields stay. */
  function PatchSale(s: Sale, patch: SalePatch, now: Timestamp): Sale
  {
    s.(amount := patch.amount.GetOr(s.amount),
       category := patch.category.GetOr(s.category),
       date := patch.date.GetOr(s.date),
       notes := if patch.notes.Some? then patch.notes else s.notes,
       updatedAt := now)
  }

  function PatchExpense(e: Expense, patch: ExpensePatch, now: Timestamp): Expense
  {
    e.(amount := patch.amount.GetOr(e.amount),
       expenseType := patch.expenseType.GetOr(e.expenseType),
       date := patch.date.GetOr(e.date),
       description := if patch.description.Some? then patch.description else e.description,
       updatedAt := now)
  }

  /** The user-supplied part of a stored sale. */
  function SaleInputOf(s: Sale): SaleInput
  {
    SaleInput(s.amount, s.category, s.date, s.notes)
  }

  function ExpenseInputOf(e: Expense): ExpenseInput
  {
    ExpenseInput(e.amount, e.expenseType, e.date, e.description)
  }

  /**
   * Creating a sale and reading it back returns the data it was created from,
   * except that empty notes come back as null; nothing else is lost.
   */
  lemma NewSaleRoundTrip(uid: UserId, data: SaleInput, id: int, now: Timestamp)
    ensures NewSale(uid, data, id, now).userId == uid
    ensures SaleInputOf(NewSale(uid, data, id, now)) == data <==> data.notes != Some("")
    ensures SaleInputOf(NewSale(uid, data, id, now)) == data.(notes := OrNull(data.notes))
  {
  }

  lemma NewExpenseRoundTrip(uid: UserId, data: ExpenseInput, id: int, now: Timestamp)
    ensures NewExpense(uid, data, id, now).userId == uid
    ensures ExpenseInputOf(NewExpense(uid, data, id, now)) == data <==> data.description != Some("")
    ensures ExpenseInputOf(NewExpense(uid, data, id, now)) == data.(description := OrNull(data.description))
  {
  }

  /**
   * A patch never changes who owns the row, which row it is, or when it was
   * created; applying the same patch twice is applying it once; an empty patch
   * only refreshes `updatedAt`; a patch that supplies every field replaces all
   * of the user-supplied data.
   */
  lemma PatchSaleKeepsIdentity(s: Sale, patch: SalePatch, now: Timestamp)
    ensures var r := PatchSale(s, patch, now);
      r.id == s.id && r.userId == s.userId && r.createdAt == s.createdAt && r.updatedAt == now
    ensures PatchSale(PatchSale(s, patch, now), patch, now) == PatchSale(s, patch, now)
    ensures PatchSale(s, SalePatch(None, None, None, None), now) == s.(updatedAt := now)
    ensures patch.amount.Some? && patch.category.Some? && patch.date.Some? && patch.notes.Some? ==>
      SaleInputOf(PatchSale(s, patch, now)) ==
        SaleInput(patch.amount.value, patch.category.value, patch.date.value, patch.notes)
  {
  }

  lemma PatchExpenseKeepsIdentity(e: Expense, patch: ExpensePatch, now: Timestamp)
    ensures var r := PatchExpense(e, patch, now);
      r.id == e.id && r.userId == e.userId && r.createdAt == e.createdAt && r.updatedAt == now
    ensures PatchExpense(PatchExpense(e, patch, now), patch, now) == PatchExpense(e, patch, now)
    ensures PatchExpense(e, ExpensePatch(None, None, None, None), now) == e.(updatedAt := now)
    ensures patch.amount.Some? && patch.expenseType.Some? && patch.date.Some? && patch.description.Some? ==>
      ExpenseInputOf(PatchExpense(e, patch, now)) ==
        ExpenseInput(patch.amount.value, patch.expenseType.value, patch.date.value, patch.description)
  {
  }

  /** The current user's rows, in stored order. */
  function OwnSales(sales: seq<Sale>, uid: UserId): seq<Sale>
  {
    Filter(sales, (s: Sale) => s.userId == uid)
  }

  function OwnExpenses(expenses: seq<Expense>, uid: UserId): seq<Expense>
  {
    Filter(expenses, (e: Expense) => e.userId == uid)
  }
}
