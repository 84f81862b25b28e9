/**
 * `LocalStorageService`: the two stored lists and the operations on them.
 *
 * The lists that the service reads from and writes back to browser storage
 * are the fields `sales` and `expenses`. The current user, the record id
 * (`Date.now()`), the current instant and today's date are parameters.
 * Every operation first requires a current user and otherwise fails with
 * `NotAuthenticated`, leaving both lists as they were.
 */
module Store {
  import opened Wrappers
  import opened Seqs
  import opened Records
  import opened Dashboard
  import opened Transactions

  // ---------------------------------------------------------------------------
  // The list updates, as functions

  /** `filter(s => !(s.id === id && s.userId === uid))`. */
  function RemoveSale(sales: seq<Sale>, id: int, uid: UserId): seq<Sale>
  {
    Filter(sales, (s: Sale) => !s.Matches(id, uid))
  }

  function RemoveExpense(expenses: seq<Expense>, id: int, uid: UserId): seq<Expense>
  {
    Filter(expenses, (e: Expense) => !e.Matches(id, uid))
  }

  /** Position of the first row with this id owned by this user, or -1. */
  function SaleIndex(sales: seq<Sale>, id: int, uid: UserId): int
  {
    FindIndex(sales, (s: Sale) => s.Matches(id, uid))
  }

  function ExpenseIndex(expenses: seq<Expense>, id: int, uid: UserId): int
  {
    FindIndex(expenses, (e: Expense) => e.Matches(id, uid))
  }

  /** Deletion keeps exactly the rows that do not match, in their order; with no match it changes nothing. */
  lemma RemoveSaleSpec(sales: seq<Sale>, id: int, uid: UserId)
    ensures forall s :: s in RemoveSale(sales, id, uid) <==> s in sales && !s.Matches(id, uid)
    ensures SaleIndex(sales, id, uid) == -1 ==> RemoveSale(sales, id, uid) == sales
    ensures RemoveSale(RemoveSale(sales, id, uid), id, uid) == RemoveSale(sales, id, uid)
  {
    var keep := (s: Sale) => !s.Matches(id, uid);
    forall s ensures s in RemoveSale(sales, id, uid) <==> s in sales && !s.Matches(id, uid) {
      FilterMember(sales, keep, s);
    }
    if SaleIndex(sales, id, uid) == -1 {
      FilterKeepsAll(sales, keep);
    }
    var r := RemoveSale(sales, id, uid);
    forall i | 0 <= i < |r| ensures keep(r[i]) {
      assert r[i] in r;
    }
    FilterKeepsAll(r, keep);
  }

  lemma RemoveExpenseSpec(expenses: seq<Expense>, id: int, uid: UserId)
    ensures forall e :: e in RemoveExpense(expenses, id, uid) <==> e in expenses && !e.Matches(id, uid)
    ensures ExpenseIndex(expenses, id, uid) == -1 ==> RemoveExpense(expenses, id, uid) == expenses
    ensures RemoveExpense(RemoveExpense(expenses, id, uid), id, uid) == RemoveExpense(expenses, id, uid)
  {
    var keep := (e: Expense) => !e.Matches(id, uid);
    forall e ensures e in RemoveExpense(expenses, id, uid) <==> e in expenses && !e.Matches(id, uid) {
      FilterMember(expenses, keep, e);
    }
    if ExpenseIndex(expenses, id, uid) == -1 {
      FilterKeepsAll(expenses, keep);
    }
    var r := RemoveExpense(expenses, id, uid);
    forall i | 0 <= i < |r| ensures keep(r[i]) {
      assert r[i] in r;
    }
    FilterKeepsAll(r, keep);
  }

  /**
   * Creating a sale under a fresh id and then deleting that id gives back the
   * list as it was.
   */
  lemma CreateThenRemoveSale(sales: seq<Sale>, uid: UserId, data: SaleInput, id: int, now: Timestamp)
    requires SaleIndex(sales, id, uid) == -1
    ensures RemoveSale(sales + [NewSale(uid, data, id, now)], id, uid) == sales
  {
    var keep := (s: Sale) => !s.Matches(id, uid);
    FilterInsert(sales, NewSale(uid, data, id, now), [], keep);
    assert sales + [NewSale(uid, data, id, now)] + [] == sales + [NewSale(uid, data, id, now)];
    assert sales + [] == sales;
    FilterKeepsAll(sales, keep);
  }

  lemma CreateThenRemoveExpense(expenses: seq<Expense>, uid: UserId, data: ExpenseInput, id: int, now: Timestamp)
    requires ExpenseIndex(expenses, id, uid) == -1
    ensures RemoveExpense(expenses + [NewExpense(uid, data, id, now)], id, uid) == expenses
  {
    var keep := (e: Expense) => !e.Matches(id, uid);
    FilterInsert(expenses, NewExpense(uid, data, id, now), [], keep);
    assert expenses + [NewExpense(uid, data, id, now)] + [] == expenses + [NewExpense(uid, data, id, now)];
    assert expenses + [] == expenses;
    FilterKeepsAll(expenses, keep);
  }

  /**
   * An update finds the row again: the patched row still has the id and the
   * owner it was found by, so a second lookup returns the same position.
   */
  lemma UpdateSaleFindsSameRow(sales: seq<Sale>, id: int, uid: UserId, patch: SalePatch, now: Timestamp)
    requires SaleIndex(sales, id, uid) != -1
    ensures var i := SaleIndex(sales, id, uid);
      SaleIndex(sales[i := PatchSale(sales[i], patch, now)], id, uid) == i
  {
    var i := SaleIndex(sales, id, uid);
    var updated := sales[i := PatchSale(sales[i], patch, now)];
    assert sales[i].Matches(id, uid);
    assert updated[i].Matches(id, uid);
    assert forall j :: 0 <= j < i ==> updated[j] == sales[j];
  }

  lemma UpdateExpenseFindsSameRow(expenses: seq<Expense>, id: int, uid: UserId, patch: ExpensePatch, now: Timestamp)
    requires ExpenseIndex(expenses, id, uid) != -1
    ensures var i := ExpenseIndex(expenses, id, uid);
      ExpenseIndex(expenses[i := PatchExpense(expenses[i], patch, now)], id, uid) == i
  {
    var i := ExpenseIndex(expenses, id, uid);
    var updated := expenses[i := PatchExpense(expenses[i], patch, now)];
    assert expenses[i].Matches(id, uid);
    assert updated[i].Matches(id, uid);
    assert forall j :: 0 <= j < i ==> updated[j] == expenses[j];
  }

  // ---------------------------------------------------------------------------
  // Users do not see each other's changes

  /** A sale created by one user, even the first one stored, leaves every other user's sales as they were. */
  lemma CreateKeepsOthers(sales: seq<Sale>, uid: UserId, other: UserId, x: Sale)
    requires other != uid && x.userId == uid
    ensures OwnSales(sales + [x], other) == OwnSales(sales, other)
  {
    FilterInsert(sales, x, [], (s: Sale) => s.userId == other);
    assert sales + [x] + [] == sales + [x];
    assert sales + [] == sales;
  }

  /** Updating a user's first matching sale leaves every other user's sales as they were. */
  lemma UpdateKeepsOthers(sales: seq<Sale>, id: int, uid: UserId, other: UserId, patch: SalePatch, now: Timestamp)
    requires other != uid
    ensures var i := SaleIndex(sales, id, uid);
      i != -1 ==> OwnSales(sales[i := PatchSale(sales[i], patch, now)], other) == OwnSales(sales, other)
  {
    var i := SaleIndex(sales, id, uid);
    if i != -1 {
      var mine := (s: Sale) => s.userId == other;
      var x := PatchSale(sales[i], patch, now);
      assert sales[i].Matches(id, uid);
      assert sales == sales[..i] + [sales[i]] + sales[i + 1..];
      assert sales[i := x] == sales[..i] + [x] + sales[i + 1..];
      FilterInsert(sales[..i], sales[i], sales[i + 1..], mine);
      FilterInsert(sales[..i], x, sales[i + 1..], mine);
    }
  }

  lemma {:induction false} RemoveKeepsOthers(sales: seq<Sale>, id: int, uid: UserId, other: UserId)
    requires other != uid
    ensures OwnSales(RemoveSale(sales, id, uid), other) == OwnSales(sales, other)
  {
    if sales != [] {
      var keep := (s: Sale) => !s.Matches(id, uid);
      var mine := (s: Sale) => s.userId == other;
      var p, x := DropLast(sales), Last(sales);
      RemoveKeepsOthers(p, id, uid, other);
      assert sales == p + [x];
      FilterConcat(Filter(p, keep), if keep(x) then [x] else [], mine);
      assert DropLast([x]) == [];
    }
  }

  lemma CreateKeepsOtherExpenses(expenses: seq<Expense>, uid: UserId, other: UserId, x: Expense)
    requires other != uid && x.userId == uid
    ensures OwnExpenses(expenses + [x], other) == OwnExpenses(expenses, other)
  {
    FilterInsert(expenses, x, [], (e: Expense) => e.userId == other);
    assert expenses + [x] + [] == expenses + [x];
    assert expenses + [] == expenses;
  }

  lemma UpdateKeepsOtherExpenses(expenses: seq<Expense>, id: int, uid: UserId, other: UserId,
                                 patch: ExpensePatch, now: Timestamp)
    requires other != uid
    ensures var i := ExpenseIndex(expenses, id, uid);
      i != -1 ==> OwnExpenses(expenses[i := PatchExpense(expenses[i], patch, now)], other) == OwnExpenses(expenses, other)
  {
    var i := ExpenseIndex(expenses, id, uid);
    if i != -1 {
      var mine := (e: Expense) => e.userId == other;
      var x := PatchExpense(expenses[i], patch, now);
      assert expenses[i].Matches(id, uid);
      assert expenses == expenses[..i] + [expenses[i]] + expenses[i + 1..];
      assert expenses[i := x] == expenses[..i] + [x] + expenses[i + 1..];
      FilterInsert(expenses[..i], expenses[i], expenses[i + 1..], mine);
      FilterInsert(expenses[..i], x, expenses[i + 1..], mine);
    }
  }

  lemma {:induction false} RemoveKeepsOtherExpenses(expenses: seq<Expense>, id: int, uid: UserId, other: UserId)
    requires other != uid
    ensures OwnExpenses(RemoveExpense(expenses, id, uid), other) == OwnExpenses(expenses, other)
  {
    if expenses != [] {
      var keep := (e: Expense) => !e.Matches(id, uid);
      var mine := (e: Expense) => e.userId == other;
      var p, x := DropLast(expenses), Last(expenses);
      RemoveKeepsOtherExpenses(p, id, uid, other);
      assert expenses == p + [x];
      FilterConcat(Filter(p, keep), if keep(x) then [x] else [], mine);
      assert DropLast([x]) == [];
    }
  }

  // ---------------------------------------------------------------------------
  // The service

  class LocalStorageService {
    var sales: seq<Sale>
    var expenses: seq<Expense>

    /** Nothing stored yet: both lists read as empty. */
    constructor()
      ensures sales == [] && expenses == []
    {
      sales := [];
      expenses := [];
    }

    /** `createSale`: append one record owned by the current user; earlier records stay as they were. */
    method CreateSale(user: Option<UserId>, data: SaleInput, id: int, now: Timestamp) returns (r: Result<Sale, Error>)
      modifies this
      ensures user.None? ==> r == Failure(NotAuthenticated) && sales == old(sales)
      ensures user.Some? ==> r == Success(NewSale(user.value, data, id, now)) && sales == old(sales) + [r.value]
      ensures expenses == old(expenses)
    {
      if user.None? {
        return Failure(NotAuthenticated);
      }
      var newSale := NewSale(user.value, data, id, now);
      sales := sales + [newSale];
      r := Success(newSale);
    }

    /**
     * `updateSale`: patch the first record with this id owned by the current
     * user; no such record is `SaleNotFound`. The list keeps its length and
     * every other position.
     */
    method UpdateSale(user: Option<UserId>, id: int, patch: SalePatch, now: Timestamp) returns (r: Result<Sale, Error>)
      modifies this
      ensures user.None? ==> r == Failure(NotAuthenticated)
      ensures user.Some? && SaleIndex(old(sales), id, user.value) == -1 ==> r == Failure(SaleNotFound)
      ensures user.Some? && SaleIndex(old(sales), id, user.value) != -1 ==> r.Success?
      ensures r.Failure? ==> sales == old(sales)
      ensures r.Success? ==> (user.Some? &&
        var i := SaleIndex(old(sales), id, user.value);
        0 <= i < |old(sales)| && old(sales)[i].Matches(id, user.value) &&
        r.value == PatchSale(old(sales)[i], patch, now) && sales == old(sales)[i := r.value])
      ensures expenses == old(expenses)
    {
      if user.None? {
        return Failure(NotAuthenticated);
      }
      var i := SaleIndex(sales, id, user.value);
      if i == -1 {
        return Failure(SaleNotFound);
      }
      var updated := PatchSale(sales[i], patch, now);
      sales := sales[i := updated];
      r := Success(updated);
    }

    /** `deleteSale`: drop every record with this id owned by the current user; none is not an error. */
    method DeleteSale(user: Option<UserId>, id: int) returns (r: Outcome<Error>)
      modifies this
      ensures user.None? ==> r == Fail(NotAuthenticated) && sales == old(sales)
      ensures user.Some? ==> r == Pass && sales == RemoveSale(old(sales), id, user.value)
      ensures expenses == old(expenses)
    {
      if user.None? {
        return Fail(NotAuthenticated);
      }
      sales := RemoveSale(sales, id, user.value);
      r := Pass;
    }

    method CreateExpense(user: Option<UserId>, data: ExpenseInput, id: int, now: Timestamp)
      returns (r: Result<Expense, Error>)
      modifies this
      ensures user.None? ==> r == Failure(NotAuthenticated) && expenses == old(expenses)
      ensures user.Some? ==> r == Success(NewExpense(user.value, data, id, now)) && expenses == old(expenses) + [r.value]
      ensures sales == old(sales)
    {
      if user.None? {
        return Failure(NotAuthenticated);
      }
      var newExpense := NewExpense(user.value, data, id, now);
      expenses := expenses + [newExpense];
      r := Success(newExpense);
    }

    method UpdateExpense(user: Option<UserId>, id: int, patch: ExpensePatch, now: Timestamp)
      returns (r: Result<Expense, Error>)
      modifies this
      ensures user.None? ==> r == Failure(NotAuthenticated)
      ensures user.Some? && ExpenseIndex(old(expenses), id, user.value) == -1 ==> r == Failure(ExpenseNotFound)
      ensures user.Some? && ExpenseIndex(old(expenses), id, user.value) != -1 ==> r.Success?
      ensures r.Failure? ==> expenses == old(expenses)
      ensures r.Success? ==> (user.Some? &&
        var i := ExpenseIndex(old(expenses), id, user.value);
        0 <= i < |old(expenses)| && old(expenses)[i].Matches(id, user.value) &&
        r.value == PatchExpense(old(expenses)[i], patch, now) && expenses == old(expenses)[i := r.value])
      ensures sales == old(sales)
    {
      if user.None? {
        return Failure(NotAuthenticated);
      }
      var i := ExpenseIndex(expenses, id, user.value);
      if i == -1 {
        return Failure(ExpenseNotFound);
      }
      var updated := PatchExpense(expenses[i], patch, now);
      expenses := expenses[i := updated];
      r := Success(updated);
    }

    method DeleteExpense(user: Option<UserId>, id: int) returns (r: Outcome<Error>)
      modifies this
      ensures user.None? ==> r == Fail(NotAuthenticated) && expenses == old(expenses)
      ensures user.Some? ==> r == Pass && expenses == RemoveExpense(old(expenses), id, user.value)
      ensures sales == old(sales)
    {
      if user.None? {
        return Fail(NotAuthenticated);
      }
      expenses := RemoveExpense(expenses, id, user.value);
      r := Pass;
    }

    /** `getDashboardStats` on day `today`. */
    method GetDashboardStats(user: Option<UserId>, today: Day) returns (r: Result<DashboardStats, Error>)
      ensures user.None? ==> r == Failure(NotAuthenticated)
      ensures user.Some? ==> r == Success(StatsOf(sales, expenses, user.value, today))
    {
      if user.None? {
        return Failure(NotAuthenticated);
      }
      var stats := ComputeStats(sales, expenses, user.value, today);
      r := Success(stats);
    }

    /**
     * `getTransactions`: collect the wanted kinds, sales first, keep the range
     * when both bounds are given, then sort newest first.
     */
    method GetTransactions(user: Option<UserId>, startDate: Option<Day>, endDate: Option<Day>, kindFilter: Option<string>)
      returns (r: Result<seq<Transaction>, Error>)
      ensures user.None? ==> r == Failure(NotAuthenticated)
      ensures user.Some? ==> r == Success(ForUser(sales, expenses, user.value, startDate, endDate, kindFilter))
    {
      if user.None? {
        return Failure(NotAuthenticated);
      }
      var uid := user.value;
      var transactions: seq<Transaction> := [];
      if IncludesSales(kindFilter) {
        transactions := transactions + Map(OwnSales(sales, uid), FromSale);
      }
      if IncludesExpenses(kindFilter) {
        transactions := transactions + Map(OwnExpenses(expenses, uid), FromExpense);
      }
      assert transactions == Selected(OwnSales(sales, uid), OwnExpenses(expenses, uid), kindFilter);
      if startDate.Some? && endDate.Some? {
        transactions := Filter(transactions, (t: Transaction) => Within(t.date, startDate.value, endDate.value));
      }
      r := Success(NewestFirst(transactions));
    }

    /** The duplicate service's `getTransactions`: every row of the user, newest first, without `createdAt`. */
    method GetAllTransactions(user: Option<UserId>) returns (r: Result<seq<Transaction>, Error>)
      ensures user.None? ==> r == Failure(NotAuthenticated)
      ensures user.Some? ==> r == Success(AllForUser(sales, expenses, user.value))
    {
      if user.None? {
        return Failure(NotAuthenticated);
      }
      var uid := user.value;
      var own := Map(OwnSales(sales, uid), (s: Sale) => Bare(FromSale(s)));
      var ownExpenses := Map(OwnExpenses(expenses, uid), (e: Expense) => Bare(FromExpense(e)));
      r := Success(NewestFirst(own + ownExpenses));
    }
  }
}
