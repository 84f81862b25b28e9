/**
 * The combined view of sales and expenses: each row projected into one
 * `Transaction` shape, optionally restricted by kind and by an inclusive date
 * range, and sorted newest date first.
 *
 * The same merge appears three times: in the client service
 * (`getTransactions` with its optional filters), in the duplicate service
 * (`getTransactions` without filters and without `createdAt`), and in the
 * `/api/transactions` handler, which receives the rows already restricted
 * by the storage layer.
 */
module Transactions {
  import opened Wrappers
  import opened Seqs
  import opened Records

  datatype Kind = SaleKind | ExpenseKind

  /**
   * A row of the combined view. `createdAt` is `None` in the variant whose
   * rows do not carry it.
   */
  datatype Transaction = Transaction(
    id: int,
    kind: Kind,
    amount: Cents,
    category: string,
    date: Day,
    description: Option<string>,
    createdAt: Option<Timestamp>)

  /** A sale as a transaction: its category, its notes as the description. */
  function FromSale(s: Sale): Transaction
  {
    Transaction(s.id, SaleKind, s.amount, s.category, s.date, s.notes, Some(s.createdAt))
  }

  /** An expense as a transaction: its type as the category. */
  function FromExpense(e: Expense): Transaction
  {
    Transaction(e.id, ExpenseKind, e.amount, e.expenseType, e.date, e.description, Some(e.createdAt))
  }

  /** The projection without `createdAt`. */
  function Bare(t: Transaction): Transaction
  {
    t.(createdAt := None)
  }

  /** `!type || type === 'sale'`: no filter, an empty one, or "sale". */
  predicate IncludesSales(kindFilter: Option<string>)
  {
    kindFilter == None || kindFilter == Some("") || kindFilter == Some("sale")
  }

  /** `!type || type === 'expense'`. */
  predicate IncludesExpenses(kindFilter: Option<string>)
  {
    kindFilter == None || kindFilter == Some("") || kindFilter == Some("expense")
  }

  /** The projected rows the kind filter lets through, sales first, each list in its own order. */
  function Selected(sales: seq<Sale>, expenses: seq<Expense>, kindFilter: Option<string>): seq<Transaction>
  {
    (if IncludesSales(kindFilter) then Map(sales, FromSale) else []) +
    (if IncludesExpenses(kindFilter) then Map(expenses, FromExpense) else [])
  }

  /** Sorted by date, newest first; rows of the same date keep their order. */
  function NewestFirst(ts: seq<Transaction>): seq<Transaction>
  {
    SortByKey(ts, (t: Transaction) => -t.date)
  }

  /** The `/api/transactions` answer, given the sales and expenses the storage returned. */
  function Combined(sales: seq<Sale>, expenses: seq<Expense>, kindFilter: Option<string>): seq<Transaction>
  {
    NewestFirst(Selected(sales, expenses, kindFilter))
  }

  /** Both bounds given: the date lies between them, inclusive. */
  predicate Within(date: Day, startDate: Day, endDate: Day)
  {
    startDate <= date <= endDate
  }

  /**
   * The client service's `getTransactions` for user `uid`: the range applies
   * only when both bounds are given (an empty bound is `None`).
   */
  function ForUser(sales: seq<Sale>, expenses: seq<Expense>, uid: UserId,
                   startDate: Option<Day>, endDate: Option<Day>, kindFilter: Option<string>): seq<Transaction>
  {
    var ts := Selected(OwnSales(sales, uid), OwnExpenses(expenses, uid), kindFilter);
    if startDate.Some? && endDate.Some? then
      NewestFirst(Filter(ts, (t: Transaction) => Within(t.date, startDate.value, endDate.value)))
    else
      NewestFirst(ts)
  }

  /** The duplicate service's `getTransactions`: all of the user's rows, without `createdAt`. */
  function AllForUser(sales: seq<Sale>, expenses: seq<Expense>, uid: UserId): seq<Transaction>
  {
    NewestFirst(
      Map(OwnSales(sales, uid), (s: Sale) => Bare(FromSale(s))) +
      Map(OwnExpenses(expenses, uid), (e: Expense) => Bare(FromExpense(e))))
  }

  // ---------------------------------------------------------------------------
  // The handler's answer

  /**
   * The answer is a rearrangement of the selected rows, so it has one entry
   * per fetched sale and expense of the wanted kinds, and it is ordered by
   * date, newest first.
   */
  lemma CombinedSpec(sales: seq<Sale>, expenses: seq<Expense>, kindFilter: Option<string>)
    ensures multiset(Combined(sales, expenses, kindFilter)) == multiset(Selected(sales, expenses, kindFilter))
    ensures |Combined(sales, expenses, kindFilter)| ==
      (if IncludesSales(kindFilter) then |sales| else 0) + (if IncludesExpenses(kindFilter) then |expenses| else 0)
    ensures forall i, j :: 0 <= i < j < |Combined(sales, expenses, kindFilter)| ==>
      Combined(sales, expenses, kindFilter)[i].date >= Combined(sales, expenses, kindFilter)[j].date
  {
    var key := (t: Transaction) => -t.date;
    SortByKeySpec(Selected(sales, expenses, kindFilter), key);
  }

  /**
   * An entry of the answer is exactly the projection of a fetched sale, when
   * sales are wanted, or of a fetched expense, when expenses are wanted; the
   * projection carries the row's id, amount, date and `createdAt` unchanged.
   */
  lemma CombinedMember(sales: seq<Sale>, expenses: seq<Expense>, kindFilter: Option<string>, t: Transaction)
    ensures t in Combined(sales, expenses, kindFilter) <==>
      (IncludesSales(kindFilter) && exists s :: s in sales && t == FromSale(s)) ||
      (IncludesExpenses(kindFilter) && exists e :: e in expenses && t == FromExpense(e))
  {
    var key := (t: Transaction) => -t.date;
    SortByKeyMember(Selected(sales, expenses, kindFilter), key, t);
    MapMember(sales, FromSale, t);
    MapMember(expenses, FromExpense, t);
  }

  /**
   * "sale" yields only sales, "expense" only expenses, and any other
   * non-empty filter value yields nothing.
   */
  lemma CombinedKinds(sales: seq<Sale>, expenses: seq<Expense>, kindFilter: Option<string>)
    ensures kindFilter == Some("sale") ==>
      forall t :: t in Combined(sales, expenses, kindFilter) ==> t.kind == SaleKind
    ensures kindFilter == Some("expense") ==>
      forall t :: t in Combined(sales, expenses, kindFilter) ==> t.kind == ExpenseKind
    ensures !IncludesSales(kindFilter) && !IncludesExpenses(kindFilter) ==> Combined(sales, expenses, kindFilter) == []
  {
    forall t | t in Combined(sales, expenses, kindFilter)
      ensures kindFilter == Some("sale") ==> t.kind == SaleKind
      ensures kindFilter == Some("expense") ==> t.kind == ExpenseKind
    {
      CombinedMember(sales, expenses, kindFilter, t);
    }
    var key := (t: Transaction) => -t.date;
    SortByKeySpec(Selected(sales, expenses, kindFilter), key);
  }

  /**
   * Entries of the same date keep their order: sales before expenses, each in
   * the order the storage returned them.
   */
  lemma CombinedSameDay(sales: seq<Sale>, expenses: seq<Expense>, kindFilter: Option<string>, day: Day)
    ensures Filter(Combined(sales, expenses, kindFilter), (t: Transaction) => t.date == day) ==
            Filter(Selected(sales, expenses, kindFilter), (t: Transaction) => t.date == day)
  {
    var key := (t: Transaction) => -t.date;
    var ts := Selected(sales, expenses, kindFilter);
    var sorted := SortByKey(ts, key);
    SortByKeyStable(ts, key, -day);
    WithKeyFilter(ts, key, -day, (t: Transaction) => t.date == day);
    WithKeyFilter(sorted, key, -day, (t: Transaction) => t.date == day);
  }

  // ---------------------------------------------------------------------------
  // The client service

  /** The range test the service applies: none unless both bounds are given. */
  predicate InRange(date: Day, startDate: Option<Day>, endDate: Option<Day>)
  {
    startDate.Some? && endDate.Some? ==> Within(date, startDate.value, endDate.value)
  }

  /** Sales of user `uid` that the date range lets through. */
  function SalesInRange(sales: seq<Sale>, uid: UserId, startDate: Option<Day>, endDate: Option<Day>): seq<Sale>
  {
    if startDate.Some? && endDate.Some? then
      Filter(OwnSales(sales, uid), (s: Sale) => Within(s.date, startDate.value, endDate.value))
    else
      OwnSales(sales, uid)
  }

  function ExpensesInRange(expenses: seq<Expense>, uid: UserId, startDate: Option<Day>, endDate: Option<Day>): seq<Expense>
  {
    if startDate.Some? && endDate.Some? then
      Filter(OwnExpenses(expenses, uid), (e: Expense) => Within(e.date, startDate.value, endDate.value))
    else
      OwnExpenses(expenses, uid)
  }

  lemma SalesInRangeMember(sales: seq<Sale>, uid: UserId, startDate: Option<Day>, endDate: Option<Day>)
    ensures forall s :: s in SalesInRange(sales, uid, startDate, endDate) <==>
      s in sales && s.userId == uid && InRange(s.date, startDate, endDate)
  {
    forall s ensures s in SalesInRange(sales, uid, startDate, endDate) <==>
      s in sales && s.userId == uid && InRange(s.date, startDate, endDate)
    {
      FilterMember(sales, (x: Sale) => x.userId == uid, s);
      if startDate.Some? && endDate.Some? {
        FilterMember(OwnSales(sales, uid), (x: Sale) => Within(x.date, startDate.value, endDate.value), s);
      }
    }
  }

  lemma ExpensesInRangeMember(expenses: seq<Expense>, uid: UserId, startDate: Option<Day>, endDate: Option<Day>)
    ensures forall e :: e in ExpensesInRange(expenses, uid, startDate, endDate) <==>
      e in expenses && e.userId == uid && InRange(e.date, startDate, endDate)
  {
    forall e ensures e in ExpensesInRange(expenses, uid, startDate, endDate) <==>
      e in expenses && e.userId == uid && InRange(e.date, startDate, endDate)
    {
      FilterMember(expenses, (x: Expense) => x.userId == uid, e);
      if startDate.Some? && endDate.Some? {
        FilterMember(OwnExpenses(expenses, uid), (x: Expense) => Within(x.date, startDate.value, endDate.value), e);
      }
    }
  }

  lemma SelectedInRange(sales: seq<Sale>, expenses: seq<Expense>, kindFilter: Option<string>, lo: Day, hi: Day)
    ensures Filter(Selected(sales, expenses, kindFilter), (t: Transaction) => Within(t.date, lo, hi)) ==
      Selected(Filter(sales, (s: Sale) => Within(s.date, lo, hi)),
               Filter(expenses, (e: Expense) => Within(e.date, lo, hi)), kindFilter)
  {
    var p := (t: Transaction) => Within(t.date, lo, hi);
    var a := if IncludesSales(kindFilter) then Map(sales, FromSale) else [];
    var b := if IncludesExpenses(kindFilter) then Map(expenses, FromExpense) else [];
    FilterConcat(a, b, p);
    if IncludesSales(kindFilter) {
      FilterMap(sales, FromSale, p, (s: Sale) => Within(s.date, lo, hi));
    }
    if IncludesExpenses(kindFilter) {
      FilterMap(expenses, FromExpense, p, (e: Expense) => Within(e.date, lo, hi));
    } else {
      assert Filter(b, p) == [];
    }
    if !IncludesSales(kindFilter) {
      assert Filter(a, p) == [];
    }
  }

  /**
   * The client service answers as the handler does when it is given the
   * user's rows in the range in their stored order: the service filters
   * after merging, the handler's storage before, and the outcome is the same.
   * The server's storage returns its rows in another order (see README), so
   * the two back ends can list entries of one day differently.
   */
  lemma ForUserIsCombined(sales: seq<Sale>, expenses: seq<Expense>, uid: UserId,
                          startDate: Option<Day>, endDate: Option<Day>, kindFilter: Option<string>)
    ensures ForUser(sales, expenses, uid, startDate, endDate, kindFilter) ==
      Combined(SalesInRange(sales, uid, startDate, endDate), ExpensesInRange(expenses, uid, startDate, endDate), kindFilter)
  {
    if startDate.Some? && endDate.Some? {
      SelectedInRange(OwnSales(sales, uid), OwnExpenses(expenses, uid), kindFilter, startDate.value, endDate.value);
    }
  }

  /**
   * The client service returns one entry per qualifying row: a row of the
   * user, of a wanted kind, and inside the range when both bounds are given;
   * newest date first.
   */
  lemma ForUserSpec(sales: seq<Sale>, expenses: seq<Expense>, uid: UserId,
                    startDate: Option<Day>, endDate: Option<Day>, kindFilter: Option<string>)
    ensures |ForUser(sales, expenses, uid, startDate, endDate, kindFilter)| ==
      (if IncludesSales(kindFilter) then |SalesInRange(sales, uid, startDate, endDate)| else 0) +
      (if IncludesExpenses(kindFilter) then |ExpensesInRange(expenses, uid, startDate, endDate)| else 0)
    ensures forall i, j :: 0 <= i < j < |ForUser(sales, expenses, uid, startDate, endDate, kindFilter)| ==>
      ForUser(sales, expenses, uid, startDate, endDate, kindFilter)[i].date >=
      ForUser(sales, expenses, uid, startDate, endDate, kindFilter)[j].date
  {
    ForUserIsCombined(sales, expenses, uid, startDate, endDate, kindFilter);
    CombinedSpec(SalesInRange(sales, uid, startDate, endDate), ExpensesInRange(expenses, uid, startDate, endDate), kindFilter);
  }

  /**
   * An entry of the service's answer is exactly the projection of one of the
   * user's rows of a wanted kind, inside the range when both bounds are given.
   */
  lemma ForUserMember(sales: seq<Sale>, expenses: seq<Expense>, uid: UserId,
                      startDate: Option<Day>, endDate: Option<Day>, kindFilter: Option<string>, t: Transaction)
    ensures t in ForUser(sales, expenses, uid, startDate, endDate, kindFilter) <==>
      (IncludesSales(kindFilter) &&
        exists s :: s in sales && s.userId == uid && InRange(s.date, startDate, endDate) && t == FromSale(s)) ||
      (IncludesExpenses(kindFilter) &&
        exists e :: e in expenses && e.userId == uid && InRange(e.date, startDate, endDate) && t == FromExpense(e))
  {
    ForUserIsCombined(sales, expenses, uid, startDate, endDate, kindFilter);
    CombinedMember(SalesInRange(sales, uid, startDate, endDate), ExpensesInRange(expenses, uid, startDate, endDate),
      kindFilter, t);
    SalesInRangeMember(sales, uid, startDate, endDate);
    ExpensesInRangeMember(expenses, uid, startDate, endDate);
  }

  // ---------------------------------------------------------------------------
  // The duplicate service

  /**
   * The duplicate service's list is the client service's unfiltered answer
   * with `createdAt` dropped from every entry, in the same order.
   */
  lemma AllForUserIsForUser(sales: seq<Sale>, expenses: seq<Expense>, uid: UserId)
    ensures AllForUser(sales, expenses, uid) == Map(ForUser(sales, expenses, uid, None, None, None), Bare)
  {
    var own := OwnSales(sales, uid);
    var ownExpenses := OwnExpenses(expenses, uid);
    var ts := Selected(own, ownExpenses, None);
    var key := (t: Transaction) => -t.date;
    assert Map(ts, Bare) ==
      Map(own, (s: Sale) => Bare(FromSale(s))) + Map(ownExpenses, (e: Expense) => Bare(FromExpense(e)));
    SortByKeyMap(ts, Bare, key, key);
  }

  /**
   * The duplicate service returns each of the user's sales and expenses
   * exactly once, newest date first.
   */
  lemma AllForUserSpec(sales: seq<Sale>, expenses: seq<Expense>, uid: UserId)
    ensures multiset(AllForUser(sales, expenses, uid)) ==
      multiset(Map(OwnSales(sales, uid), (s: Sale) => Bare(FromSale(s)))) +
      multiset(Map(OwnExpenses(expenses, uid), (e: Expense) => Bare(FromExpense(e))))
    ensures forall i, j :: 0 <= i < j < |AllForUser(sales, expenses, uid)| ==>
      AllForUser(sales, expenses, uid)[i].date >= AllForUser(sales, expenses, uid)[j].date
  {
    var key := (t: Transaction) => -t.date;
    SortByKeySpec(
      Map(OwnSales(sales, uid), (s: Sale) => Bare(FromSale(s))) +
      Map(OwnExpenses(expenses, uid), (e: Expense) => Bare(FromExpense(e))), key);
  }
}
