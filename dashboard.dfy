/**
 * The dashboard aggregation (`getDashboardStats`): today's totals, the totals
 * since the day a week ago, the five largest expense categories of that window
 * and the per-day sales series of that window.
 *
 * `StatsOf` is the declarative definition; `ComputeStats` builds the same value
 * the way the service does, accumulating the per-category and per-day totals
 * into a keyed record while walking the rows once.
 */
module Dashboard {
  import opened Seqs
  import opened Records

  /** One `{key, amount}` entry of a grouped total: a category or a date with its summed amount. */
  datatype Bucket<K> = Bucket(key: K, amount: Cents)

  datatype DashboardStats = DashboardStats(
    todaySales: Cents,
    todayExpenses: Cents,
    thisWeekSales: Cents,
    thisWeekExpenses: Cents,
    expensesByCategory: seq<Bucket<string>>,
    salesTrend: seq<Bucket<Day>>)

  /** How many categories the breakdown keeps (`slice(0, 5)`). */
  const TopCategories: nat := 5

  /** The window starts this many days before today and includes that day. */
  const WindowDays: nat := 7

  function WeekAgo(today: Day): Day
  {
    today - WindowDays
  }

  function SalesOn(sales: seq<Sale>, day: Day): seq<Sale>
  {
    Filter(sales, (s: Sale) => s.date == day)
  }

  function SalesSince(sales: seq<Sale>, day: Day): seq<Sale>
  {
    Filter(sales, (s: Sale) => s.date >= day)
  }

  function ExpensesOn(expenses: seq<Expense>, day: Day): seq<Expense>
  {
    Filter(expenses, (e: Expense) => e.date == day)
  }

  function ExpensesSince(expenses: seq<Expense>, day: Day): seq<Expense>
  {
    Filter(expenses, (e: Expense) => e.date >= day)
  }

  function SalesTotal(sales: seq<Sale>): Cents
  {
    Sum(sales, (s: Sale) => s.amount)
  }

  function ExpensesTotal(expenses: seq<Expense>): Cents
  {
    Sum(expenses, (e: Expense) => e.amount)
  }

  /** The current user's sales dated on or after the day a week ago (no upper bound). */
  function WeekSales(sales: seq<Sale>, uid: UserId, today: Day): seq<Sale>
  {
    SalesSince(OwnSales(sales, uid), WeekAgo(today))
  }

  function WeekExpenses(expenses: seq<Expense>, uid: UserId, today: Day): seq<Expense>
  {
    ExpensesSince(OwnExpenses(expenses, uid), WeekAgo(today))
  }

  // ---------------------------------------------------------------------------
  // Grouping

  /** The summed amount of the rows whose key is `k`. */
  function KeyTotal<T, K(==)>(rows: seq<T>, key: T -> K, amount: T -> int, k: K): int
  {
    Sum(Filter(rows, (x: T) => key(x) == k), amount)
  }

  /**
   * `Object.entries` of the record the service accumulates: one bucket per
   * distinct key, in order of first occurrence, holding that key's total.
   */
  function GroupTotals<T, K(==)>(rows: seq<T>, key: T -> K, amount: T -> int): seq<Bucket<K>>
  {
    var ks := Dedup(Map(rows, key));
    seq(|ks|, i requires 0 <= i < |ks| => Bucket(ks[i], KeyTotal(rows, key, amount, ks[i])))
  }

  /** The total of a category in a list of expenses. */
  function TypeTotal(expenses: seq<Expense>, category: string): Cents
  {
    KeyTotal(expenses, (e: Expense) => e.expenseType, (e: Expense) => e.amount, category)
  }

  /** The total of a day in a list of sales. */
  function DayTotal(sales: seq<Sale>, day: Day): Cents
  {
    KeyTotal(sales, (s: Sale) => s.date, (s: Sale) => s.amount, day)
  }

  lemma KeyTotalSnoc<T, K>(rows: seq<T>, key: T -> K, amount: T -> int, x: T, k: K)
    ensures KeyTotal(rows + [x], key, amount, k) ==
            KeyTotal(rows, key, amount, k) + (if key(x) == k then amount(x) else 0)
  {
    var p := (y: T) => key(y) == k;
    assert DropLast(rows + [x]) == rows;
    assert Last(rows + [x]) == x;
    SumConcat(Filter(rows, p), if p(x) then [x] else [], amount);
    assert DropLast([x]) == [];
  }

  lemma KeyTotalAbsent<T, K>(rows: seq<T>, key: T -> K, amount: T -> int, k: K)
    requires k !in Map(rows, key)
    ensures KeyTotal(rows, key, amount, k) == 0
  {
    var p := (y: T) => key(y) == k;
    forall i | 0 <= i < |rows| ensures !p(rows[i]) {
      assert Map(rows, key)[i] == key(rows[i]);
    }
    FilterDropsAll(rows, p);
  }

  lemma GroupTotalsAt<T, K>(rows: seq<T>, key: T -> K, amount: T -> int)
    ensures |GroupTotals(rows, key, amount)| == |Dedup(Map(rows, key))|
    ensures forall i :: 0 <= i < |GroupTotals(rows, key, amount)| ==>
      GroupTotals(rows, key, amount)[i] ==
        Bucket(Dedup(Map(rows, key))[i], KeyTotal(rows, key, amount, Dedup(Map(rows, key))[i]))
  {
  }

  /** No key appears in two buckets. */
  lemma GroupTotalsDistinct<T, K>(rows: seq<T>, key: T -> K, amount: T -> int)
    ensures DistinctBy(GroupTotals(rows, key, amount), (b: Bucket<K>) => b.key)
  {
    var g := GroupTotals(rows, key, amount);
    var ks := Dedup(Map(rows, key));
    DedupSpec(Map(rows, key));
    GroupTotalsAt(rows, key, amount);
    forall i, j | 0 <= i < j < |g| ensures g[i].key != g[j].key {
      assert g[i].key == ks[i] && g[j].key == ks[j];
    }
  }

  /**
   * Each bucket holds the total of its key, and its key is the key of some
   * row; every row's key has a bucket.
   */
  lemma GroupTotalsSpec<T, K>(rows: seq<T>, key: T -> K, amount: T -> int)
    ensures forall b :: b in GroupTotals(rows, key, amount) ==>
      b.amount == KeyTotal(rows, key, amount, b.key) && exists x :: x in rows && key(x) == b.key
    ensures forall x :: x in rows ==> exists b :: b in GroupTotals(rows, key, amount) && b.key == key(x)
  {
    var g := GroupTotals(rows, key, amount);
    var ks := Dedup(Map(rows, key));
    DedupSpec(Map(rows, key));
    GroupTotalsAt(rows, key, amount);
    forall b | b in g
      ensures b.amount == KeyTotal(rows, key, amount, b.key) && exists x :: x in rows && key(x) == b.key
    {
      var i :| 0 <= i < |g| && g[i] == b;
      assert b.key == ks[i];
      assert ks[i] in Map(rows, key);
      MapMember(rows, key, ks[i]);
    }
    forall x | x in rows ensures exists b :: b in g && b.key == key(x) {
      var i :| 0 <= i < |rows| && rows[i] == x;
      assert Map(rows, key)[i] == key(x);
      assert key(x) in ks;
      var j :| 0 <= j < |ks| && ks[j] == key(x);
      assert g[j] in g && g[j].key == key(x);
    }
  }

  /** Adding a row raises the summed totals of the distinct keys by that row's amount. */
  lemma KeySumStep<T, K>(p: seq<T>, x: T, key: T -> K, amount: T -> int)
    ensures Sum(Dedup(Map(p + [x], key)), (k: K) => KeyTotal(p + [x], key, amount, k)) ==
            Sum(Dedup(Map(p, key)), (k: K) => KeyTotal(p, key, amount, k)) + amount(x)
  {
    var k := key(x);
    var total := (k': K) => KeyTotal(p + [x], key, amount, k');
    var before := (k': K) => KeyTotal(p, key, amount, k');
    var ks0 := Dedup(Map(p, key));
    StepOrder(p, x, key, ks0);
    DedupSpec(Map(p, key));
    forall k' ensures total(k') == before(k') + (if k' == k then amount(x) else 0) {
      KeyTotalSnoc(p, key, amount, x, k');
    }
    if k in ks0 {
      SumBump(ks0, before, total, k, amount(x));
    } else {
      KeyTotalAbsent(p, key, amount, k);
      assert DropLast(ks0 + [k]) == ks0;
      SumPointwise(ks0, total, ks0, before);
    }
  }

  lemma {:induction false} KeySum<T, K>(rows: seq<T>, key: T -> K, amount: T -> int)
    ensures Sum(Dedup(Map(rows, key)), (k: K) => KeyTotal(rows, key, amount, k)) == Sum(rows, amount)
  {
    if rows != [] {
      var p := DropLast(rows);
      KeySum(p, key, amount);
      assert rows == p + [Last(rows)];
      KeySumStep(p, Last(rows), key, amount);
    }
  }

  /** The buckets' amounts add up to the total of all rows: grouping loses and duplicates nothing. */
  lemma GroupTotalsSum<T, K>(rows: seq<T>, key: T -> K, amount: T -> int)
    ensures Sum(GroupTotals(rows, key, amount), (b: Bucket<K>) => b.amount) == Sum(rows, amount)
  {
    GroupTotalsAt(rows, key, amount);
    SumPointwise(GroupTotals(rows, key, amount), (b: Bucket<K>) => b.amount,
      Dedup(Map(rows, key)), (k: K) => KeyTotal(rows, key, amount, k));
    KeySum(rows, key, amount);
  }

  /** The keys recorded after seeing key `k`: appended the first time only. */
  function NextOrder<K(==)>(order: seq<K>, k: K): seq<K>
  {
    if k in order then order else order + [k]
  }

  /** The running totals after adding `a` to key `k`, starting from 0 for a new key. */
  function NextTotals<K>(totals: map<K, int>, k: K, a: int): map<K, int>
  {
    totals[k := (if k in totals then totals[k] else 0) + a]
  }

  /**
   * The state of the accumulation after `prefix`: `order` lists the keys seen,
   * first-seen first, and `totals` maps each of them to its running total.
   */
  ghost predicate Accumulated<T, K(!new)>(prefix: seq<T>, key: T -> K, amount: T -> int, order: seq<K>, totals: map<K, int>)
  {
    && order == Dedup(Map(prefix, key))
    && (forall k :: k in totals <==> k in order)
    && (forall k :: k in totals ==> totals[k] == KeyTotal(prefix, key, amount, k))
  }

  lemma StepOrder<T, K>(prefix: seq<T>, x: T, key: T -> K, order: seq<K>)
    requires order == Dedup(Map(prefix, key))
    ensures NextOrder(order, key(x)) == Dedup(Map(prefix + [x], key))
  {
    var k := key(x);
    assert Map(prefix + [x], key) == Map(prefix, key) + [k];
    assert DropLast(Map(prefix + [x], key)) == Map(prefix, key);
    assert Last(Map(prefix + [x], key)) == k;
  }

  lemma StepTotal<T, K(!new)>(prefix: seq<T>, x: T, key: T -> K, amount: T -> int, order: seq<K>, totals: map<K, int>, k': K)
    requires Accumulated(prefix, key, amount, order, totals)
    requires k' in totals || k' == key(x)
    ensures NextTotals(totals, key(x), amount(x))[k'] == KeyTotal(prefix + [x], key, amount, k')
  {
    KeyTotalSnoc(prefix, key, amount, x, k');
    if k' == key(x) && key(x) !in totals {
      DedupSpec(Map(prefix, key));
      KeyTotalAbsent(prefix, key, amount, key(x));
    }
  }

  /** One step of the accumulation keeps the state in step with the rows walked. */
  lemma AccumulateStep<T, K(!new)>(prefix: seq<T>, x: T, key: T -> K, amount: T -> int, order: seq<K>, totals: map<K, int>)
    requires Accumulated(prefix, key, amount, order, totals)
    ensures Accumulated(prefix + [x], key, amount, NextOrder(order, key(x)), NextTotals(totals, key(x), amount(x)))
  {
    var totals' := NextTotals(totals, key(x), amount(x));
    StepOrder(prefix, x, key, order);
    forall k' | k' in totals' ensures totals'[k'] == KeyTotal(prefix + [x], key, amount, k') {
      StepTotal(prefix, x, key, amount, order, totals, k');
    }
  }

  /** Walking row `i` of `rows` takes the state after `rows[..i]` to the state after `rows[..i + 1]`. */
  lemma AdvanceGroups<T, K(!new)>(rows: seq<T>, i: nat, key: T -> K, amount: T -> int, order: seq<K>, totals: map<K, int>)
    requires i < |rows|
    requires Accumulated(rows[..i], key, amount, order, totals)
    ensures Accumulated(rows[..i + 1], key, amount,
      NextOrder(order, key(rows[i])), NextTotals(totals, key(rows[i]), amount(rows[i])))
  {
    AccumulateStep(rows[..i], rows[i], key, amount, order, totals);
    assert rows[..i + 1] == rows[..i] + [rows[i]];
  }

  /** The buckets the recorded keys and totals describe, in the recorded order. */
  function Buckets<K>(order: seq<K>, totals: map<K, int>): seq<Bucket<K>>
    requires forall k :: k in order ==> k in totals
  {
    seq(|order|, j requires 0 <= j < |order| => Bucket(order[j], totals[order[j]]))
  }

  /** Once every row is walked, the recorded keys and totals are the grouped totals. */
  lemma AccumulatedGroups<T, K(!new)>(rows: seq<T>, key: T -> K, amount: T -> int, order: seq<K>, totals: map<K, int>)
    requires Accumulated(rows, key, amount, order, totals)
    ensures forall k :: k in order ==> k in totals
    ensures Buckets(order, totals) == GroupTotals(rows, key, amount)
  {
    GroupTotalsAt(rows, key, amount);
  }

  /**
   * The service's accumulation: walk the rows once, adding each amount to its
   * key's running total (`(totals[k] || 0) + amount`) and recording each key
   * the first time it is seen.
   */
  method GroupSums<T, K(==,!new)>(rows: seq<T>, key: T -> K, amount: T -> int) returns (groups: seq<Bucket<K>>)
    ensures groups == GroupTotals(rows, key, amount)
  {
    var order: seq<K> := [];
    var totals: map<K, int> := map[];
    for i := 0 to |rows|
      invariant Accumulated(rows[..i], key, amount, order, totals)
    {
      var x := rows[i];
      AdvanceGroups(rows, i, key, amount, order, totals);
      order, totals := NextOrder(order, key(x)), NextTotals(totals, key(x), amount(x));
    }
    assert rows[..|rows|] == rows;
    AccumulatedGroups(rows, key, amount, order, totals);
    groups := Buckets(order, totals);
  }

  // ---------------------------------------------------------------------------
  // The statistics

  /** Expense categories by summed amount, largest first, at most five; ties keep first-seen order. */
  function ByCategory(weekExpenses: seq<Expense>): seq<Bucket<string>>
  {
    var groups := GroupTotals(weekExpenses, (e: Expense) => e.expenseType, (e: Expense) => e.amount);
    var sorted := SortByKey(groups, (b: Bucket<string>) => -b.amount);
    if |sorted| <= TopCategories then sorted else sorted[..TopCategories]
  }

  /** Sales per day, earliest day first. */
  function Trend(weekSales: seq<Sale>): seq<Bucket<Day>>
  {
    SortByKey(GroupTotals(weekSales, (s: Sale) => s.date, (s: Sale) => s.amount), (b: Bucket<Day>) => b.key)
  }

  /** The dashboard of user `uid` on day `today`. */
  function StatsOf(sales: seq<Sale>, expenses: seq<Expense>, uid: UserId, today: Day): DashboardStats
  {
    var own := OwnSales(sales, uid);
    var ownExpenses := OwnExpenses(expenses, uid);
    DashboardStats(
      SalesTotal(SalesOn(own, today)),
      ExpensesTotal(ExpensesOn(ownExpenses, today)),
      SalesTotal(WeekSales(sales, uid, today)),
      ExpensesTotal(WeekExpenses(expenses, uid, today)),
      ByCategory(WeekExpenses(expenses, uid, today)),
      Trend(WeekSales(sales, uid, today)))
  }

  /** `getDashboardStats` for an authenticated user, with the clock's date passed in as `today`. */
  method ComputeStats(sales: seq<Sale>, expenses: seq<Expense>, uid: UserId, today: Day)
    returns (stats: DashboardStats)
    ensures stats == StatsOf(sales, expenses, uid, today)
  {
    var own := OwnSales(sales, uid);
    var ownExpenses := OwnExpenses(expenses, uid);
    var weekAgo := WeekAgo(today);
    var weekSales := SalesSince(own, weekAgo);
    var weekExpenses := ExpensesSince(ownExpenses, weekAgo);

    var byCategory := GroupSums(weekExpenses, (e: Expense) => e.expenseType, (e: Expense) => e.amount);
    var sortedCategories := SortByKey(byCategory, (b: Bucket<string>) => -b.amount);
    var topCategories :=
      if |sortedCategories| <= TopCategories then sortedCategories else sortedCategories[..TopCategories];

    var byDate := GroupSums(weekSales, (s: Sale) => s.date, (s: Sale) => s.amount);
    var trend := SortByKey(byDate, (b: Bucket<Day>) => b.key);

    stats := DashboardStats(
      SalesTotal(SalesOn(own, today)),
      ExpensesTotal(ExpensesOn(ownExpenses, today)),
      SalesTotal(weekSales),
      ExpensesTotal(weekExpenses),
      topCategories,
      trend);
  }

  // ---------------------------------------------------------------------------
  // Properties of the statistics

  /** With non-negative amounts, today's totals never exceed the window's: today lies inside the window. */
  lemma TodayWithinWeek(sales: seq<Sale>, expenses: seq<Expense>, uid: UserId, today: Day)
    requires forall i :: 0 <= i < |sales| ==> sales[i].amount >= 0
    requires forall i :: 0 <= i < |expenses| ==> expenses[i].amount >= 0
    ensures StatsOf(sales, expenses, uid, today).todaySales <= StatsOf(sales, expenses, uid, today).thisWeekSales
    ensures StatsOf(sales, expenses, uid, today).todayExpenses <= StatsOf(sales, expenses, uid, today).thisWeekExpenses
  {
    var own := OwnSales(sales, uid);
    forall i | 0 <= i < |own| ensures own[i].amount >= 0 {
      assert own[i] in own;
      FilterMember(sales, (s: Sale) => s.userId == uid, own[i]);
      var k :| 0 <= k < |sales| && sales[k] == own[i];
    }
    SumFilterMonotone(own, (s: Sale) => s.date == today, (s: Sale) => s.date >= WeekAgo(today), (s: Sale) => s.amount);

    var ownExpenses := OwnExpenses(expenses, uid);
    forall i | 0 <= i < |ownExpenses| ensures ownExpenses[i].amount >= 0 {
      assert ownExpenses[i] in ownExpenses;
      FilterMember(expenses, (e: Expense) => e.userId == uid, ownExpenses[i]);
      var k :| 0 <= k < |expenses| && expenses[k] == ownExpenses[i];
    }
    SumFilterMonotone(ownExpenses, (e: Expense) => e.date == today, (e: Expense) => e.date >= WeekAgo(today),
      (e: Expense) => e.amount);
  }

  /**
   * The category breakdown holds at most five distinct categories, largest
   * total first; each is a category of the window and holds that category's total.
   */
  lemma ByCategorySpec(weekExpenses: seq<Expense>)
    ensures |ByCategory(weekExpenses)| <= TopCategories
    ensures DistinctBy(ByCategory(weekExpenses), (b: Bucket<string>) => b.key)
    ensures forall i, j :: 0 <= i < j < |ByCategory(weekExpenses)| ==>
      ByCategory(weekExpenses)[i].amount >= ByCategory(weekExpenses)[j].amount
    ensures forall b :: b in ByCategory(weekExpenses) ==>
      b.amount == TypeTotal(weekExpenses, b.key) && exists e :: e in weekExpenses && e.expenseType == b.key
  {
    var key := (e: Expense) => e.expenseType;
    var rank := (b: Bucket<string>) => -b.amount;
    var g := GroupTotals(weekExpenses, key, (e: Expense) => e.amount);
    var sorted := SortByKey(g, rank);
    var r := ByCategory(weekExpenses);
    GroupTotalsDistinct(weekExpenses, key, (e: Expense) => e.amount);
    GroupTotalsSpec(weekExpenses, key, (e: Expense) => e.amount);
    SortByKeySpec(g, rank);
    SortByKeyDistinctBy(g, rank, (b: Bucket<string>) => b.key);
    var n := if |sorted| <= TopCategories then |sorted| else TopCategories;
    assert r == sorted[..n];
    SortedDistinctPrefix(sorted, n, rank, (b: Bucket<string>) => b.key);
    forall b | b in r ensures b in g {
      assert b in sorted;
      SortByKeyMember(g, rank, b);
    }
  }

  /**
   * The cut to five is by total: a category of the window is missing from the
   * breakdown only when five categories are listed, each totalling at least as much.
   */
  lemma ByCategoryTop(weekExpenses: seq<Expense>, e: Expense)
    requires e in weekExpenses
    ensures (exists b :: b in ByCategory(weekExpenses) && b.key == e.expenseType) ||
      (|ByCategory(weekExpenses)| == TopCategories &&
       forall b :: b in ByCategory(weekExpenses) ==> TypeTotal(weekExpenses, e.expenseType) <= b.amount)
  {
    var key := (e: Expense) => e.expenseType;
    var rank := (b: Bucket<string>) => -b.amount;
    var g := GroupTotals(weekExpenses, key, (e: Expense) => e.amount);
    var sorted := SortByKey(g, rank);
    var r := ByCategory(weekExpenses);
    GroupTotalsSpec(weekExpenses, key, (e: Expense) => e.amount);
    SortByKeySpec(g, rank);
    var c :| c in g && c.key == e.expenseType;
    SortByKeyMember(g, rank, c);
    if c !in r {
      var m :| 0 <= m < |sorted| && sorted[m] == c;
      assert |sorted| > TopCategories;
      assert r == sorted[..TopCategories];
      forall b | b in r ensures TypeTotal(weekExpenses, e.expenseType) <= b.amount {
        var i :| 0 <= i < |r| && r[i] == b;
        assert sorted[i] == b;
        assert i < m;
        assert rank(sorted[i]) <= rank(sorted[m]);
      }
    }
  }

  /** The sales series lists each day once, earliest first. */
  lemma TrendAscending(weekSales: seq<Sale>)
    ensures forall i, j :: 0 <= i < j < |Trend(weekSales)| ==> Trend(weekSales)[i].key < Trend(weekSales)[j].key
  {
    var byDay := (b: Bucket<Day>) => b.key;
    var g := GroupTotals(weekSales, (s: Sale) => s.date, (s: Sale) => s.amount);
    GroupTotalsDistinct(weekSales, (s: Sale) => s.date, (s: Sale) => s.amount);
    SortByKeySpec(g, byDay);
    SortByKeyDistinctBy(g, byDay, byDay);
    SortedDistinctAscending(SortByKey(g, byDay), byDay);
  }

  /**
   * Each entry of the sales series is a day with a sale in the window and holds
   * that day's total; every day with a sale in the window is listed.
   */
  lemma TrendSpec(weekSales: seq<Sale>)
    ensures forall b :: b in Trend(weekSales) ==>
      b.amount == DayTotal(weekSales, b.key) && exists s :: s in weekSales && s.date == b.key
    ensures forall s :: s in weekSales ==> exists b :: b in Trend(weekSales) && b.key == s.date
  {
    var key := (s: Sale) => s.date;
    var byDay := (b: Bucket<Day>) => b.key;
    var g := GroupTotals(weekSales, key, (s: Sale) => s.amount);
    var r := Trend(weekSales);
    GroupTotalsSpec(weekSales, key, (s: Sale) => s.amount);
    forall b | b in r ensures b in g {
      SortByKeyMember(g, byDay, b);
    }
    forall s | s in weekSales ensures exists b :: b in r && b.key == s.date {
      var c :| c in g && c.key == s.date;
      SortByKeyMember(g, byDay, c);
    }
  }

  /** Every day of the sales series lies in the window: on or after the day a week ago. */
  lemma TrendWithinWindow(sales: seq<Sale>, expenses: seq<Expense>, uid: UserId, today: Day)
    ensures forall b :: b in StatsOf(sales, expenses, uid, today).salesTrend ==>
      b.key >= WeekAgo(today) && b.amount == DayTotal(WeekSales(sales, uid, today), b.key)
  {
    var w := WeekSales(sales, uid, today);
    TrendSpec(w);
    forall s | s in w ensures s.date >= WeekAgo(today) {
      FilterMember(OwnSales(sales, uid), (s: Sale) => s.date >= WeekAgo(today), s);
    }
  }

  /**
   * A sale of another user, or one dated before the window, inserted anywhere
   * into the stored list, leaves the dashboard unchanged.
   */
  lemma StatsIgnoreSale(a: seq<Sale>, x: Sale, b: seq<Sale>, expenses: seq<Expense>, uid: UserId, today: Day)
    requires x.userId != uid || x.date < WeekAgo(today)
    ensures StatsOf(a + [x] + b, expenses, uid, today) == StatsOf(a + b, expenses, uid, today)
  {
    var own := (s: Sale) => s.userId == uid;
    FilterInsert(a, x, b, own);
    if x.userId == uid {
      FilterConcat(a, b, own);
      FilterInsert(Filter(a, own), x, Filter(b, own), (s: Sale) => s.date == today);
      FilterInsert(Filter(a, own), x, Filter(b, own), (s: Sale) => s.date >= WeekAgo(today));
    }
  }

  /** The same for an expense of another user or dated before the window. */
  lemma StatsIgnoreExpense(sales: seq<Sale>, a: seq<Expense>, x: Expense, b: seq<Expense>, uid: UserId, today: Day)
    requires x.userId != uid || x.date < WeekAgo(today)
    ensures StatsOf(sales, a + [x] + b, uid, today) == StatsOf(sales, a + b, uid, today)
  {
    var own := (e: Expense) => e.userId == uid;
    FilterInsert(a, x, b, own);
    if x.userId == uid {
      FilterConcat(a, b, own);
      FilterInsert(Filter(a, own), x, Filter(b, own), (e: Expense) => e.date == today);
      FilterInsert(Filter(a, own), x, Filter(b, own), (e: Expense) => e.date >= WeekAgo(today));
    }
  }

  /** The sales series adds up to the week's sales total. */
  lemma TrendAddsUp(sales: seq<Sale>, expenses: seq<Expense>, uid: UserId, today: Day)
    ensures Sum(StatsOf(sales, expenses, uid, today).salesTrend, (b: Bucket<Day>) => b.amount) ==
            StatsOf(sales, expenses, uid, today).thisWeekSales
  {
    var w := WeekSales(sales, uid, today);
    var g := GroupTotals(w, (s: Sale) => s.date, (s: Sale) => s.amount);
    GroupTotalsSum(w, (s: Sale) => s.date, (s: Sale) => s.amount);
    SumSortByKey(g, (b: Bucket<Day>) => b.key, (b: Bucket<Day>) => b.amount);
  }

  /**
   * With at most five categories in the window nothing is cut, and the
   * breakdown adds up to the week's expense total.
   */
  lemma CategoriesAddUp(sales: seq<Sale>, expenses: seq<Expense>, uid: UserId, today: Day)
    requires |Dedup(Map(WeekExpenses(expenses, uid, today), (e: Expense) => e.expenseType))| <= TopCategories
    ensures Sum(StatsOf(sales, expenses, uid, today).expensesByCategory, (b: Bucket<string>) => b.amount) ==
            StatsOf(sales, expenses, uid, today).thisWeekExpenses
  {
    var w := WeekExpenses(expenses, uid, today);
    var g := GroupTotals(w, (e: Expense) => e.expenseType, (e: Expense) => e.amount);
    GroupTotalsSum(w, (e: Expense) => e.expenseType, (e: Expense) => e.amount);
    GroupTotalsAt(w, (e: Expense) => e.expenseType, (e: Expense) => e.amount);
    SortByKeySpec(g, (b: Bucket<string>) => -b.amount);
    SumSortByKey(g, (b: Bucket<string>) => -b.amount, (b: Bucket<string>) => b.amount);
  }

  lemma KeyTotalNonNegative<T, K>(rows: seq<T>, key: T -> K, amount: T -> int, k: K)
    requires forall i :: 0 <= i < |rows| ==> amount(rows[i]) >= 0
    ensures KeyTotal(rows, key, amount, k) >= 0
  {
    var selected := Filter(rows, (x: T) => key(x) == k);
    forall i | 0 <= i < |selected| ensures amount(selected[i]) >= 0 {
      assert selected[i] in selected;
      FilterMember(rows, (x: T) => key(x) == k, selected[i]);
      var j :| 0 <= j < |rows| && rows[j] == selected[i];
    }
    SumNonNegative(selected, amount);
  }

  lemma WeekExpensesNonNegative(expenses: seq<Expense>, uid: UserId, today: Day)
    requires forall i :: 0 <= i < |expenses| ==> expenses[i].amount >= 0
    ensures var w := WeekExpenses(expenses, uid, today);
      forall i :: 0 <= i < |w| ==> w[i].amount >= 0
  {
    var own := OwnExpenses(expenses, uid);
    var w := WeekExpenses(expenses, uid, today);
    forall i | 0 <= i < |w| ensures w[i].amount >= 0 {
      assert w[i] in w;
      FilterMember(own, (e: Expense) => e.date >= WeekAgo(today), w[i]);
      FilterMember(expenses, (e: Expense) => e.userId == uid, w[i]);
      var j :| 0 <= j < |expenses| && expenses[j] == w[i];
    }
  }

  /** Buckets of non-negative rows, in any order of the grouping, are non-negative. */
  lemma SortedBucketsNonNegative<T, K>(rows: seq<T>, key: T -> K, amount: T -> int, rank: Bucket<K> -> int)
    requires forall i :: 0 <= i < |rows| ==> amount(rows[i]) >= 0
    ensures var sorted := SortByKey(GroupTotals(rows, key, amount), rank);
      forall i :: 0 <= i < |sorted| ==> sorted[i].amount >= 0
  {
    var g := GroupTotals(rows, key, amount);
    var sorted := SortByKey(g, rank);
    GroupTotalsSpec(rows, key, amount);
    forall i | 0 <= i < |sorted| ensures sorted[i].amount >= 0 {
      assert sorted[i] in sorted;
      SortByKeyMember(g, rank, sorted[i]);
      KeyTotalNonNegative(rows, key, amount, sorted[i].key);
    }
  }

  /** Dropping the tail of a list of non-negative amounts can only lower its sum. */
  lemma SumPrefixAtMost<T>(s: seq<T>, n: nat, f: T -> int)
    requires n <= |s|
    requires forall i :: 0 <= i < |s| ==> f(s[i]) >= 0
    ensures Sum(s[..n], f) <= Sum(s, f)
  {
    var rest := s[n..];
    forall i | 0 <= i < |rest| ensures f(rest[i]) >= 0 {
      assert rest[i] == s[n + i];
    }
    SumNonNegative(rest, f);
    assert s == s[..n] + rest;
    SumConcat(s[..n], rest, f);
  }

  /** With non-negative amounts the breakdown never accounts for more than the week's expenses. */
  lemma CategoriesWithinWeek(sales: seq<Sale>, expenses: seq<Expense>, uid: UserId, today: Day)
    requires forall i :: 0 <= i < |expenses| ==> expenses[i].amount >= 0
    ensures Sum(StatsOf(sales, expenses, uid, today).expensesByCategory, (b: Bucket<string>) => b.amount) <=
            StatsOf(sales, expenses, uid, today).thisWeekExpenses
  {
    var key := (e: Expense) => e.expenseType;
    var amount := (e: Expense) => e.amount;
    var bucketAmount := (b: Bucket<string>) => b.amount;
    var rank := (b: Bucket<string>) => -b.amount;
    var w := WeekExpenses(expenses, uid, today);
    var g := GroupTotals(w, key, amount);
    var sorted := SortByKey(g, rank);
    WeekExpensesNonNegative(expenses, uid, today);
    GroupTotalsSum(w, key, amount);
    SumSortByKey(g, rank, bucketAmount);
    if |sorted| > TopCategories {
      SortedBucketsNonNegative(w, key, amount, rank);
      SumPrefixAtMost(sorted, TopCategories, bucketAmount);
    }
  }
}
