/**
 * The transaction list's client-side category filter and the list of
 * categories it offers. The fetched data may be missing or not a list,
 * which is `None`.
 */
module TransactionsList {
  import opened Wrappers
  import opened Seqs
  import opened Transactions

  /** The filter value that keeps every transaction. */
  const AllCategories: string := "all"

  function FilteredTransactions(data: Option<seq<Transaction>>, categoryFilter: string): seq<Transaction>
  {
    match data
    case None => []
    case Some(ts) => Filter(ts, (t: Transaction) => categoryFilter == AllCategories || t.category == categoryFilter)
  }

  /** `Array.from(new Set(transactions.map(t => t.category)))`. */
  function Categories(data: Option<seq<Transaction>>): seq<string>
  {
    match data
    case None => []
    case Some(ts) => Dedup(Map(ts, (t: Transaction) => t.category))
  }

  /** Without a list there is nothing to show and nothing to choose. */
  lemma NoData(categoryFilter: string)
    ensures FilteredTransactions(None, categoryFilter) == []
    ensures Categories(None) == []
  {
  }

  /** "all" keeps every transaction, in order. */
  lemma FilterAll(ts: seq<Transaction>)
    ensures FilteredTransactions(Some(ts), AllCategories) == ts
  {
    FilterKeepsAll(ts, (t: Transaction) => AllCategories == AllCategories || t.category == AllCategories);
  }

  /**
   * Any other value keeps exactly the transactions of that category, in their
   * order; transactions of other categories are gone.
   */
  lemma FilterCategory(ts: seq<Transaction>, categoryFilter: string)
    requires categoryFilter != AllCategories
    ensures FilteredTransactions(Some(ts), categoryFilter) == Filter(ts, (t: Transaction) => t.category == categoryFilter)
    ensures forall t :: t in FilteredTransactions(Some(ts), categoryFilter) <==> t in ts && t.category == categoryFilter
  {
    var p := (t: Transaction) => categoryFilter == AllCategories || t.category == categoryFilter;
    var q := (t: Transaction) => t.category == categoryFilter;
    FilterAgree(ts, p, q);
    forall t ensures t in Filter(ts, q) <==> t in ts && t.category == categoryFilter {
      FilterMember(ts, q, t);
    }
  }

  /**
   * The categories offered are distinct, are exactly the categories of the
   * transactions, and come in the order each first occurs.
   */
  lemma CategoriesSpec(ts: seq<Transaction>)
    ensures Distinct(Categories(Some(ts)))
    ensures forall c :: c in Categories(Some(ts)) <==> exists t :: t in ts && t.category == c
    ensures forall i :: 0 <= i < |Categories(Some(ts))| ==>
      Categories(Some(ts))[i] in Map(ts, (t: Transaction) => t.category)
    ensures forall i, j :: 0 <= i < j < |Categories(Some(ts))| ==>
      FirstIndex(Map(ts, (t: Transaction) => t.category), Categories(Some(ts))[i]) <
      FirstIndex(Map(ts, (t: Transaction) => t.category), Categories(Some(ts))[j])
  {
    var cs := Map(ts, (t: Transaction) => t.category);
    DedupSpec(cs);
    DedupFirstOccurrence(cs);
    forall c ensures c in cs <==> exists t :: t in ts && t.category == c {
      MapMember(ts, (t: Transaction) => t.category, c);
    }
  }

  /** Choosing an offered category never shows an empty list, even a category named "all". */
  lemma OfferedCategoryShowsSomething(ts: seq<Transaction>, c: string)
    requires c in Categories(Some(ts))
    ensures |FilteredTransactions(Some(ts), c)| > 0
  {
    CategoriesSpec(ts);
    var t :| t in ts && t.category == c;
    if c == AllCategories {
      FilterAll(ts);
    } else {
      FilterCategory(ts, c);
    }
    assert t in FilteredTransactions(Some(ts), c);
  }
}
