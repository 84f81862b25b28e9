/**
 * Sequence operations that model the JavaScript array primitives the service is
 * built from: `map`, `filter`, `reduce` into a sum, `findIndex`, deduplication
 * through `new Set(...)`, and the stable `Array.prototype.sort` driven by a
 * numeric comparator.
 */
module Seqs {

  function Last<T>(s: seq<T>): T
    requires s != []
  {
    s[|s| - 1]
  }

  function DropLast<T>(s: seq<T>): seq<T>
    requires s != []
  {
    s[..|s| - 1]
  }

  // ---------------------------------------------------------------------------
  // map

  /** `Array.prototype.map`. */
  function Map<T, U>(s: seq<T>, f: T -> U): (r: seq<U>)
    ensures |r| == |s|
    ensures forall i :: 0 <= i < |s| ==> r[i] == f(s[i])
  {
    seq(|s|, i requires 0 <= i < |s| => f(s[i]))
  }

  lemma MapConcat<T, U>(a: seq<T>, b: seq<T>, f: T -> U)
    ensures Map(a + b, f) == Map(a, f) + Map(b, f)
  {
  }

  /** An element of a mapped sequence is the image of an element of the original. */
  lemma MapMember<T, U>(s: seq<T>, f: T -> U, y: U)
    ensures y in Map(s, f) <==> exists x :: x in s && f(x) == y
  {
    if y in Map(s, f) {
      var i :| 0 <= i < |s| && Map(s, f)[i] == y;
      assert s[i] in s;
    }
  }

  // ---------------------------------------------------------------------------
  // filter

  /** `Array.prototype.filter`: the elements satisfying `p`, in their original order. */
  function Filter<T>(s: seq<T>, p: T -> bool): (r: seq<T>)
    ensures |r| <= |s|
  {
    if s == [] then [] else Filter(DropLast(s), p) + (if p(Last(s)) then [Last(s)] else [])
  }

  /** Filtering distributes over concatenation: the relative order of the kept elements is preserved. */
  lemma {:induction false} FilterConcat<T>(a: seq<T>, b: seq<T>, p: T -> bool)
    ensures Filter(a + b, p) == Filter(a, p) + Filter(b, p)
  {
    if b == [] {
      assert a + b == a;
    } else {
      assert DropLast(a + b) == a + DropLast(b);
      assert Last(a + b) == Last(b);
      FilterConcat(a, DropLast(b), p);
    }
  }

  /** Exactly the elements satisfying `p` survive. */
  lemma {:induction false} FilterMember<T>(s: seq<T>, p: T -> bool, x: T)
    ensures x in Filter(s, p) <==> x in s && p(x)
  {
    if s != [] {
      FilterMember(DropLast(s), p, x);
      assert s == DropLast(s) + [Last(s)];
    }
  }

  /** Filtering an inserted element: kept in place when it satisfies `p`, invisible otherwise. */
  lemma FilterInsert<T>(a: seq<T>, x: T, b: seq<T>, p: T -> bool)
    ensures Filter(a + [x] + b, p) == Filter(a, p) + (if p(x) then [x] else []) + Filter(b, p)
    ensures !p(x) ==> Filter(a + [x] + b, p) == Filter(a + b, p)
  {
    FilterConcat(a + [x], b, p);
    FilterConcat(a, [x], p);
    FilterConcat(a, b, p);
    assert DropLast([x]) == [];
  }

  /** Filtering with a predicate every element satisfies changes nothing. */
  lemma {:induction false} FilterKeepsAll<T>(s: seq<T>, p: T -> bool)
    requires forall i :: 0 <= i < |s| ==> p(s[i])
    ensures Filter(s, p) == s
  {
    if s != [] {
      var init := DropLast(s);
      forall i | 0 <= i < |init| ensures p(init[i]) {
        assert init[i] == s[i];
      }
      FilterKeepsAll(init, p);
      assert p(s[|s| - 1]);
    }
  }

  /** Filtering with a predicate no element satisfies leaves nothing. */
  lemma {:induction false} FilterDropsAll<T>(s: seq<T>, p: T -> bool)
    requires forall i :: 0 <= i < |s| ==> !p(s[i])
    ensures Filter(s, p) == []
  {
    if s != [] {
      FilterDropsAll(DropLast(s), p);
      assert !p(s[|s| - 1]);
    }
  }

  /** Two predicates that agree on the elements filter alike. */
  lemma {:induction false} FilterAgree<T>(s: seq<T>, p: T -> bool, q: T -> bool)
    requires forall i :: 0 <= i < |s| ==> p(s[i]) == q(s[i])
    ensures Filter(s, p) == Filter(s, q)
  {
    if s != [] {
      FilterAgree(DropLast(s), p, q);
      assert p(s[|s| - 1]) == q(s[|s| - 1]);
    }
  }

  /** Filtering after a map is mapping after filtering by a predicate that tests the image. */
  lemma {:induction false} FilterMap<T, U>(s: seq<T>, f: T -> U, p: U -> bool, q: T -> bool)
    requires forall i :: 0 <= i < |s| ==> q(s[i]) == p(f(s[i]))
    ensures Filter(Map(s, f), p) == Map(Filter(s, q), f)
  {
    if s != [] {
      FilterMap(DropLast(s), f, p, q);
      assert Map(s, f) == Map(DropLast(s), f) + [f(Last(s))];
      assert DropLast(Map(s, f)) == Map(DropLast(s), f);
      assert q(s[|s| - 1]) == p(f(s[|s| - 1]));
      var kept := if q(Last(s)) then [Last(s)] else [];
      MapConcat(Filter(DropLast(s), q), kept, f);
    }
  }

  // ---------------------------------------------------------------------------
  // reduce

  /** `reduce((sum, x) => sum + amount(x), 0)`: a left fold, added up from the first element. */
  function Sum<T>(s: seq<T>, amount: T -> int): int
  {
    if s == [] then 0 else Sum(DropLast(s), amount) + amount(Last(s))
  }

  lemma {:induction false} SumConcat<T>(a: seq<T>, b: seq<T>, amount: T -> int)
    ensures Sum(a + b, amount) == Sum(a, amount) + Sum(b, amount)
  {
    if b == [] {
      assert a + b == a;
    } else {
      assert DropLast(a + b) == a + DropLast(b);
      assert Last(a + b) == Last(b);
      SumConcat(a, DropLast(b), amount);
    }
  }

  /**
   * With non-negative amounts, summing over a smaller selection gives no more:
   * if every element `p` keeps is also kept by `q`, the `p`-sum is at most the `q`-sum.
   */
  lemma {:induction false} SumFilterMonotone<T>(s: seq<T>, p: T -> bool, q: T -> bool, amount: T -> int)
    requires forall i :: 0 <= i < |s| ==> p(s[i]) ==> q(s[i])
    requires forall i :: 0 <= i < |s| ==> amount(s[i]) >= 0
    ensures Sum(Filter(s, p), amount) <= Sum(Filter(s, q), amount)
  {
    if s != [] {
      var x := Last(s);
      SumFilterMonotone(DropLast(s), p, q, amount);
      SumConcat(Filter(DropLast(s), p), if p(x) then [x] else [], amount);
      SumConcat(Filter(DropLast(s), q), if q(x) then [x] else [], amount);
      assert p(s[|s| - 1]) ==> q(s[|s| - 1]);
      assert amount(s[|s| - 1]) >= 0;
      assert DropLast([x]) == [];
    }
  }

  /** Sums of two equally long sequences agree when their terms agree position by position. */
  lemma {:induction false} SumPointwise<T, U>(s: seq<T>, f: T -> int, t: seq<U>, g: U -> int)
    requires |s| == |t|
    requires forall i :: 0 <= i < |s| ==> f(s[i]) == g(t[i])
    ensures Sum(s, f) == Sum(t, g)
  {
    if s != [] {
      SumPointwise(DropLast(s), f, DropLast(t), g);
      assert f(s[|s| - 1]) == g(t[|t| - 1]);
    }
  }

  /**
   * Raising the term of one element of a repetition-free sequence by `d`
   * raises the sum by `d`.
   */
  lemma {:induction false} SumBump<T>(s: seq<T>, f: T -> int, g: T -> int, x: T, d: int)
    requires Distinct(s) && x in s
    requires forall i :: 0 <= i < |s| ==> g(s[i]) == f(s[i]) + (if s[i] == x then d else 0)
    ensures Sum(s, g) == Sum(s, f) + d
  {
    var p := DropLast(s);
    assert s == p + [Last(s)];
    assert g(s[|s| - 1]) == f(s[|s| - 1]) + (if s[|s| - 1] == x then d else 0);
    if Last(s) == x {
      SumPointwise(p, g, p, f);
    } else {
      SumBump(p, f, g, x, d);
    }
  }

  lemma {:induction false} SumNonNegative<T>(s: seq<T>, f: T -> int)
    requires forall i :: 0 <= i < |s| ==> f(s[i]) >= 0
    ensures Sum(s, f) >= 0
  {
    if s != [] {
      SumNonNegative(DropLast(s), f);
      assert f(s[|s| - 1]) >= 0;
    }
  }

  lemma SumCons<T>(x: T, s: seq<T>, f: T -> int)
    ensures Sum([x] + s, f) == f(x) + Sum(s, f)
  {
    SumConcat([x], s, f);
    assert DropLast([x]) == [];
  }

  /** Sorting leaves a sum unchanged. */
  lemma {:induction false} SumInsert<T>(t: seq<T>, x: T, key: T -> int, f: T -> int)
    ensures Sum(Insert(t, x, key), f) == Sum(t, f) + f(x)
  {
    if t == [] {
      assert DropLast([x]) == [];
    } else if key(x) < key(t[0]) {
      SumCons(x, t, f);
    } else {
      SumInsert(t[1..], x, key, f);
      SumCons(t[0], Insert(t[1..], x, key), f);
      SumCons(t[0], t[1..], f);
      assert t == [t[0]] + t[1..];
    }
  }

  lemma {:induction false} SumSortByKey<T>(s: seq<T>, key: T -> int, f: T -> int)
    ensures Sum(SortByKey(s, key), f) == Sum(s, f)
  {
    if s != [] {
      SumSortByKey(DropLast(s), key, f);
      SumInsert(SortByKey(DropLast(s), key), Last(s), key, f);
    }
  }

  // ---------------------------------------------------------------------------
  // findIndex

  /** `Array.prototype.findIndex`: the first index whose element satisfies `p`, or -1. */
  function FindIndex<T>(s: seq<T>, p: T -> bool): (r: int)
    ensures -1 <= r < |s|
    ensures 0 <= r ==> p(s[r]) && forall j :: 0 <= j < r ==> !p(s[j])
    ensures r == -1 ==> forall j :: 0 <= j < |s| ==> !p(s[j])
  {
    if s == [] then -1
    else if p(s[0]) then 0
    else
      var r := FindIndex(s[1..], p);
      if r == -1 then -1 else r + 1
  }

  // ---------------------------------------------------------------------------
  // Array.from(new Set(s))

  ghost predicate Distinct<T>(s: seq<T>) {
    forall i, j :: 0 <= i < j < |s| ==> s[i] != s[j]
  }

  /** No two elements share the same image under `f`. */
  ghost predicate DistinctBy<T, U>(s: seq<T>, f: T -> U) {
    forall i, j :: 0 <= i < j < |s| ==> f(s[i]) != f(s[j])
  }

  /** The distinct elements of `s` in order of first occurrence, as a JavaScript `Set` iterates them. */
  function Dedup<T(==)>(s: seq<T>): seq<T>
  {
    if s == [] then []
    else
      var d := Dedup(DropLast(s));
      if Last(s) in d then d else d + [Last(s)]
  }

  /** Deduplication keeps every element and repeats none. */
  lemma {:induction false} DedupSpec<T>(s: seq<T>)
    ensures Distinct(Dedup(s))
    ensures forall x :: x in Dedup(s) <==> x in s
    ensures forall i :: 0 <= i < |Dedup(s)| ==> Dedup(s)[i] in s
  {
    if s != [] {
      DedupSpec(DropLast(s));
      assert s == DropLast(s) + [Last(s)];
    }
  }

  /** Position of the first occurrence of `x` in `s`. */
  function FirstIndex<T(==)>(s: seq<T>, x: T): (i: nat)
    requires x in s
    ensures i < |s| && s[i] == x && x !in s[..i]
  {
    if s[0] == x then 0 else 1 + FirstIndex(s[1..], x)
  }

  /** Appending an element does not move the first occurrence of anything already present. */
  lemma {:induction false} FirstIndexSnoc<T>(s: seq<T>, y: T, x: T)
    requires x in s
    ensures FirstIndex(s + [y], x) == FirstIndex(s, x)
  {
    if s[0] != x {
      assert (s + [y])[1..] == s[1..] + [y];
      FirstIndexSnoc(s[1..], y, x);
    }
  }

  /** `Dedup` lists the distinct elements in the order of their first occurrences. */
  lemma {:induction false} DedupFirstOccurrence<T>(s: seq<T>)
    ensures forall i :: 0 <= i < |Dedup(s)| ==> Dedup(s)[i] in s
    ensures forall i, j :: 0 <= i < j < |Dedup(s)| ==> FirstIndex(s, Dedup(s)[i]) < FirstIndex(s, Dedup(s)[j])
  {
    if s != [] {
      var p, y := DropLast(s), Last(s);
      var d := Dedup(p);
      assert s == p + [y];
      DedupFirstOccurrence(p);
      DedupSpec(p);
      var r := Dedup(s);
      assert r == if y in d then d else d + [y];
      DedupSpec(s);
      forall i, j | 0 <= i < j < |r|
        ensures r[i] in s && r[j] in s && FirstIndex(s, r[i]) < FirstIndex(s, r[j])
      {
        assert i < |d| && r[i] == d[i] && d[i] in p;
        FirstIndexSnoc(p, y, d[i]);
        if j < |d| {
          assert r[j] == d[j] && d[j] in p;
          FirstIndexSnoc(p, y, d[j]);
        } else {
          assert r[j] == y && y !in p;
        }
      }
    }
  }

  // ---------------------------------------------------------------------------
  // Array.prototype.sort((a, b) => key(a) - key(b)), a stable sort

  ghost predicate SortedBy<T>(s: seq<T>, key: T -> int) {
    forall i, j :: 0 <= i < j < |s| ==> key(s[i]) <= key(s[j])
  }

  /** A prefix of a sorted list with distinct values is again sorted and distinct. */
  lemma SortedDistinctPrefix<T, U>(s: seq<T>, n: nat, key: T -> int, f: T -> U)
    requires n <= |s| && SortedBy(s, key) && DistinctBy(s, f)
    ensures SortedBy(s[..n], key) && DistinctBy(s[..n], f)
  {
    var q := s[..n];
    assert forall i :: 0 <= i < |q| ==> q[i] == s[i];
  }

  /** Sorted by a key no two elements share: strictly ascending. */
  lemma SortedDistinctAscending<T>(s: seq<T>, key: T -> int)
    requires SortedBy(s, key) && DistinctBy(s, key)
    ensures forall i, j :: 0 <= i < j < |s| ==> key(s[i]) < key(s[j])
  {
  }

  /** Places `x` after every element whose key is not above its own. */
  function Insert<T>(t: seq<T>, x: T, key: T -> int): seq<T>
  {
    if t == [] then [x]
    else if key(x) < key(t[0]) then [x] + t
    else [t[0]] + Insert(t[1..], x, key)
  }

  /** Insertion sort from the first element to the last; equal keys keep their input order. */
  function SortByKey<T>(s: seq<T>, key: T -> int): seq<T>
  {
    if s == [] then [] else Insert(SortByKey(DropLast(s), key), Last(s), key)
  }

  /** The elements of `s` whose key is `k`, in order. */
  function WithKey<T>(s: seq<T>, key: T -> int, k: int): seq<T>
  {
    Filter(s, y => key(y) == k)
  }

  /** Any predicate that singles out the key `k` selects the same elements. */
  lemma WithKeyFilter<T>(s: seq<T>, key: T -> int, k: int, p: T -> bool)
    requires forall i :: 0 <= i < |s| ==> p(s[i]) == (key(s[i]) == k)
    ensures WithKey(s, key, k) == Filter(s, p)
  {
    FilterAgree(s, y => key(y) == k, p);
  }

  lemma {:induction false} InsertMultiset<T>(t: seq<T>, x: T, key: T -> int)
    ensures multiset(Insert(t, x, key)) == multiset(t) + multiset{x}
  {
    if t != [] && key(x) >= key(t[0]) {
      InsertMultiset(t[1..], x, key);
      assert t == [t[0]] + t[1..];
    }
  }

  lemma {:induction false} InsertMember<T>(t: seq<T>, x: T, key: T -> int, z: T)
    ensures z in Insert(t, x, key) <==> z in t || z == x
  {
    InsertMultiset(t, x, key);
    assert z in Insert(t, x, key) <==> z in multiset(Insert(t, x, key));
  }

  /** A head no larger than any element of a sorted list keeps it sorted. */
  lemma SortedCons<T>(h: T, r: seq<T>, key: T -> int)
    requires SortedBy(r, key)
    requires forall i :: 0 <= i < |r| ==> key(h) <= key(r[i])
    ensures SortedBy([h] + r, key)
  {
    var c := [h] + r;
    forall i, j | 0 <= i < j < |c| ensures key(c[i]) <= key(c[j]) {
      assert c[j] == r[j - 1];
      if i > 0 {
        assert c[i] == r[i - 1];
      }
    }
  }

  lemma {:induction false} InsertSorted<T>(t: seq<T>, x: T, key: T -> int)
    requires SortedBy(t, key)
    ensures SortedBy(Insert(t, x, key), key)
  {
    if t == [] {
    } else if key(x) < key(t[0]) {
      SortedCons(x, t, key);
    } else {
      var rest := Insert(t[1..], x, key);
      InsertSorted(t[1..], x, key);
      forall i | 0 <= i < |rest| ensures key(t[0]) <= key(rest[i]) {
        assert rest[i] in rest;
        InsertMember(t[1..], x, key, rest[i]);
        if rest[i] != x {
          var k :| 0 <= k < |t[1..]| && t[1..][k] == rest[i];
          assert t[k + 1] == rest[i];
        }
      }
      SortedCons(t[0], rest, key);
    }
  }

  /** The sort yields a permutation of its input ordered by key. */
  lemma {:induction false} SortByKeySpec<T>(s: seq<T>, key: T -> int)
    ensures SortedBy(SortByKey(s, key), key)
    ensures multiset(SortByKey(s, key)) == multiset(s)
    ensures |SortByKey(s, key)| == |s|
  {
    if s != [] {
      SortByKeySpec(DropLast(s), key);
      InsertSorted(SortByKey(DropLast(s), key), Last(s), key);
      InsertMultiset(SortByKey(DropLast(s), key), Last(s), key);
      assert s == DropLast(s) + [Last(s)];
    }
    assert |multiset(SortByKey(s, key))| == |multiset(s)|;
  }

  /** Membership is unchanged by sorting. */
  lemma SortByKeyMember<T>(s: seq<T>, key: T -> int, x: T)
    ensures x in SortByKey(s, key) <==> x in s
  {
    SortByKeySpec(s, key);
    assert x in SortByKey(s, key) <==> x in multiset(SortByKey(s, key));
  }

  lemma SortedTail<T>(t: seq<T>, key: T -> int)
    requires t != [] && SortedBy(t, key)
    ensures SortedBy(t[1..], key)
    ensures forall i :: 0 <= i < |t| ==> key(t[0]) <= key(t[i])
  {
    var r := t[1..];
    forall i, j | 0 <= i < j < |r| ensures key(r[i]) <= key(r[j]) {
      assert r[i] == t[i + 1] && r[j] == t[j + 1];
    }
  }

  /** An element placed in front of a sorted list precedes no element with its key. */
  lemma InsertStableFront<T>(t: seq<T>, x: T, key: T -> int, k: int)
    requires t != [] && SortedBy(t, key) && key(x) < key(t[0])
    ensures WithKey([x] + t, key, k) == WithKey(t, key, k) + (if key(x) == k then [x] else [])
  {
    var p := (y: T) => key(y) == k;
    assert DropLast([x]) == [];
    FilterConcat([x], t, p);
    if key(x) == k {
      SortedTail(t, key);
      FilterDropsAll(t, p);
    }
  }

  /** An element placed behind the head: the head's contribution is unchanged. */
  lemma {:induction false} InsertStableBehind<T>(t: seq<T>, x: T, key: T -> int, k: int)
    requires t != [] && SortedBy(t, key) && key(x) >= key(t[0])
    ensures WithKey(Insert(t, x, key), key, k) == WithKey(t, key, k) + (if key(x) == k then [x] else [])
    decreases |t|, 0
  {
    var p := (y: T) => key(y) == k;
    var rest := Insert(t[1..], x, key);
    var extra := if key(x) == k then [x] else [];
    assert Insert(t, x, key) == [t[0]] + rest;
    var head := Filter([t[0]], p);
    FilterConcat([t[0]], rest, p);
    SortedTail(t, key);
    InsertStable(t[1..], x, key, k);
    assert WithKey(rest, key, k) == WithKey(t[1..], key, k) + extra;
    assert t == [t[0]] + t[1..];
    FilterConcat([t[0]], t[1..], p);
    assert head + (WithKey(t[1..], key, k) + extra) == (head + WithKey(t[1..], key, k)) + extra;
  }

  lemma {:induction false} InsertStable<T>(t: seq<T>, x: T, key: T -> int, k: int)
    requires SortedBy(t, key)
    ensures WithKey(Insert(t, x, key), key, k) == WithKey(t, key, k) + (if key(x) == k then [x] else [])
    decreases |t|, 1
  {
    if t == [] {
      assert DropLast([x]) == [];
    } else if key(x) < key(t[0]) {
      InsertStableFront(t, x, key, k);
    } else {
      InsertStableBehind(t, x, key, k);
    }
  }

  /** Stability: among elements with equal keys the sort keeps the input order. */
  lemma {:induction false} SortByKeyStable<T>(s: seq<T>, key: T -> int, k: int)
    ensures WithKey(SortByKey(s, key), key, k) == WithKey(s, key, k)
  {
    if s != [] {
      SortByKeyStable(DropLast(s), key, k);
      SortByKeySpec(DropLast(s), key);
      InsertStable(SortByKey(DropLast(s), key), Last(s), key, k);
    }
  }

  lemma {:induction false} InsertDistinctBy<T, U>(t: seq<T>, x: T, key: T -> int, f: T -> U)
    requires DistinctBy(t, f)
    requires forall i :: 0 <= i < |t| ==> f(t[i]) != f(x)
    ensures DistinctBy(Insert(t, x, key), f)
  {
    if t != [] && key(x) >= key(t[0]) {
      var rest := Insert(t[1..], x, key);
      InsertDistinctBy(t[1..], x, key, f);
      assert t == [t[0]] + t[1..];
      forall z | z in rest ensures f(t[0]) != f(z) {
        InsertMember(t[1..], x, key, z);
        if z != x {
          var k :| 0 <= k < |t[1..]| && t[1..][k] == z;
          assert t[k + 1] == z;
        }
      }
      var r := [t[0]] + rest;
      forall i, j | 0 <= i < j < |r| ensures f(r[i]) != f(r[j]) {
        if i == 0 {
          assert r[j] == rest[j - 1];
          assert rest[j - 1] in rest;
        } else {
          assert r[i] == rest[i - 1] && r[j] == rest[j - 1];
        }
      }
    }
  }

  /** Sorting never makes two elements share an `f`-image that were apart before. */
  lemma {:induction false} SortByKeyDistinctBy<T, U>(s: seq<T>, key: T -> int, f: T -> U)
    requires DistinctBy(s, f)
    ensures DistinctBy(SortByKey(s, key), f)
  {
    if s != [] {
      var p := DropLast(s);
      SortByKeyDistinctBy(p, key, f);
      var t := SortByKey(p, key);
      forall i | 0 <= i < |t| ensures f(t[i]) != f(Last(s)) {
        SortByKeyMember(p, key, t[i]);
        assert t[i] in t;
        var k :| 0 <= k < |p| && p[k] == t[i];
        assert s[k] == t[i];
      }
      InsertDistinctBy(t, Last(s), key, f);
    }
  }

  lemma {:induction false} InsertMap<T, U>(t: seq<T>, x: T, f: T -> U, key: U -> int, key': T -> int)
    requires forall i :: 0 <= i < |t| ==> key'(t[i]) == key(f(t[i]))
    requires key'(x) == key(f(x))
    ensures Insert(Map(t, f), f(x), key) == Map(Insert(t, x, key'), f)
  {
    if t != [] {
      assert Map(t, f)[1..] == Map(t[1..], f);
      InsertMap(t[1..], x, f, key, key');
    }
  }

  /** Mapping and then sorting is sorting by the key of the image, then mapping. */
  lemma {:induction false} SortByKeyMap<T, U>(s: seq<T>, f: T -> U, key: U -> int, key': T -> int)
    requires forall i :: 0 <= i < |s| ==> key'(s[i]) == key(f(s[i]))
    ensures SortByKey(Map(s, f), key) == Map(SortByKey(s, key'), f)
  {
    if s != [] {
      var p := DropLast(s);
      assert DropLast(Map(s, f)) == Map(p, f);
      SortByKeyMap(p, f, key, key');
      var t := SortByKey(p, key');
      forall i | 0 <= i < |t| ensures key'(t[i]) == key(f(t[i])) {
        SortByKeyMember(p, key', t[i]);
        assert t[i] in t;
        var k :| 0 <= k < |p| && p[k] == t[i];
        assert s[k] == t[i];
      }
      assert key'(s[|s| - 1]) == key(f(s[|s| - 1]));
      InsertMap(t, Last(s), f, key, key');
    }
  }
}
