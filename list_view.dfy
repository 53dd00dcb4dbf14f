/**
 * The projection every list page computes: keep the records a predicate accepts,
 * then order them with `Array.prototype.sort` and a comparator picked by a sort key.
 * Since ECMA-262 (2019) `sort` is stable, so records the comparator calls equal keep
 * their relative order; `SortBy` is an insertion sort with that property, and a
 * stable sort of a total preorder has only one possible result.
 */
module ListView {
  import opened Strings

  /** `records.filter(p)`. */
  function Filter<T(!new)>(s: seq<T>, p: T -> bool): (r: seq<T>)
    ensures |r| <= |s|
  {
    if s == [] then []
    else (if p(s[0]) then [s[0]] else []) + Filter(s[1..], p)
  }

  /** The filter keeps exactly the records `p` accepts, each as often as it occurs in the input. */
  lemma {:induction false} FilterContents<T(!new)>(s: seq<T>, p: T -> bool)
    ensures forall x :: x in Filter(s, p) <==> x in s && p(x)
    ensures forall x :: multiset(Filter(s, p))[x] == if p(x) then multiset(s)[x] else 0
    decreases |s|
  {
    if s != [] {
      FilterContents(s[1..], p);
      assert s == [s[0]] + s[1..];
      assert multiset(s) == multiset{s[0]} + multiset(s[1..]);
    }
  }

  /** Filtering a concatenation filters each part. */
  lemma {:induction false} FilterConcat<T(!new)>(a: seq<T>, b: seq<T>, p: T -> bool)
    ensures Filter(a + b, p) == Filter(a, p) + Filter(b, p)
    decreases |a|
  {
    if a == [] {
      assert a + b == b;
    } else {
      var front := if p(a[0]) then [a[0]] else [];
      assert (a + b)[0] == a[0] && (a + b)[1..] == a[1..] + b;
      assert Filter(a + b, p) == front + Filter(a[1..] + b, p);
      FilterConcat(a[1..], b, p);
      assert front + (Filter(a[1..], p) + Filter(b, p)) == (front + Filter(a[1..], p)) + Filter(b, p);
    }
  }

  /** A filter that keeps everything changes nothing. */
  lemma {:induction false} FilterAll<T(!new)>(s: seq<T>, p: T -> bool)
    requires forall x :: x in s ==> p(x)
    ensures Filter(s, p) == s
    decreases |s|
  {
    if s != [] {
      FilterAll(s[1..], p);
      assert [s[0]] + s[1..] == s;
    }
  }

  /** `sub` is `s` with some records left out and the others in the order `s` lists them. */
  ghost predicate IsSubsequence<T>(sub: seq<T>, s: seq<T>)
    decreases |s|
  {
    if sub == [] then true
    else if s == [] then false
    else (sub[0] == s[0] && IsSubsequence(sub[1..], s[1..])) || IsSubsequence(sub, s[1..])
  }

  /** A subsequence picks its records at strictly increasing positions of the list. */
  lemma {:induction false} SubsequenceIndices<T>(sub: seq<T>, s: seq<T>) returns (idx: seq<nat>)
    requires IsSubsequence(sub, s)
    ensures |idx| == |sub|
    ensures forall k :: 0 <= k < |idx| ==> idx[k] < |s| && s[idx[k]] == sub[k]
    ensures forall k :: 0 < k < |idx| ==> idx[k - 1] < idx[k]
    decreases |s|
  {
    if sub == [] {
      return [];
    }
    if sub[0] == s[0] && IsSubsequence(sub[1..], s[1..]) {
      var rest := SubsequenceIndices(sub[1..], s[1..]);
      idx := [0] + seq(|rest|, k requires 0 <= k < |rest| => rest[k] + 1);
    } else {
      var rest := SubsequenceIndices(sub, s[1..]);
      idx := seq(|rest|, k requires 0 <= k < |rest| => rest[k] + 1);
    }
  }

  /** `filter` keeps the records it accepts in the order of the input. */
  lemma {:induction false} FilterIsSubsequence<T(!new)>(s: seq<T>, p: T -> bool)
    ensures IsSubsequence(Filter(s, p), s)
    decreases |s|
  {
    if s != [] {
      FilterIsSubsequence(s[1..], p);
      var r := Filter(s, p);
      if p(s[0]) {
        assert r[0] == s[0] && r[1..] == Filter(s[1..], p);
      } else {
        assert r == Filter(s[1..], p);
      }
    }
  }

  /** Two filters in a row are one filter on the conjunction, so their order does not matter. */
  lemma {:induction false} FilterFilter<T(!new)>(s: seq<T>, p: T -> bool, q: T -> bool, pq: T -> bool)
    requires forall x :: pq(x) == (p(x) && q(x))
    ensures Filter(Filter(s, p), q) == Filter(s, pq)
    ensures Filter(Filter(s, q), p) == Filter(s, pq)
    decreases |s|
  {
    if s != [] {
      FilterFilter(s[1..], p, q, pq);
      var fp, fq := Filter(s, p), Filter(s, q);
      if p(s[0]) { assert fp[1..] == Filter(s[1..], p); } else { assert fp == Filter(s[1..], p); }
      if q(s[0]) { assert fq[1..] == Filter(s[1..], q); } else { assert fq == Filter(s[1..], q); }
    }
  }

  /** Filters with the same verdict on every record give the same list. */
  lemma {:induction false} FilterSame<T(!new)>(s: seq<T>, p: T -> bool, q: T -> bool)
    requires forall x :: x in s ==> p(x) == q(x)
    ensures Filter(s, p) == Filter(s, q)
    decreases |s|
  {
    if s != [] {
      FilterSame(s[1..], p, q);
    }
  }

  /**
   * The comparators the pages use: `a.f.localeCompare(b.f)` (ascending text),
   * a newest-first date comparison on ISO `YYYY-MM-DD` text (descending text),
   * `b.f - a.f` (descending number), and `return 0` for an unknown sort key.
   */
  datatype Comparator<!T> =
    | ByText(text: T -> string)
    | ByTextDesc(text: T -> string)
    | ByNumberDesc(num: T -> real)
    | KeepOrder

  /** The comparator's result for `(a, b)` is at most 0: `a` may come before `b`. */
  predicate Precedes<T>(c: Comparator<T>, a: T, b: T) {
    match c
    case ByText(f) => LexLe(f(a), f(b))
    case ByTextDesc(f) => LexLe(f(b), f(a))
    case ByNumberDesc(f) => f(b) <= f(a)
    case KeepOrder => true
  }

  lemma PrecedesTotal<T>(c: Comparator<T>, a: T, b: T)
    ensures Precedes(c, a, b) || Precedes(c, b, a)
  {
    match c
    case ByText(f) => LexLeTotal(f(a), f(b));
    case ByTextDesc(f) => LexLeTotal(f(a), f(b));
    case ByNumberDesc(f) =>
    case KeepOrder =>
  }

  lemma PrecedesTransitive<T>(c: Comparator<T>, a: T, b: T, d: T)
    requires Precedes(c, a, b) && Precedes(c, b, d)
    ensures Precedes(c, a, d)
  {
    match c
    case ByText(f) => LexLeTransitive(f(a), f(b), f(d));
    case ByTextDesc(f) => LexLeTransitive(f(d), f(b), f(a));
    case ByNumberDesc(f) =>
    case KeepOrder =>
  }

  /** The comparator returns 0 for the pair: neither must come first. */
  predicate Tied<T>(c: Comparator<T>, a: T, b: T) {
    Precedes(c, a, b) && Precedes(c, b, a)
  }

  predicate Sorted<T>(c: Comparator<T>, s: seq<T>) {
    forall i, j :: 0 <= i < j < |s| ==> Precedes(c, s[i], s[j])
  }

  /** Put `x` in front of the first element it may precede. */
  function Insert<T>(c: Comparator<T>, x: T, t: seq<T>): (r: seq<T>)
    ensures multiset(r) == multiset(t) + multiset{x}
  {
    if t == [] || Precedes(c, x, t[0]) then [x] + t
    else
      assert t == [t[0]] + t[1..];
      [t[0]] + Insert(c, x, t[1..])
  }

  lemma {:induction false} InsertSorted<T>(c: Comparator<T>, x: T, t: seq<T>)
    requires Sorted(c, t)
    ensures Sorted(c, Insert(c, x, t))
    decreases |t|
  {
    var r := Insert(c, x, t);
    if t == [] || Precedes(c, x, t[0]) {
      forall i, j | 0 <= i < j < |r| ensures Precedes(c, r[i], r[j]) {
        if i == 0 && j > 1 { PrecedesTransitive(c, x, t[0], t[j - 1]); }
      }
    } else {
      var rest := Insert(c, x, t[1..]);
      InsertSorted(c, x, t[1..]);
      PrecedesTotal(c, x, t[0]);
      forall j | 0 <= j < |rest| ensures Precedes(c, t[0], rest[j]) {
        assert rest[j] in multiset(rest);
        if rest[j] != x {
          assert rest[j] in t[1..];
          var k :| 0 <= k < |t[1..]| && t[1..][k] == rest[j];
          assert t[k + 1] == rest[j];
        }
      }
      assert r == [t[0]] + rest;
    }
  }

  /** `records.sort(comparator)`, stable. */
  function SortBy<T>(c: Comparator<T>, s: seq<T>): (r: seq<T>)
    ensures multiset(r) == multiset(s) && |r| == |s|
    ensures Sorted(c, r)
  {
    if s == [] then []
    else
      var t := SortBy(c, s[1..]);
      InsertSorted(c, s[0], t);
      assert s == [s[0]] + s[1..];
      Insert(c, s[0], t)
  }

  /** Sorting a list with a known first record inserts it into the sorted rest. */
  lemma SortCons<T>(c: Comparator<T>, x: T, s: seq<T>)
    ensures SortBy(c, [x] + s) == Insert(c, x, SortBy(c, s))
  {
    assert ([x] + s)[1..] == s;
  }

  lemma InsertFront<T>(c: Comparator<T>, x: T, t: seq<T>)
    requires t == [] || Precedes(c, x, t[0])
    ensures Insert(c, x, t) == [x] + t
  {
  }

  lemma InsertPast<T>(c: Comparator<T>, x: T, y: T, t: seq<T>)
    requires !Precedes(c, x, y)
    ensures Insert(c, x, [y] + t) == [y] + Insert(c, x, t)
  {
    assert ([y] + t)[0] == y && ([y] + t)[1..] == t;
  }

  /** Two records the comparator puts the other way round are swapped by the sort. */
  lemma SortSwapsPair<T>(c: Comparator<T>, x: T, y: T)
    requires !Precedes(c, x, y)
    ensures SortBy(c, [x, y]) == [y, x]
  {
    var e: seq<T> := [];
    assert [y] + e == [y] && [x] + e == [x];
    SortCons(c, y, e);
    InsertFront(c, y, e);
    assert SortBy(c, [y]) == [y];
    InsertFront(c, x, e);
    InsertPast(c, x, y, e);
    assert Insert(c, x, [y]) == [y, x];
    assert [x, y] == [x] + [y];
    SortCons(c, x, [y]);
  }

  /** A comparator that always returns 0 leaves the order as it was. */
  lemma {:induction false} KeepOrderKeeps<T>(s: seq<T>)
    ensures SortBy(KeepOrder, s) == s
    decreases |s|
  {
    if s != [] {
      KeepOrderKeeps(s[1..]);
      assert [s[0]] + s[1..] == s;
    }
  }

  /** `filter` on a list with a known first element. */
  lemma FilterCons<T(!new)>(x: T, s: seq<T>, p: T -> bool)
    ensures Filter([x] + s, p) == (if p(x) then [x] else []) + Filter(s, p)
  {
    assert ([x] + s)[1..] == s;
  }

  /** `p` accepts only records the comparator ties with one another. */
  ghost predicate TieClass<T(!new)>(c: Comparator<T>, p: T -> bool) {
    forall y, z :: p(y) && p(z) ==> Precedes(c, y, z)
  }

  lemma {:induction false} InsertStable<T(!new)>(c: Comparator<T>, x: T, t: seq<T>, p: T -> bool)
    requires TieClass(c, p)
    ensures Filter(Insert(c, x, t), p) == (if p(x) then [x] else []) + Filter(t, p)
    decreases |t|
  {
    if t == [] || Precedes(c, x, t[0]) {
      FilterCons(x, t, p);
    } else {
      var rest := t[1..];
      assert t == [t[0]] + rest;
      var inserted := Insert(c, x, rest);
      InsertStable(c, x, rest, p);
      FilterCons(t[0], inserted, p);
      FilterCons(t[0], rest, p);
      // A record `p` accepts that `x` could not precede would break the tie class.
      assert p(x) ==> !p(t[0]);
    }
  }

  /**
   * Stability: the records tied with any record `k` come out in the order they went in
   * (`p` is the test "tied with `k`").
   */
  lemma {:induction false} SortStable<T(!new)>(c: Comparator<T>, s: seq<T>, k: T, p: T -> bool)
    requires forall y :: p(y) == Tied(c, y, k)
    ensures Filter(SortBy(c, s), p) == Filter(s, p)
    decreases |s|
  {
    if s != [] {
      SortStable(c, s[1..], k, p);
      forall y, z | p(y) && p(z) ensures Precedes(c, y, z) {
        PrecedesTransitive(c, y, k, z);
      }
      InsertStable(c, s[0], SortBy(c, s[1..]), p);
    }
  }

  /**
   * What a list page shows: the records `keep` accepts, sorted with `c`. The result holds
   * exactly the accepted records, each as often as in the input (a permutation of the
   * filtered list, so no record is lost or repeated), in the comparator's order.
   */
  function Project<T(!new)>(s: seq<T>, keep: T -> bool, c: Comparator<T>): (r: seq<T>)
    ensures Sorted(c, r) && |r| <= |s|
    ensures forall x :: x in r <==> x in s && keep(x)
    ensures forall x :: multiset(r)[x] == if keep(x) then multiset(s)[x] else 0
  {
    var f := Filter(s, keep);
    FilterContents(s, keep);
    var r := SortBy(c, f);
    assert forall x :: x in r <==> x in multiset(r);
    r
  }

  /** An unknown sort key (a comparator that returns 0) shows the filtered list in its input order. */
  lemma ProjectKeepOrder<T(!new)>(s: seq<T>, keep: T -> bool)
    ensures Project(s, keep, KeepOrder) == Filter(s, keep)
  {
    KeepOrderKeeps(Filter(s, keep));
  }

  /** Records the comparator ties with `k` appear in the order the input lists them. */
  lemma ProjectStable<T(!new)>(s: seq<T>, keep: T -> bool, c: Comparator<T>, k: T, p: T -> bool)
    requires forall y :: p(y) == Tied(c, y, k)
    ensures Filter(Project(s, keep, c), p) == Filter(Filter(s, keep), p)
  {
    SortStable(c, Filter(s, keep), k, p);
  }

  /** No record appears twice. */
  ghost predicate Distinct<T>(s: seq<T>) {
    forall i, j :: 0 <= i < j < |s| ==> s[i] != s[j]
  }

  lemma {:induction false} DistinctCountsAtMostOne<T>(s: seq<T>)
    requires Distinct(s)
    ensures forall x :: multiset(s)[x] <= 1
    decreases |s|
  {
    if s != [] {
      var rest := s[1..];
      assert s == [s[0]] + rest;
      assert Distinct(rest) by {
        forall i, j | 0 <= i < j < |rest| ensures rest[i] != rest[j] {
          assert rest[i] == s[i + 1] && rest[j] == s[j + 1];
        }
      }
      DistinctCountsAtMostOne(rest);
      assert s[0] !in rest;
    }
  }

  lemma CountsAtMostOneDistinct<T>(s: seq<T>)
    requires forall x :: multiset(s)[x] <= 1
    ensures Distinct(s)
  {
    forall i, j | 0 <= i < j < |s| ensures s[i] != s[j] {
      var x, before := s[j], s[..j];
      assert s == before + [x] + s[j + 1..];
      assert multiset(s) == multiset(before) + multiset{x} + multiset(s[j + 1..]);
      assert multiset(s)[x] >= multiset(before)[x] + 1;
      assert multiset(before)[x] == 0;
      assert s[i] in before;
    }
  }

  /** A list page built from records without repeats shows no record twice. */
  lemma ProjectDistinct<T(!new)>(s: seq<T>, keep: T -> bool, c: Comparator<T>)
    requires Distinct(s)
    ensures Distinct(Project(s, keep, c))
  {
    DistinctCountsAtMostOne(s);
    CountsAtMostOneDistinct(Project(s, keep, c));
  }

  /** `records.filter(p).length`. */
  function Count<T(!new)>(s: seq<T>, p: T -> bool): (n: nat)
    ensures n <= |s|
  {
    |Filter(s, p)|
  }

  /** A test that rejects one value alone counts every record but the copies of that value. */
  lemma {:induction false} CountAllBut<T(!new)>(s: seq<T>, p: T -> bool, x: T)
    requires forall y :: p(y) <==> y != x
    ensures Count(s, p) == |s| - multiset(s)[x]
    decreases |s|
  {
    if s != [] {
      CountAllBut(s[1..], p, x);
      assert s == [s[0]] + s[1..];
      assert Filter(s, p) == (if p(s[0]) then [s[0]] else []) + Filter(s[1..], p);
    }
  }

  /** Every record is either counted by `p` or by its negation `q`. */
  lemma {:induction false} CountComplement<T(!new)>(s: seq<T>, p: T -> bool, q: T -> bool)
    requires forall x :: q(x) == !p(x)
    ensures Count(s, p) + Count(s, q) == |s|
    decreases |s|
  {
    if s != [] {
      CountComplement(s[1..], p, q);
    }
  }

  /** `records.reduce((sum, r) => sum + f(r), 0)`. */
  function Sum<T>(s: seq<T>, f: T -> int): int {
    if s == [] then 0 else f(s[0]) + Sum(s[1..], f)
  }

  lemma {:induction false} SumConcat<T>(a: seq<T>, b: seq<T>, f: T -> int)
    ensures Sum(a + b, f) == Sum(a, f) + Sum(b, f)
    decreases |a|
  {
    if a == [] {
      assert a + b == b;
    } else {
      assert (a + b)[1..] == a[1..] + b;
      SumConcat(a[1..], b, f);
    }
  }

  /** Taking out the record at `k` takes one copy of it out of the multiset. */
  lemma RemoveAtMultiset<T>(b: seq<T>, k: nat)
    requires k < |b|
    ensures multiset(b[..k] + b[k + 1..]) == multiset(b) - multiset{b[k]}
  {
    assert b == b[..k] + [b[k]] + b[k + 1..];
  }

  /** Taking out the record at `k` takes its term out of the total. */
  lemma SumRemoveAt<T>(b: seq<T>, k: nat, f: T -> int)
    requires k < |b|
    ensures Sum(b, f) == f(b[k]) + Sum(b[..k] + b[k + 1..], f)
  {
    assert b == b[..k] + [b[k]] + b[k + 1..];
    SumConcat(b[..k] + [b[k]], b[k + 1..], f);
    SumConcat(b[..k], [b[k]], f);
    assert Sum([b[k]], f) == f(b[k]) by { assert [b[k]][1..] == []; }
    SumConcat(b[..k], b[k + 1..], f);
  }

  lemma FindIndex<T>(a: seq<T>, b: seq<T>) returns (k: nat)
    requires a != [] && multiset(a) == multiset(b)
    ensures k < |b| && b[k] == a[0]
  {
    assert a[0] in multiset(a);
    k :| 0 <= k < |b| && b[k] == a[0];
  }

  lemma PermutationTail<T>(a: seq<T>, b: seq<T>, k: nat)
    requires a != [] && multiset(a) == multiset(b) && k < |b| && b[k] == a[0]
    ensures multiset(a[1..]) == multiset(b[..k] + b[k + 1..])
  {
    var x := a[0];
    RemoveAtMultiset(b, k);
    assert multiset(a[1..]) == multiset(a) - multiset{x} by {
      assert a == [x] + a[1..];
    }
  }

  /** A total depends only on which records are summed, not on their order. */
  lemma {:induction false} SumPermutation<T>(a: seq<T>, b: seq<T>, f: T -> int)
    requires multiset(a) == multiset(b)
    ensures Sum(a, f) == Sum(b, f)
    decreases |a|
  {
    if a == [] {
      assert |b| == |multiset(b)| == 0;
    } else {
      var x := a[0];
      var k := FindIndex(a, b);
      var rest := b[..k] + b[k + 1..];
      PermutationTail(a, b, k);
      SumPermutation(a[1..], rest, f);
      SumRemoveAt(b, k, f);
    }
  }

  /** Filtering two orderings of the same records keeps the same records. */
  lemma FilterPermutation<T(!new)>(a: seq<T>, b: seq<T>, p: T -> bool)
    requires multiset(a) == multiset(b)
    ensures multiset(Filter(a, p)) == multiset(Filter(b, p))
  {
    FilterContents(a, p);
    FilterContents(b, p);
    assert forall x :: multiset(Filter(a, p))[x] == multiset(Filter(b, p))[x];
  }

  /** Sorting does not change a total: a reduce over the sorted list equals one over the input. */
  lemma SumSortBy<T>(c: Comparator<T>, s: seq<T>, f: T -> int)
    ensures Sum(SortBy(c, s), f) == Sum(s, f)
  {
    SumPermutation(SortBy(c, s), s, f);
  }

  /** A reduce over the records a filter keeps, adding only non-negative terms, is at most one over all. */
  lemma {:induction false} SumFilterLe<T(!new)>(s: seq<T>, p: T -> bool, f: T -> int)
    requires forall x :: x in s ==> f(x) >= 0
    ensures Sum(Filter(s, p), f) <= Sum(s, f)
    decreases |s|
  {
    if s != [] {
      var rest := s[1..];
      SumFilterLe(rest, p, f);
      FilterCons(s[0], rest, p);
      assert [s[0]] + rest == s;
      SumConcat(if p(s[0]) then [s[0]] else [], Filter(rest, p), f);
    }
  }
}
