/**
  The list operations the pages are built from: Array.prototype.filter,
  `filter(...).length` counters and `reduce((sum, x) => sum + x.amount, 0)`
  totals, with the facts the pages' statistics depend on: a filter keeps an
  in-order subsequence of exactly the elements satisfying its predicate, and
  counts and sums over predicates that split the list add up to the whole.
*/
module Seqs {

  /** `r` can be obtained from `s` by deleting elements, keeping the order of the rest. */
  predicate IsSubsequence<T(==)>(r: seq<T>, s: seq<T>)
    decreases |s|
  {
    if r == [] then true
    else if s == [] then false
    else (r[0] == s[0] && IsSubsequence(r[1..], s[1..])) || IsSubsequence(r, s[1..])
  }

  lemma {:induction false} SubsequenceReflexive<T>(s: seq<T>)
    ensures IsSubsequence(s, s)
  {
    if s != [] {
      SubsequenceReflexive(s[1..]);
    }
  }

  lemma {:induction false} SubsequenceTransitive<T>(a: seq<T>, b: seq<T>, c: seq<T>)
    requires IsSubsequence(a, b) && IsSubsequence(b, c)
    ensures IsSubsequence(a, c)
    decreases |c|
  {
    if a != [] && c != [] {
      if b[0] == c[0] && IsSubsequence(b[1..], c[1..]) {
        if a[0] == b[0] && IsSubsequence(a[1..], b[1..]) {
          SubsequenceTransitive(a[1..], b[1..], c[1..]);
        } else {
          SubsequenceTransitive(a, b[1..], c[1..]);
        }
      } else {
        SubsequenceTransitive(a, b, c[1..]);
      }
    }
  }

  /** Array.prototype.filter. */
  function Filter<T(==)>(s: seq<T>, p: T -> bool): (r: seq<T>)
    ensures |r| <= |s|
    ensures forall i :: 0 <= i < |r| ==> r[i] in s && p(r[i])
    ensures forall i :: 0 <= i < |s| ==> (s[i] in r <==> p(s[i]))
    ensures IsSubsequence(r, s)
  {
    if s == [] then []
    else if p(s[0]) then [s[0]] + Filter(s[1..], p)
    else Filter(s[1..], p)
  }

  /** An element is in a filter's result exactly when it is in the input and passes. */
  lemma FilterMembership<T>(s: seq<T>, p: T -> bool, x: T)
    ensures x in Filter(s, p) <==> x in s && p(x)
  {
    if x in s {
      var i :| 0 <= i < |s| && s[i] == x;
    }
  }

  /** A filter keeps every copy of an element that passes and no copy of one
      that fails. */
  lemma {:induction false} FilterCount<T>(s: seq<T>, p: T -> bool, x: T)
    ensures multiset(Filter(s, p))[x] == if p(x) then multiset(s)[x] else 0
  {
    if s != [] {
      FilterCount(s[1..], p, x);
      assert s == [s[0]] + s[1..];
      assert multiset(s) == multiset{s[0]} + multiset(s[1..]);
      if p(s[0]) {
        assert multiset(Filter(s, p)) == multiset{s[0]} + multiset(Filter(s[1..], p));
      }
    }
  }

  /** The same, for every element at once. */
  lemma FilterMultiplicity<T>(s: seq<T>, p: T -> bool)
    ensures forall x :: multiset(Filter(s, p))[x] == (if p(x) then multiset(s)[x] else 0)
  {
    forall x ensures multiset(Filter(s, p))[x] == (if p(x) then multiset(s)[x] else 0) {
      FilterCount(s, p, x);
    }
  }

  /** A filter whose predicate holds everywhere returns its input unchanged. */
  lemma {:induction false} FilterKeepsAll<T>(s: seq<T>, p: T -> bool)
    requires forall x :: x in s ==> p(x)
    ensures Filter(s, p) == s
  {
    if s != [] {
      FilterKeepsAll(s[1..], p);
      assert s == [s[0]] + s[1..];
    }
  }

  /** Two filters in a row keep what one filter with the conjunction keeps. */
  lemma {:induction false} FilterTwice<T>(s: seq<T>, p: T -> bool, q: T -> bool, pq: T -> bool)
    requires forall x :: pq(x) == (p(x) && q(x))
    ensures Filter(Filter(s, p), q) == Filter(s, pq)
  {
    if s != [] {
      FilterTwice(s[1..], p, q, pq);
      if p(s[0]) {
        assert Filter(s, p) == [s[0]] + Filter(s[1..], p);
        assert ([s[0]] + Filter(s[1..], p))[1..] == Filter(s[1..], p);
      }
    }
  }

  /** Sum of `f` over the list, the value of `reduce((sum, x) => sum + f(x), 0)`. */
  function Sum<T>(s: seq<T>, f: T -> int): int {
    if s == [] then 0 else f(s[0]) + Sum(s[1..], f)
  }

  /** `reduce((sum, x) => p(x) ? sum + f(x) : sum, 0)`: the conditional-accumulator form
      the loan, transaction and deposit pages use. */
  function SumWhere<T>(s: seq<T>, p: T -> bool, f: T -> int): int {
    if s == [] then 0 else (if p(s[0]) then f(s[0]) else 0) + SumWhere(s[1..], p, f)
  }

  lemma SumCons<T>(x: T, s: seq<T>, f: T -> int)
    ensures Sum([x] + s, f) == f(x) + Sum(s, f)
  {
    assert ([x] + s)[1..] == s;
  }

  /** The conditional accumulator equals filtering first and summing after. */
  lemma {:induction false} SumWhereIsSumOfFilter<T>(s: seq<T>, p: T -> bool, f: T -> int)
    ensures SumWhere(s, p, f) == Sum(Filter(s, p), f)
  {
    if s != [] {
      SumWhereIsSumOfFilter(s[1..], p, f);
      if p(s[0]) {
        SumCons(s[0], Filter(s[1..], p), f);
      }
    }
  }

  lemma {:induction false} SumNonNegative<T>(s: seq<T>, f: T -> int)
    requires forall x :: x in s ==> f(x) >= 0
    ensures Sum(s, f) >= 0
  {
    if s != [] {
      SumNonNegative(s[1..], f);
    }
  }

  /** With non-negative terms, the sum over a filtered part never exceeds the whole sum. */
  lemma {:induction false} SumFilterBounded<T>(s: seq<T>, p: T -> bool, f: T -> int)
    requires forall x :: x in s ==> f(x) >= 0
    ensures Sum(Filter(s, p), f) <= Sum(s, f)
  {
    if s != [] {
      SumFilterBounded(s[1..], p, f);
      if p(s[0]) {
        SumCons(s[0], Filter(s[1..], p), f);
      }
    }
  }

  /** Predicates of which every element satisfies exactly one. */
  ghost predicate ExactlyOne<T>(s: seq<T>, p: T -> bool, q: T -> bool, r: T -> bool) {
    forall i :: 0 <= i < |s| ==>
      var x := s[i];
      (p(x) || q(x) || r(x)) && !(p(x) && q(x)) && !(p(x) && r(x)) && !(q(x) && r(x))
  }

  /** Counters over three classes that split the list add up to its length. */
  lemma {:induction false} CountPartition3<T>(s: seq<T>, p: T -> bool, q: T -> bool, r: T -> bool)
    requires ExactlyOne(s, p, q, r)
    ensures |Filter(s, p)| + |Filter(s, q)| + |Filter(s, r)| == |s|
  {
    if s != [] {
      CountPartition3(s[1..], p, q, r);
    }
  }

  /** Totals over three classes that split the list add up to the total over the list. */
  lemma {:induction false} SumPartition3<T>(s: seq<T>, p: T -> bool, q: T -> bool, r: T -> bool, f: T -> int)
    requires ExactlyOne(s, p, q, r)
    ensures Sum(Filter(s, p), f) + Sum(Filter(s, q), f) + Sum(Filter(s, r), f) == Sum(s, f)
  {
    if s != [] {
      SumPartition3(s[1..], p, q, r, f);
      SumCons(s[0], Filter(s[1..], p), f);
      SumCons(s[0], Filter(s[1..], q), f);
      SumCons(s[0], Filter(s[1..], r), f);
    }
  }

  /** Totals over two classes that split the list add up to the total over the list. */
  lemma {:induction false} SumPartition2<T>(s: seq<T>, p: T -> bool, q: T -> bool, f: T -> int)
    requires forall x :: x in s ==> p(x) != q(x)
    ensures Sum(Filter(s, p), f) + Sum(Filter(s, q), f) == Sum(s, f)
  {
    if s != [] {
      SumPartition2(s[1..], p, q, f);
      SumCons(s[0], Filter(s[1..], p), f);
      SumCons(s[0], Filter(s[1..], q), f);
    }
  }

  /** Counters over two classes that never overlap add up to at most the length. */
  lemma {:induction false} CountDisjoint<T>(s: seq<T>, p: T -> bool, q: T -> bool)
    requires forall x :: x in s ==> !(p(x) && q(x))
    ensures |Filter(s, p)| + |Filter(s, q)| <= |s|
  {
    if s != [] {
      CountDisjoint(s[1..], p, q);
    }
  }

  /** Replacing one element changes a filter's count by what the old and the new
      element contribute. */
  lemma {:induction false} FilterCountUpdate<T>(s: seq<T>, k: int, x: T, p: T -> bool)
    requires 0 <= k < |s|
    ensures |Filter(s[k := x], p)| == |Filter(s, p)| - (if p(s[k]) then 1 else 0) + (if p(x) then 1 else 0)
  {
    if k == 0 {
      assert s[k := x][1..] == s[1..];
    } else {
      FilterCountUpdate(s[1..], k - 1, x, p);
      assert s[k := x][1..] == s[1..][k - 1 := x];
    }
  }

  /** Replacing an element the filter drops by another one it drops leaves the
      filtered list as it was. */
  lemma {:induction false} FilterUpdateOutside<T>(s: seq<T>, k: int, x: T, p: T -> bool)
    requires 0 <= k < |s| && !p(s[k]) && !p(x)
    ensures Filter(s[k := x], p) == Filter(s, p)
  {
    if k == 0 {
      assert s[k := x][1..] == s[1..];
    } else {
      FilterUpdateOutside(s[1..], k - 1, x, p);
      assert s[k := x][1..] == s[1..][k - 1 := x];
    }
  }

  /** A filter that drops exactly one position shortens the list by one. */
  lemma {:induction false} FilterDropsOne<T>(s: seq<T>, k: int, p: T -> bool)
    requires 0 <= k < |s| && !p(s[k])
    requires forall i :: 0 <= i < |s| && i != k ==> p(s[i])
    ensures |Filter(s, p)| == |s| - 1
  {
    if k == 0 {
      forall x | x in s[1..] ensures p(x) {
        var j :| 0 <= j < |s[1..]| && s[1..][j] == x;
        assert s[j + 1] == x;
      }
      FilterKeepsAll(s[1..], p);
    } else {
      FilterDropsOne(s[1..], k - 1, p);
    }
  }

  /** Conditional sums over lists that agree pointwise on the condition and on
      the summed value are equal. */
  lemma {:induction false} SumWherePointwise<T>(s: seq<T>, t: seq<T>, p: T -> bool, f: T -> int)
    requires |s| == |t|
    requires forall i :: 0 <= i < |s| ==> p(s[i]) == p(t[i]) && f(s[i]) == f(t[i])
    ensures SumWhere(s, p, f) == SumWhere(t, p, f)
  {
    if s != [] {
      SumWherePointwise(s[1..], t[1..], p, f);
    }
  }

  /** Lists whose elements agree pointwise on `f` have the same sum of `f`. */
  lemma {:induction false} SumPointwise<T>(s: seq<T>, t: seq<T>, f: T -> int)
    requires |s| == |t|
    requires forall i :: 0 <= i < |s| ==> f(s[i]) == f(t[i])
    ensures Sum(s, f) == Sum(t, f)
  {
    if s != [] {
      SumPointwise(s[1..], t[1..], f);
    }
  }

  /** One step of the filter on a list given by its first element. */
  lemma FilterCons<T>(x: T, s: seq<T>, p: T -> bool)
    ensures Filter([x] + s, p) == if p(x) then [x] + Filter(s, p) else Filter(s, p)
  {
    assert ([x] + s)[1..] == s;
  }
}
