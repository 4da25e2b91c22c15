/**
 * The list operations the pages are built from: `Array.prototype.filter`, a summing
 * `reduce`, and the order-preserving subsequence relation used to state what a filter keeps.
 */
module Seqs {

  /** `a` can be obtained from `b` by deleting elements, keeping the order of the rest. */
  predicate IsSubsequence<T(==)>(a: seq<T>, b: seq<T>)
    decreases |b|
  {
    if a == [] then true
    else if b == [] then false
    else if a[0] == b[0] then IsSubsequence(a[1..], b[1..])
    else IsSubsequence(a, b[1..])
  }

  /** `s.filter(p)`: the elements of `s` satisfying `p`, in their original order. */
  function Filter<T>(p: T -> bool, s: seq<T>): (r: seq<T>)
    ensures |r| <= |s|
    ensures forall i :: 0 <= i < |r| ==> r[i] in s && p(r[i])
    ensures forall i :: 0 <= i < |s| && p(s[i]) ==> s[i] in r
  {
    if s == [] then []
    else (if p(s[0]) then [s[0]] else []) + Filter(p, s[1..])
  }

  /** `s.reduce((sum, x) => sum + f(x), 0)` over integers. */
  function SumOf<T>(f: T -> int, s: seq<T>): int
  {
    if s == [] then 0 else f(s[0]) + SumOf(f, s[1..])
  }

  lemma {:induction false} FilterConcat<T>(p: T -> bool, a: seq<T>, b: seq<T>)
    ensures Filter(p, a + b) == Filter(p, a) + Filter(p, b)
  {
    if a == [] {
      assert a + b == b;
    } else {
      assert (a + b)[0] == a[0];
      assert (a + b)[1..] == a[1..] + b;
      FilterConcat(p, a[1..], b);
    }
  }

  /** The filter result is an order-preserving subsequence of its input. */
  lemma {:induction false} FilterIsSubsequence<T>(p: T -> bool, s: seq<T>)
    ensures IsSubsequence(Filter(p, s), s)
  {
    if s != [] {
      FilterIsSubsequence(p, s[1..]);
      var rest := Filter(p, s[1..]);
      if p(s[0]) {
        assert Filter(p, s) == [s[0]] + rest;
        assert ([s[0]] + rest)[1..] == rest;
      } else {
        assert Filter(p, s) == rest;
        if rest != [] {
          assert p(rest[0]);
          assert rest[0] != s[0];
        }
      }
    }
  }

  /** Filtering keeps every occurrence of an admitted value and none of a rejected one. */
  lemma {:induction false} FilterMultiplicity<T>(p: T -> bool, s: seq<T>, x: T)
    ensures multiset(Filter(p, s))[x] == if p(x) then multiset(s)[x] else 0
  {
    if s != [] {
      FilterMultiplicity(p, s[1..], x);
      assert s == [s[0]] + s[1..];
      assert multiset(s) == multiset([s[0]]) + multiset(s[1..]);
    }
  }

  /** A filter that admits every element returns its input unchanged. */
  lemma {:induction false} FilterKeepsAll<T>(p: T -> bool, s: seq<T>)
    requires forall i :: 0 <= i < |s| ==> p(s[i])
    ensures Filter(p, s) == s
  {
    if s != [] {
      assert p(s[0]);
      FilterKeepsAll(p, s[1..]);
    }
  }

  /** A filter that admits no element returns the empty list. */
  lemma {:induction false} FilterKeepsNone<T>(p: T -> bool, s: seq<T>)
    requires forall i :: 0 <= i < |s| ==> !p(s[i])
    ensures Filter(p, s) == []
  {
    if s != [] {
      assert !p(s[0]);
      FilterKeepsNone(p, s[1..]);
    }
  }

  /** When exactly one position satisfies `p`, the filter is that one element. */
  lemma {:induction false} FilterSingleMatch<T>(p: T -> bool, s: seq<T>, k: nat)
    requires k < |s| && p(s[k])
    requires forall i :: 0 <= i < |s| && i != k ==> !p(s[i])
    ensures Filter(p, s) == [s[k]]
  {
    var rest := s[1..];
    assert forall i :: 0 <= i < |rest| ==> rest[i] == s[i + 1];
    if k == 0 {
      FilterKeepsNone(p, rest);
      assert Filter(p, s) == [s[0]] + Filter(p, rest);
    } else {
      FilterSingleMatch(p, rest, k - 1);
      assert Filter(p, s) == Filter(p, rest);
    }
  }

  /** Filtering twice by the same predicate is filtering once. */
  lemma {:induction false} FilterIdempotent<T>(p: T -> bool, s: seq<T>)
    ensures Filter(p, Filter(p, s)) == Filter(p, s)
  {
    FilterKeepsAll(p, Filter(p, s));
  }

  /** A stronger filter keeps an order-preserving subsequence of what a weaker one keeps. */
  lemma {:induction false} FilterStrongerIsSubsequence<T>(p: T -> bool, q: T -> bool, s: seq<T>)
    requires forall i :: 0 <= i < |s| ==> p(s[i]) ==> q(s[i])
    ensures IsSubsequence(Filter(p, s), Filter(q, s))
  {
    if s != [] {
      FilterStrongerIsSubsequence(p, q, s[1..]);
      var a, b := Filter(p, s[1..]), Filter(q, s[1..]);
      if p(s[0]) {
        assert Filter(p, s) == [s[0]] + a;
        assert Filter(q, s) == [s[0]] + b;
        assert ([s[0]] + a)[1..] == a;
        assert ([s[0]] + b)[1..] == b;
      } else if q(s[0]) {
        assert Filter(p, s) == a;
        assert Filter(q, s) == [s[0]] + b;
        assert ([s[0]] + b)[1..] == b;
        if a != [] {
          assert p(a[0]);
          assert a[0] != s[0];
        }
      } else {
        assert Filter(p, s) == a;
        assert Filter(q, s) == b;
      }
    }
  }

  lemma {:induction false} SumOfConcat<T>(f: T -> int, a: seq<T>, b: seq<T>)
    ensures SumOf(f, a + b) == SumOf(f, a) + SumOf(f, b)
  {
    if a == [] {
      assert a + b == b;
    } else {
      assert (a + b)[0] == a[0];
      assert (a + b)[1..] == a[1..] + b;
      SumOfConcat(f, a[1..], b);
    }
  }

  /** Splitting a list by a predicate and its negation splits its sum. */
  lemma {:induction false} SumOfPartition<T>(f: T -> int, p: T -> bool, q: T -> bool, s: seq<T>)
    requires forall i :: 0 <= i < |s| ==> q(s[i]) == !p(s[i])
    ensures SumOf(f, s) == SumOf(f, Filter(p, s)) + SumOf(f, Filter(q, s))
  {
    if s != [] {
      SumOfPartition(f, p, q, s[1..]);
      SumOfConcat(f, if p(s[0]) then [s[0]] else [], Filter(p, s[1..]));
      SumOfConcat(f, if q(s[0]) then [s[0]] else [], Filter(q, s[1..]));
    }
  }

  /** Filtering by the union of two disjoint tests sums to the two filters' sums. */
  lemma {:induction false} SumOfDisjointUnion<T>(f: T -> int, p: T -> bool, q: T -> bool, r: T -> bool, s: seq<T>)
    requires forall i :: 0 <= i < |s| ==> r(s[i]) == (p(s[i]) || q(s[i]))
    requires forall i :: 0 <= i < |s| ==> !(p(s[i]) && q(s[i]))
    ensures SumOf(f, Filter(r, s)) == SumOf(f, Filter(p, s)) + SumOf(f, Filter(q, s))
  {
    if s != [] {
      SumOfDisjointUnion(f, p, q, r, s[1..]);
      SumOfConcat(f, if p(s[0]) then [s[0]] else [], Filter(p, s[1..]));
      SumOfConcat(f, if q(s[0]) then [s[0]] else [], Filter(q, s[1..]));
      SumOfConcat(f, if r(s[0]) then [s[0]] else [], Filter(r, s[1..]));
      assert [s[0]][1..] == [];
    }
  }

  /** A sum of non-negative terms is non-negative. */
  lemma {:induction false} SumOfNonNegative<T>(f: T -> int, s: seq<T>)
    requires forall i :: 0 <= i < |s| ==> f(s[i]) >= 0
    ensures SumOf(f, s) >= 0
  {
    if s != [] {
      assert f(s[0]) >= 0;
      SumOfNonNegative(f, s[1..]);
    }
  }
}
