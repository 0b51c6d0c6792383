/** Order-preserving selection from sequences (the `Array.prototype.filter` of the source). */
module Seqs {

  /** `a` is `b` with some elements dropped and the remaining ones kept in their order. */
  predicate IsSubsequence<T(==)>(a: seq<T>, b: seq<T>)
    decreases |b|
  {
    && |a| <= |b|
    && (|a| == 0
        || (a[|a| - 1] == b[|b| - 1] && IsSubsequence(a[..|a| - 1], b[..|b| - 1]))
        || IsSubsequence(a, b[..|b| - 1]))
  }

  /** The elements of `s` that satisfy `f`, in the order of `s`. */
  function Filter<T(==,!new)>(s: seq<T>, f: T -> bool): (r: seq<T>)
    ensures |r| <= |s|
    ensures forall x :: x in r <==> x in s && f(x)
  {
    if |s| == 0 then []
    else
      assert s == s[..|s| - 1] + [s[|s| - 1]];
      Filter(s[..|s| - 1], f) + (if f(s[|s| - 1]) then [s[|s| - 1]] else [])
  }

  /** Filtering keeps every copy of a passing element and no copy of a failing one. */
  lemma {:induction false} FilterCounts<T(!new)>(s: seq<T>, f: T -> bool)
    ensures forall x :: multiset(Filter(s, f))[x] == if f(x) then multiset(s)[x] else 0
  {
    if |s| > 0 {
      var init, last := s[..|s| - 1], s[|s| - 1];
      FilterCounts(init, f);
      assert s == init + [last];
      assert multiset(s) == multiset(init) + multiset([last]);
      if f(last) {
        assert Filter(s, f) == Filter(init, f) + [last];
        assert multiset(Filter(s, f)) == multiset(Filter(init, f)) + multiset([last]);
      } else {
        assert Filter(s, f) == Filter(init, f);
      }
    }
  }

  /** Filtering keeps the input order. */
  lemma {:induction false} FilterIsSubsequence<T(!new)>(s: seq<T>, f: T -> bool)
    ensures IsSubsequence(Filter(s, f), s)
  {
    if |s| > 0 {
      var init, last := s[..|s| - 1], s[|s| - 1];
      FilterIsSubsequence(init, f);
      var r := Filter(s, f);
      if f(last) {
        assert r == Filter(init, f) + [last];
        assert r[..|r| - 1] == Filter(init, f);
      } else {
        assert r == Filter(init, f);
      }
    }
  }

  /** Filtering distributes over concatenation. */
  lemma {:induction false} FilterAppend<T(!new)>(a: seq<T>, b: seq<T>, f: T -> bool)
    ensures Filter(a + b, f) == Filter(a, f) + Filter(b, f)
    decreases |b|
  {
    if |b| == 0 {
      assert a + b == a;
    } else {
      var init := b[..|b| - 1];
      assert (a + b)[..|a + b| - 1] == a + init;
      FilterAppend(a, init, f);
    }
  }

  /** Every element passes exactly one of two complementary tests. */
  lemma {:induction false} FilterSplit<T(!new)>(s: seq<T>, f: T -> bool, g: T -> bool)
    requires forall x :: x in s ==> (f(x) <==> !g(x))
    ensures |Filter(s, f)| + |Filter(s, g)| == |s|
  {
    if |s| > 0 {
      assert s == s[..|s| - 1] + [s[|s| - 1]];
      FilterSplit(s[..|s| - 1], f, g);
    }
  }
}
