/**
 `Array.prototype.filter` on a sequence, with the facts the dashboard leans
 on: the result is an order-preserving subsequence, filtering twice is
 filtering by the conjunction, and the last element kept is the last element
 of the input that passes.
 */
module JsArrays {

  /** `s.filter(p)`: the elements of `s` that pass `p`, in their order. */
  function Filter<T>(s: seq<T>, p: T -> bool): (r: seq<T>)
    ensures |r| <= |s|
    ensures forall k :: 0 <= k < |r| ==> r[k] in s && p(r[k])
    ensures forall k :: 0 <= k < |s| && p(s[k]) ==> s[k] in r
    decreases |s|
  {
    if |s| == 0 then []
    else if p(s[0]) then [s[0]] + Filter(s[1..], p)
    else Filter(s[1..], p)
  }

  /** `a` can be obtained from `b` by deleting elements, keeping the order. */
  ghost predicate IsSubsequence<T>(a: seq<T>, b: seq<T>)
    decreases |b|
  {
    if |a| == 0 then true
    else if |b| == 0 then false
    else (a[0] == b[0] && IsSubsequence(a[1..], b[1..])) || IsSubsequence(a, b[1..])
  }

  lemma {:induction false} FilterIsSubsequence<T>(s: seq<T>, p: T -> bool)
    ensures IsSubsequence(Filter(s, p), s)
    decreases |s|
  {
    if |s| > 0 {
      FilterIsSubsequence(s[1..], p);
      if p(s[0]) {
        assert Filter(s, p)[1..] == Filter(s[1..], p);
      }
    }
  }

  /** A filter keeps every passing element as often as the input holds it,
      and drops every other element entirely. */
  lemma {:induction false} FilterCounts<T>(s: seq<T>, p: T -> bool)
    ensures forall x :: multiset(Filter(s, p))[x] == if p(x) then multiset(s)[x] else 0
    ensures multiset(Filter(s, p)) <= multiset(s)
    decreases |s|
  {
    if |s| > 0 {
      FilterCounts(s[1..], p);
      assert s == [s[0]] + s[1..];
      assert multiset(s) == multiset{s[0]} + multiset(s[1..]);
      if p(s[0]) {
        assert multiset(Filter(s, p)) == multiset{s[0]} + multiset(Filter(s[1..], p));
      }
    }
  }

  /** `b` ends with `a`. */
  predicate IsSuffix<T(==)>(a: seq<T>, b: seq<T>) {
    |a| <= |b| && b[|b| - |a|..] == a
  }

  /** A suffix of a suffix is a suffix. */
  lemma SuffixOfSuffix<T>(a: seq<T>, b: seq<T>, c: seq<T>)
    requires IsSuffix(a, b) && IsSuffix(b, c)
    ensures IsSuffix(a, c)
  {
  }

  /** Filtering by a predicate that everything passes keeps the sequence. */
  lemma {:induction false} FilterAll<T>(s: seq<T>, p: T -> bool)
    requires forall k :: 0 <= k < |s| ==> p(s[k])
    ensures Filter(s, p) == s
    decreases |s|
  {
    if |s| > 0 {
      FilterAll(s[1..], p);
      assert [s[0]] + s[1..] == s;
    }
  }

  /** `s.filter(p).filter(q)` is `s.filter(x => p(x) && q(x))`. */
  lemma {:induction false} FilterFilter<T>(s: seq<T>, p: T -> bool, q: T -> bool, pq: T -> bool)
    requires forall x :: pq(x) == (p(x) && q(x))
    ensures Filter(Filter(s, p), q) == Filter(s, pq)
    decreases |s|
  {
    if |s| > 0 {
      FilterFilter(s[1..], p, q, pq);
      if p(s[0]) {
        var f := Filter(s, p);
        assert f[0] == s[0] && f[1..] == Filter(s[1..], p);
      }
    }
  }

  /** `s.filter(p)` is empty exactly when no element of `s` passes. */
  lemma {:induction false} FilterEmpty<T>(s: seq<T>, p: T -> bool)
    ensures |Filter(s, p)| == 0 <==> forall j :: 0 <= j < |s| ==> !p(s[j])
  {
    if |s| > 0 {
      FilterEmpty(s[1..], p);
      if forall j :: 0 <= j < |s| ==> !p(s[j]) {
        assert forall j :: 0 <= j < |s[1..]| ==> s[1..][j] == s[j + 1];
      }
    }
  }

  /** The last element `s.filter(p)` keeps is `s[i]` for the last index `i`
      whose element passes. */
  lemma {:induction false} FilterLast<T>(s: seq<T>, p: T -> bool) returns (i: nat)
    requires |Filter(s, p)| > 0
    ensures i < |s| && p(s[i])
    ensures Filter(s, p)[|Filter(s, p)| - 1] == s[i]
    ensures forall j :: i < j < |s| ==> !p(s[j])
    decreases |s|
  {
    var f := Filter(s, p);
    var g := Filter(s[1..], p);
    if |g| > 0 {
      var i' := FilterLast(s[1..], p);
      assert f[|f| - 1] == g[|g| - 1];
      i := i' + 1;
      forall j | i < j < |s|
        ensures !p(s[j])
      {
        assert s[j] == s[1..][j - 1];
      }
    } else {
      FilterEmpty(s[1..], p);
      assert p(s[0]);
      assert f == [s[0]];
      i := 0;
      forall j | 0 < j < |s|
        ensures !p(s[j])
      {
        assert s[j] == s[1..][j - 1];
      }
    }
  }
}
