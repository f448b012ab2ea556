/** Sequence operations the components use: `Array.prototype.filter` and `slice(0, n)`. */
module Seqs {

  /** `r` is `s` with some elements dropped and the rest kept in order. */
  ghost predicate IsSubsequence<T>(r: seq<T>, s: seq<T>)
  {
    if r == [] then true
    else if s == [] then false
    else (r[0] == s[0] && IsSubsequence(r[1..], s[1..])) || IsSubsequence(r, s[1..])
  }

  /** Dropping the tail of a subsequence leaves a subsequence. */
  lemma {:induction false} SubsequencePrefix<T>(r: seq<T>, s: seq<T>, k: nat)
    requires IsSubsequence(r, s)
    requires k <= |r|
    ensures IsSubsequence(r[..k], s)
  {
    if k == 0 {
    } else if r[0] == s[0] && IsSubsequence(r[1..], s[1..]) {
      SubsequencePrefix(r[1..], s[1..], k - 1);
      assert r[..k][1..] == r[1..][..k - 1];
    } else {
      SubsequencePrefix(r, s[1..], k);
    }
  }

  /** `s.filter(p)`: the elements of `s` that satisfy `p`, in their original order. */
  function Filter<T(!new)>(s: seq<T>, p: T -> bool): (r: seq<T>)
    ensures |r| <= |s|
    ensures forall x :: x in r <==> x in s && p(x)
    ensures forall x :: multiset(r)[x] == if p(x) then multiset(s)[x] else 0
    ensures IsSubsequence(r, s)
  {
    if s == [] then []
    else
      var rest := Filter(s[1..], p);
      assert s == [s[0]] + s[1..];
      if p(s[0]) then
        assert ([s[0]] + rest)[1..] == rest;
        [s[0]] + rest
      else
        rest
  }

  /** `filter` on a list with a first element. */
  lemma FilterCons<T(!new)>(x: T, s: seq<T>, p: T -> bool)
    ensures Filter([x] + s, p) == (if p(x) then [x] else []) + Filter(s, p)
  {
    assert ([x] + s)[1..] == s;
  }

  /** A filter that every element passes returns its input unchanged. */
  lemma {:induction false} FilterKeepsAll<T(!new)>(s: seq<T>, p: T -> bool)
    requires forall x :: x in s ==> p(x)
    ensures Filter(s, p) == s
  {
    if s != [] {
      FilterKeepsAll(s[1..], p);
      assert s == [s[0]] + s[1..];
    }
  }

  /** Three filters applied one after the other equal one filter by the conjunction. */
  lemma {:induction false} FilterFuse<T(!new)>(s: seq<T>, p1: T -> bool, p2: T -> bool, p3: T -> bool, all: T -> bool)
    requires forall x :: all(x) == (p1(x) && p2(x) && p3(x))
    ensures Filter(Filter(Filter(s, p1), p2), p3) == Filter(s, all)
  {
    if s != [] {
      FilterFuse(s[1..], p1, p2, p3, all);
      var f1 := Filter(s[1..], p1);
      if p1(s[0]) {
        assert ([s[0]] + f1)[1..] == f1;
        var f2 := Filter(f1, p2);
        if p2(s[0]) {
          assert ([s[0]] + f2)[1..] == f2;
        }
      }
    }
  }

  /** `s.slice(0, n)` for `n >= 0`: the first `n` elements, or all of `s` if it is shorter. */
  function Take<T>(s: seq<T>, n: nat): (r: seq<T>)
    ensures r <= s
    ensures |r| == if |s| < n then |s| else n
  {
    if |s| <= n then s else s[..n]
  }

  /** A prefix of a filter's result keeps the filter's guarantees. */
  lemma TakeOfFilter<T(!new)>(s: seq<T>, p: T -> bool, n: nat)
    ensures forall x :: x in Take(Filter(s, p), n) ==> x in s && p(x)
    ensures IsSubsequence(Take(Filter(s, p), n), s)
  {
    var f := Filter(s, p);
    var r := Take(f, n);
    SubsequencePrefix(f, s, |r|);
    assert r == f[..|r|];
  }

  /** Filters by two tests that agree on every element return the same result. */
  lemma {:induction false} FilterCongruent<T(!new)>(s: seq<T>, p: T -> bool, p': T -> bool)
    requires forall x :: x in s ==> p(x) == p'(x)
    ensures Filter(s, p) == Filter(s, p')
  {
    if s != [] {
      FilterCongruent(s[1..], p, p');
    }
  }
}
