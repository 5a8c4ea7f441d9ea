/**
 * `Array.prototype.filter` and `Array.prototype.find` as functions on sequences, with the
 * facts every list view relies on: a filter keeps exactly the matching elements, with their
 * multiplicities, in their original order.
 */
module Seqs {
  import opened Wrappers

  /** `s.filter(p)`. */
  function Filter<T>(s: seq<T>, p: T -> bool): (r: seq<T>)
    ensures |r| <= |s|
  {
    if s == [] then [] else (if p(s[0]) then [s[0]] else []) + Filter(s[1..], p)
  }

  /** `a` is obtained from `b` by deleting elements (order preserved). */
  ghost predicate IsSubsequence<T>(a: seq<T>, b: seq<T>)
    decreases |b|
  {
    if a == [] then true
    else if b == [] then false
    else if a[0] == b[0] then IsSubsequence(a[1..], b[1..])
    else IsSubsequence(a, b[1..])
  }

  /** A filter keeps exactly the elements that satisfy the predicate, as a subsequence. */
  lemma {:induction false} FilterCharacterized<T>(s: seq<T>, p: T -> bool)
    ensures forall x :: x in Filter(s, p) <==> x in s && p(x)
    ensures forall x :: multiset(Filter(s, p))[x] == if p(x) then multiset(s)[x] else 0
    ensures IsSubsequence(Filter(s, p), s)
  {
    if s != [] {
      var t := Filter(s[1..], p);
      FilterCharacterized(s[1..], p);
      assert s == [s[0]] + s[1..];
      assert multiset(s) == multiset{s[0]} + multiset(s[1..]);
      if p(s[0]) {
        assert Filter(s, p) == [s[0]] + t;
        assert multiset(Filter(s, p)) == multiset{s[0]} + multiset(t);
        assert Filter(s, p)[1..] == t;
      } else {
        assert Filter(s, p) == t;
        if t != [] {
          assert t[0] in t;
          assert t[0] != s[0];
        }
      }
    }
  }

  /** Filtering distributes over concatenation. */
  lemma {:induction false} FilterAppend<T>(a: seq<T>, b: seq<T>, p: T -> bool)
    ensures Filter(a + b, p) == Filter(a, p) + Filter(b, p)
  {
    if a != [] {
      assert (a + b)[0] == a[0];
      assert (a + b)[1..] == a[1..] + b;
      FilterAppend(a[1..], b, p);
    } else {
      assert a + b == b;
    }
  }

  /** When every element satisfies the predicate, the filter is the identity. */
  lemma {:induction false} FilterKeepsAll<T>(s: seq<T>, p: T -> bool)
    requires forall i :: 0 <= i < |s| ==> p(s[i])
    ensures Filter(s, p) == s
  {
    if s != [] {
      FilterKeepsAll(s[1..], p);
    }
  }

  /** A filter whose predicate is the conjunction of two is the second filter after the first. */
  lemma {:induction false} FilterConjunction<T>(s: seq<T>, p: T -> bool, q: T -> bool, both: T -> bool)
    requires forall x :: both(x) == (p(x) && q(x))
    ensures Filter(s, both) == Filter(Filter(s, p), q)
  {
    if s != [] {
      FilterConjunction(s[1..], p, q, both);
      if p(s[0]) {
        var t := Filter(s[1..], p);
        assert Filter(s, p) == [s[0]] + t;
        assert ([s[0]] + t)[0] == s[0] && ([s[0]] + t)[1..] == t;
        assert Filter([s[0]] + t, q) == (if q(s[0]) then [s[0]] else []) + Filter(t, q);
      } else {
        assert Filter(s, p) == Filter(s[1..], p);
      }
      assert both(s[0]) == (p(s[0]) && q(s[0]));
    }
  }

  /** Filtering a second time by the same predicate changes nothing. */
  lemma FilterIdempotent<T>(s: seq<T>, p: T -> bool)
    ensures Filter(Filter(s, p), p) == Filter(s, p)
  {
    FilterConjunction(s, p, p, p);
  }

  /** Two filters whose predicates exclude each other select at most |s| elements together. */
  lemma {:induction false} DisjointFiltersBounded<T>(s: seq<T>, p: T -> bool, q: T -> bool)
    requires forall i :: 0 <= i < |s| ==> !(p(s[i]) && q(s[i]))
    ensures |Filter(s, p)| + |Filter(s, q)| <= |s|
  {
    if s != [] {
      DisjointFiltersBounded(s[1..], p, q);
    }
  }

  /** A filter is empty exactly when no element satisfies the predicate. */
  lemma {:induction false} FilterEmptyIff<T>(s: seq<T>, p: T -> bool)
    ensures Filter(s, p) == [] <==> forall i :: 0 <= i < |s| ==> !p(s[i])
  {
    if s != [] {
      FilterEmptyIff(s[1..], p);
      assert forall i :: 1 <= i < |s| ==> s[i] == s[1..][i - 1];
    }
  }

  /** The last element a filter keeps is the last element of `s` that satisfies the predicate. */
  lemma {:induction false} FilterLast<T>(s: seq<T>, p: T -> bool)
    requires Filter(s, p) != []
    ensures exists i :: 0 <= i < |s| && s[i] == Filter(s, p)[|Filter(s, p)| - 1] && p(s[i])
                        && forall j :: i < j < |s| ==> !p(s[j])
  {
    var t := Filter(s[1..], p);
    assert forall i :: 1 <= i < |s| ==> s[i] == s[1..][i - 1];
    if t != [] {
      FilterLast(s[1..], p);
      var i :| 0 <= i < |s[1..]| && s[1..][i] == t[|t| - 1] && p(s[1..][i])
                && forall j :: i < j < |s[1..]| ==> !p(s[1..][j]);
      assert Filter(s, p)[|Filter(s, p)| - 1] == t[|t| - 1];
      assert s[i + 1] == t[|t| - 1];
    } else {
      FilterEmptyIff(s[1..], p);
      assert Filter(s, p) == [s[0]];
    }
  }

  /** `s.find(p)`: the first element that satisfies `p`, if any. */
  function Find<T>(s: seq<T>, p: T -> bool): (r: Option<T>)
    ensures r.Some? ==> exists i :: 0 <= i < |s| && s[i] == r.value && p(s[i]) && forall j :: 0 <= j < i ==> !p(s[j])
    ensures r.None? <==> forall i :: 0 <= i < |s| ==> !p(s[i])
  {
    if s == [] then None
    else if p(s[0]) then Some(s[0])
    else
      var r := Find(s[1..], p);
      assert forall i :: 1 <= i < |s| ==> s[i] == s[1..][i - 1];
      r
  }
}
