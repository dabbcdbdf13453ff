/** Sequences without repetition, and the size of a subset. */
module Sequences {
  ghost predicate Distinct<T(!new)>(s: seq<T>) {
    forall i, j :: 0 <= i < j < |s| ==> s[i] != s[j]
  }

  lemma {:induction false} DistinctCounts<T(!new)>(s: seq<T>, x: T)
    requires Distinct(s)
    ensures multiset(s)[x] == if x in s then 1 else 0
  {
    if s != [] {
      var n := |s| - 1;
      DistinctCounts(s[..n], x);
      assert s == s[..n] + [s[n]];
      assert s[n] !in s[..n];
    }
  }

  lemma SizeAtMost<T>(s: set<T>, t: set<T>)
    requires s <= t
    ensures |s| <= |t|
  {
    assert t == s + (t - s);
  }

  /** `q` lists every member of `s` once. */
  ghost predicate Lists<T(!new)>(q: seq<T>, s: set<T>) {
    Distinct(q) && forall x :: x in q <==> x in s
  }

  lemma {:induction false} ListsSize<T(!new)>(q: seq<T>, s: set<T>)
    requires Lists(q, s)
    ensures |q| == |s|
    decreases q
  {
    if q == [] {
      if x :| x in s {
        assert x in q;
      }
    } else {
      var n := |q| - 1;
      assert q[n] in q && q[n] !in q[..n];
      assert forall x :: x in q <==> x in q[..n] || x == q[n];
      ListsSize(q[..n], s - {q[n]});
    }
  }

  /** A hash set collected into a list, in some order. */
  method Collected<T(==, !new)>(s: set<T>) returns (q: seq<T>)
    ensures Lists(q, s)
  {
    q := [];
    var rest := s;
    while rest != {}
      invariant rest <= s && Lists(q, s - rest)
      decreases rest
    {
      var x :| x in rest;
      q, rest := q + [x], rest - {x};
    }
  }
}
