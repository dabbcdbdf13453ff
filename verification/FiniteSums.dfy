/**
 Finite sums of integers over a set of keys. The sum does not depend on the order in which the keys
 are visited, which is what makes every hash-order loop of the node deterministic.
 */
module FiniteSums {

  /** A 20-byte address, compared as the big-endian number it spells. */
  type Address = nat

  /** Sum of `f` over `s`, picking keys in some unspecified order. */
  ghost function Sum<K>(f: map<K, int>, s: set<K>): int
    requires s <= f.Keys
    decreases s
  {
    if s == {} then 0
    else
      var a :| a in s;
      f[a] + Sum(f, s - {a})
  }

  /** Any key may be taken out first. */
  lemma {:induction false} SumRemove<K>(f: map<K, int>, s: set<K>, a: K)
    requires s <= f.Keys && a in s
    ensures Sum(f, s) == f[a] + Sum(f, s - {a})
    decreases s
  {
    var b :| b in s && Sum(f, s) == f[b] + Sum(f, s - {b});
    if a != b {
      SumRemove(f, s - {b}, a);
      SumRemove(f, s - {a}, b);
      assert s - {b} - {a} == s - {a} - {b};
    }
  }

  lemma SumAdd<K>(f: map<K, int>, s: set<K>, a: K)
    requires s <= f.Keys && a in f && a !in s
    ensures Sum(f, s + {a}) == f[a] + Sum(f, s)
  {
    SumRemove(f, s + {a}, a);
    assert s + {a} - {a} == s;
  }

  /** Two maps that agree on `s` have the same sum over `s`. */
  lemma {:induction false} SumCongruent<K>(f: map<K, int>, g: map<K, int>, s: set<K>)
    requires s <= f.Keys && s <= g.Keys
    requires forall a :: a in s ==> f[a] == g[a]
    ensures Sum(f, s) == Sum(g, s)
    decreases s
  {
    if s != {} {
      var a :| a in s;
      SumRemove(f, s, a);
      SumRemove(g, s, a);
      SumCongruent(f, g, s - {a});
    }
  }

  lemma LinearStep(c: int, d: int, e: int, f: int, g: int, sf: int, sg: int, n: int)
    ensures c * f + d * g + e + (c * sf + d * sg + e * (n - 1)) == c * (f + sf) + d * (g + sg) + e * n
  {
    assert c * (f + sf) == c * f + c * sf;
    assert d * (g + sg) == d * g + d * sg;
    assert e * (n - 1) == e * n - e;
  }

  /** h == c*f + d*g + e pointwise carries over to the sums. */
  lemma {:induction false} SumLinear<K>(h: map<K, int>, f: map<K, int>, g: map<K, int>, c: int, d: int, e: int, s: set<K>)
    requires s <= h.Keys && s <= f.Keys && s <= g.Keys
    requires forall a :: a in s ==> h[a] == c * f[a] + d * g[a] + e
    ensures Sum(h, s) == c * Sum(f, s) + d * Sum(g, s) + e * |s|
    decreases s
  {
    if s != {} {
      var a :| a in s;
      SumRemove(h, s, a);
      SumRemove(f, s, a);
      SumRemove(g, s, a);
      SumLinear(h, f, g, c, d, e, s - {a});
      assert |s - {a}| == |s| - 1;
      LinearStep(c, d, e, f[a], g[a], Sum(f, s - {a}), Sum(g, s - {a}), |s|);
    }
  }

  lemma BoundStep(c: int, n: int, x: int, y: int)
    requires x <= c && y <= c * (n - 1)
    ensures x + y <= c * n
  {
    assert c * n == c * (n - 1) + c;
  }

  lemma {:induction false} SumAtMost<K>(f: map<K, int>, s: set<K>, hi: int)
    requires s <= f.Keys && forall a :: a in s ==> f[a] <= hi
    ensures Sum(f, s) <= hi * |s|
    decreases s
  {
    if s == {} {
      assert Sum(f, s) == 0;
    } else {
      var a :| a in s;
      var t := s - {a};
      SumRemove(f, s, a);
      SumAtMost(f, t, hi);
      assert |t| == |s| - 1;
      BoundStep(hi, |s|, f[a], Sum(f, t));
    }
  }

  /** A sum lies between |s| times a lower and |s| times an upper bound of its terms. */
  lemma SumBounds<K>(f: map<K, int>, s: set<K>, lo: int, hi: int)
    requires s <= f.Keys
    requires forall a :: a in s ==> lo <= f[a] <= hi
    ensures lo * |s| <= Sum(f, s) <= hi * |s|
  {
    hide Sum;
    var g := map a | a in s :: -1 * f[a] + 0 * f[a] + 0;
    SumLinear(g, f, f, -1, 0, 0, s);
    SumAtMost(f, s, hi);
    SumAtMost(g, s, -lo);
    assert (-lo) * |s| == -(lo * |s|);
  }

  /** Non-negative terms: the sum over a subset is at most the sum over the whole set. */
  lemma {:induction false} SumMonotone<K>(f: map<K, int>, s: set<K>, t: set<K>)
    requires s <= t <= f.Keys
    requires forall a :: a in t ==> 0 <= f[a]
    ensures Sum(f, s) <= Sum(f, t)
    decreases t
  {
    if a :| a in t && a !in s {
      SumRemove(f, t, a);
      SumMonotone(f, s, t - {a});
    } else {
      assert s == t;
    }
  }

  lemma {:induction false} SumZero<K>(f: map<K, int>, s: set<K>)
    requires s <= f.Keys
    requires forall a :: a in s ==> f[a] == 0
    ensures Sum(f, s) == 0
  {
    SumBounds(f, s, 0, 0);
  }
}
