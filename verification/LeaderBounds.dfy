/**
 Bounds that hold between any two rounds of any run, rescaling included: the spread of the priorities
 stays below 3T + T/500 + 1 and their sum below 2n, so no step leaves the 64-bit range.
 */
module LeaderBounds {
  import opened FiniteSums
  import opened LeaderSelection
  import opened Sequences
  import opened LeaderFairness

  /** Spread below 3T + T/500 + 1 and sum below 2n in absolute value. */
  ghost predicate Tame(w: map<Address, int>, p: map<Address, int>)
    requires State(w, p)
  {
    500 * Spread(p) < 1501 * Total(w) + 500 && -2 * |w| < Sum(p, p.Keys) < 2 * |w|
  }

  /** What the centred and rescaled priorities of a round satisfy. */
  ghost predicate Prescaled(w: map<Address, int>, p: map<Address, int>)
    requires State(w, p)
  {
    500 * Spread(p) < 1001 * Total(w) + 500 && -2 * |w| < Sum(p, p.Keys) < 2 * |w|
  }

  lemma SpreadAtMost(p: map<Address, int>, d: int)
    requires p != map[]
    requires forall a, b :: a in p && b in p ==> p[a] - p[b] <= d
    ensures Spread(p) <= d
  {
    hide Highest, Lowest;
    var h :| h in p && p[h] == Highest(p);
    var l :| l in p && p[l] == Lowest(p);
    assert p[h] - p[l] <= d;
  }

  lemma WithinSpread(p: map<Address, int>, a: Address, b: Address)
    requires a in p && b in p
    ensures p[a] - p[b] <= Spread(p)
  {
    hide Highest, Lowest;
    assert p[a] <= Highest(p) && Lowest(p) <= p[b];
  }

  /** Priorities straddle zero up to the sum's slack, so each is bounded by the spread. */
  lemma PriorityBound(p: map<Address, int>, a: Address)
    requires a in p && -2 * |p| < Sum(p, p.Keys) < 2 * |p|
    ensures -1 - Spread(p) <= p[a] <= 1 + Spread(p)
  {
    hide Highest, Lowest, Sum;
    SumBounds(p, p.Keys, Lowest(p), Highest(p));
    StrictFactor(|p|, Lowest(p), 2);
    StrictFactor(|p|, -Highest(p), 2);
    assert p[a] <= Highest(p) && Lowest(p) <= p[a];
  }

  lemma StrictFactor(n: nat, x: int, y: int)
    requires x * n < y * n
    ensures x < y
  {
  }

  /** Centring shifts all priorities alike and leaves a sum smaller than the validator count. */
  lemma CenterFacts(p: map<Address, int>)
    requires p != map[]
    ensures Spread(Center(p)) == Spread(p)
    ensures -|p| < Sum(Center(p), p.Keys) < |p|
  {
    hide Highest, Lowest, Sum, Spread;
    var c := Center(p);
    forall a, b | a in p && b in p
      ensures c[a] - c[b] <= Spread(p) && p[a] - p[b] <= Spread(c)
    {
      WithinSpread(p, a, b);
      WithinSpread(c, a, b);
    }
    SpreadAtMost(c, Spread(p));
    SpreadAtMost(p, Spread(c));
    CenterSum(p);
  }

  lemma CenterSum(p: map<Address, int>)
    requires p != map[]
    ensures -|p| < Sum(Center(p), p.Keys) < |p|
  {
    hide Sum, Top;
    SumLinear(Center(p), p, p, 1, 0, -Average(p), p.Keys);
    assert Top(p) in p.Keys;
    Remainder(Sum(p, p.Keys), |p|);
  }

  lemma Remainder(x: int, n: int)
    requires 0 < n
    ensures -n < x + 0 * x + -TruncDiv(x, n) * n < n
  {
    TruncBounds(x, n);
  }

  /** Truncation moves a quotient toward zero by less than one unit. */
  lemma TruncBounds(x: int, s: int)
    requires 0 < s
    ensures 0 <= x ==> x - s < TruncDiv(x, s) * s <= x
    ensures x <= 0 ==> x <= TruncDiv(x, s) * s < x + s
  {
    if 0 <= x {
      QuotientBounds(x, s);
      assert s * (x / s + 1) == TruncDiv(x, s) * s + s;
    } else {
      QuotientBounds(-x, s);
      assert s * ((-x) / s + 1) == -(TruncDiv(x, s) * s) + s;
    }
  }

  lemma TruncMonotone(x: int, y: int, s: int)
    requires 0 < s && x <= y
    ensures TruncDiv(x, s) <= TruncDiv(y, s)
  {
    hide TruncDiv;
    TruncBounds(x, s);
    TruncBounds(y, s);
    var i, j := TruncDiv(x, s), TruncDiv(y, s);
    assert (i - j) * s == i * s - j * s;
    StrictFactor(s, i - j, 1);
  }

  lemma TruncDifference(x: int, y: int, s: int)
    requires 0 < s && y <= x
    ensures (TruncDiv(x, s) - TruncDiv(y, s) - 1) * s < x - y
  {
    hide TruncDiv;
    TruncBounds(x, s);
    TruncBounds(y, s);
    var i, j := TruncDiv(x, s), TruncDiv(y, s);
    assert (i - j - 1) * s == i * s - j * s - s;
  }

  /** A spread d shrunk by the factor k = d/2t (in thousandths) ends below 2t + t/500 + 1. */
  lemma ShrunkSpread(e: int, d: int, t: int, k: int)
    requires 0 < t && 1000 <= k && 1000 * d < 2 * t * (k + 1) && (e - 1) * k < 1000 * d
    ensures 500 * e < 1001 * t + 500
  {
    var x := e - 1 - 2 * t;
    assert x * k == (e - 1) * k - 2 * t * k;
    assert 2 * t * (k + 1) == 2 * t * k + 2 * t;
    assert x * k < 2 * t;
    assert x > 0 ==> x * 1000 <= x * k;
  }

  /** A rescale keeps the order of the priorities. */
  lemma ScaleKeepsOrder(w: map<Address, int>, p: map<Address, int>, a: Address, b: Address)
    requires State(w, p) && a in p && b in p && p[a] <= p[b]
    ensures Scale(w, p)[a] <= Scale(w, p)[b]
  {
    hide Spread, Total, Sum;
    if Spread(p) > 2 * Total(w) {
      ScaleFactorLarge(w, p);
      TruncMonotone(p[a] * ONE_E3, p[b] * ONE_E3, ScaleFactor(w, p));
    }
  }

  lemma ScaledDifference(w: map<Address, int>, p: map<Address, int>, a: Address, b: Address)
    requires State(w, p) && Spread(p) > 2 * Total(w) && a in p && b in p
    ensures 500 * (Scale(w, p)[a] - Scale(w, p)[b]) < 1001 * Total(w) + 500
  {
    hide Spread, Total, Sum;
    var q := Scale(w, p);
    ScaleFactorLarge(w, p);
    var k := ScaleFactor(w, p);
    if p[b] <= p[a] {
      TruncDifference(p[a] * ONE_E3, p[b] * ONE_E3, k);
      WithinSpread(p, a, b);
      ShrunkSpread(q[a] - q[b], Spread(p), Total(w), k);
    } else {
      ScaleKeepsOrder(w, p, a, b);
    }
  }

  lemma ScaledSum(w: map<Address, int>, p: map<Address, int>)
    requires State(w, p) && Spread(p) > 2 * Total(w) && -|w| < Sum(p, p.Keys) < |w|
    ensures -2 * |w| < Sum(Scale(w, p), p.Keys) < 2 * |w|
  {
    hide Spread, Total, Sum;
    ScaleFactorLarge(w, p);
    var q, k, n := Scale(w, p), ScaleFactor(w, p), |w|;
    var d := map a | a in p :: k * q[a] + -1000 * p[a] + 0;
    forall a | a in p
      ensures -k <= d[a] <= k
    {
      TruncBounds(p[a] * ONE_E3, k);
      assert q[a] * k == k * q[a];
    }
    SumLinear(d, q, p, k, -1000, 0, p.Keys);
    SumBounds(d, p.Keys, -k, k);
    ShrunkSum(Sum(q, p.Keys), Sum(p, p.Keys), k, n);
  }

  lemma ShrunkSum(y: int, x: int, k: int, n: int)
    requires 0 <= n && 1000 <= k && -n < x < n && -k * n <= k * y + -1000 * x <= k * n
    ensures -2 * n < y < 2 * n
  {
    assert 1000 * n <= k * n;
    assert y * k < (2 * n) * k;
    assert (-y) * k < (2 * n) * k;
    StrictFactor(k, y, 2 * n);
    StrictFactor(k, -y, 2 * n);
  }

  /** Centring and rescaling bring any spread below 2T + T/500 + 1 and any sum below 2n. */
  lemma PreparedFacts(w: map<Address, int>, p: map<Address, int>)
    requires State(w, p)
    ensures Prescaled(w, Prepared(w, p))
  {
    hide Spread, Total, Sum, Center;
    var c := Center(p);
    CenterFacts(p);
    assert |p| == |p.Keys| == |w.Keys| == |w|;
    if Spread(c) > 2 * Total(w) {
      var q := Scale(w, c);
      ScaledSum(w, c);
      forall a, b | a in q && b in q
        ensures 500 * (q[a] - q[b]) < 1001 * Total(w) + 500
      {
        ScaledDifference(w, c, a, b);
      }
      SpreadAtMost(q, (1001 * Total(w) + 499) / 500);
    }
  }

  /** Electing and charging adds at most T to the spread and leaves the sum alone. */
  lemma SelectFacts(w: map<Address, int>, p: map<Address, int>)
    requires State(w, p)
    ensures Spread(Select(w, p)) <= Spread(p) + Total(w)
    ensures Sum(Select(w, p), p.Keys) == Sum(p, p.Keys)
  {
    hide Spread, Total, Sum, Elected;
    var q, t := Select(w, p), Elected(w, p);
    SelectSum(w, p, p.Keys);
    assert Total(w) == Sum(w, p.Keys) by { TotalIsSum(w); }
    ElectedHighest(w, p);
    forall a, b | a in q && b in q
      ensures q[a] - q[b] <= Spread(p) + Total(w)
    {
      WithinSpread(p, a, b);
      WithinSpread(p, a, a);
      PowerAtMostTotal(w, a);
      PowerAtMostTotal(w, b);
    }
    SpreadAtMost(q, Spread(p) + Total(w));
  }

  lemma TotalIsSum(w: map<Address, int>)
    ensures Total(w) == Sum(w, w.Keys)
  {
  }

  lemma PowerAtMostTotal(w: map<Address, int>, a: Address)
    requires ValidPowers(w) && a in w
    ensures 0 <= w[a] <= Total(w)
  {
    SumRemove(w, {a}, a);
    assert {a} - {a} == {};
    PowerShare(w, {a});
  }

  /** From any priorities whatever, one round ends tame. */
  lemma RoundTame(w: map<Address, int>, p: map<Address, int>)
    requires State(w, p)
    ensures Tame(w, Round(w, p))
  {
    hide Spread, Total, Sum, Prepared, Select;
    PreparedFacts(w, p);
    SelectFacts(w, Prepared(w, p));
  }

  /** Every run from the zero start stays tame, for ever. */
  lemma RunsAreTame(w: map<Address, int>, r: nat)
    requires ValidPowers(w)
    ensures Tame(w, After(w, r))
  {
    if r == 0 {
      var p := Zero(w);
      assert |w| > 0 by { assert Top(w) in w.Keys; }
      SumZero(p, p.Keys);
      SpreadAtMost(p, 0);
    } else {
      RoundTame(w, After(w, r - 1));
    }
  }

  const I64_MAX: int := 0x7fff_ffff_ffff_ffff

  predicate InI64(x: int) {
    -I64_MAX - 1 <= x <= I64_MAX
  }

  function Max(a: int, b: int): int {
    if a < b then b else a
  }

  /** 4 * T * max(n, 1000) is below 2^63. */
  ghost predicate FitsI64(w: map<Address, int>) {
    4 * Total(w) * Max(|w|, ONE_E3) <= I64_MAX
  }

  /** Validator sets the 64-bit arithmetic can serve. Powers of zero are allowed; the total is at least one
      unscaled unit. */
  ghost predicate Serviceable(w: map<Address, int>) {
    ValidPowers(w) && ONE_E3 <= Total(w) && FitsI64(w)
  }

  lemma ServiceableTotal(w: map<Address, int>, k: nat)
    requires Serviceable(w) && k <= |w|
    ensures ONE_E3 <= Total(w) && 0 < |w| && 4000 * Total(w) <= I64_MAX
    ensures k * (4 * Total(w)) <= I64_MAX
  {
    hide Sum, Total;
    assert Top(w) in w.Keys;
    var m := Max(|w|, ONE_E3);
    ScaleUp(4 * Total(w), ONE_E3, m);
    ScaleUp(4 * Total(w), k, m);
  }

  lemma ScaleUp(x: int, a: int, b: int)
    requires 0 <= x && a <= b
    ensures a * x <= b * x == x * b
  {
  }

  /** Tame priorities of a serviceable set: each within 4T, with room for the thousandfold product. */
  lemma TameInRange(w: map<Address, int>, p: map<Address, int>, a: Address)
    requires State(w, p) && Serviceable(w) && Tame(w, p) && a in p
    ensures -4 * Total(w) + 2 <= p[a] <= 4 * Total(w) - 2
    ensures 0 <= Spread(p) <= 4 * Total(w) - 2
  {
    hide Sum, Total, Spread;
    ServiceableTotal(w, 0);
    assert |p| == |p.Keys| == |w.Keys| == |w|;
    PriorityBound(p, a);
    WithinSpread(p, a, a);
  }

  /** The partial sums of any visiting order stay in range. */
  lemma PartialSumInRange(w: map<Address, int>, p: map<Address, int>, s: set<Address>)
    requires State(w, p) && Serviceable(w) && Tame(w, p) && s <= p.Keys
    ensures InI64(Sum(p, s))
  {
    hide Sum, Total, Spread, Tame;
    SizeAtMost(s, w.Keys);
    ServiceableTotal(w, |s|);
    var x := 4 * Total(w);
    forall a | a in s
      ensures -x <= p[a] <= x
    {
      TameInRange(w, p, a);
    }
    SumBounds(p, s, -x, x);
    assert -x * |s| == -(|s| * x) && x * |s| == |s| * x;
  }

  /** Adding a power and charging the total stay in range after centring and rescaling. */
  lemma SelectInRange(w: map<Address, int>, p: map<Address, int>, a: Address)
    requires State(w, p) && Serviceable(w) && Prescaled(w, p) && a in p
    ensures InI64(p[a] + w[a]) && InI64(p[a] + w[a] - Total(w))
  {
    hide Sum, Total, Spread;
    TameInRange(w, p, a);
    PowerAtMostTotal(w, a);
    ServiceableTotal(w, 0);
  }

  /** So do centring and the thousandfold products of the rescale. */
  lemma CenterInRange(w: map<Address, int>, p: map<Address, int>, a: Address)
    requires State(w, p) && Serviceable(w) && Tame(w, p) && a in p
    ensures Tame(w, Center(p))
    ensures InI64(p[a]) && InI64(Center(p)[a]) && InI64(Center(p)[a] * ONE_E3)
    ensures InI64(Spread(Center(p)) * ONE_E3) && InI64(2 * Total(w))
  {
    hide Sum, Total, Spread, Center;
    assert |p| == |p.Keys| == |w.Keys| == |w|;
    CenterFacts(p);
    TameInRange(w, p, a);
    TameInRange(w, Center(p), a);
    ServiceableTotal(w, 0);
  }
}
