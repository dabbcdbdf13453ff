/**
 Fairness of leader election. As long as no rescale has happened, the number of slots a validator got
 stays within a harmonic-sum distance of its exact share, whatever the voting powers are, and with at
 most four validators no run ever rescales.
 */
module LeaderFairness {
  import opened FiniteSums
  import opened LeaderSelection
  import opened Sequences

  /** 1 + 1/2 + ... + 1/n */
  ghost function Harmonic(n: nat): real {
    if n == 0 then 0.0 else Harmonic(n - 1) + 1.0 / n as real
  }

  /** k times the bound on the average of any k of n priorities, for total power t. */
  ghost function Ceiling(t: int, n: nat, k: nat): real {
    k as real * (t as real * (Harmonic(n) - Harmonic(k)))
  }

  /** Balanced priorities in which every group of validators is bounded by its harmonic ceiling. */
  ghost predicate Bounded(w: map<Address, int>, p: map<Address, int>)
    requires State(w, p)
  {
    && Sum(p, p.Keys) == 0
    && forall s: set<Address> :: {} < s <= p.Keys ==> Sum(p, s) as real <= Ceiling(Total(w), |w|, |s|)
  }

  lemma BoundedGroup(w: map<Address, int>, p: map<Address, int>, s: set<Address>)
    requires State(w, p) && Bounded(w, p) && {} < s <= w.Keys
    ensures Sum(p, s) as real <= Ceiling(Total(w), |w|, |s|)
    ensures Sum(p, p.Keys) == 0
  {
    hide Sum, Ceiling;
  }

  lemma BoundedBalanced(w: map<Address, int>, p: map<Address, int>)
    requires State(w, p) && Bounded(w, p)
    ensures Center(p) == p
  {
    CenterBalanced(p);
  }

  lemma CenterBalanced(p: map<Address, int>)
    requires p != map[] && Sum(p, p.Keys) == 0
    ensures Center(p) == p
  {
    assert p.Keys != {};
    assert Average(p) == 0;
  }

  /** A group gains its powers and pays the total once if it holds the elected validator. */
  lemma SelectSum(w: map<Address, int>, p: map<Address, int>, s: set<Address>)
    requires State(w, p) && s <= p.Keys
    ensures Sum(AddPowers(w, p), s) == Sum(p, s) + Sum(w, s)
    ensures Sum(Select(w, p), s) == Sum(p, s) + Sum(w, s) - (if Elected(w, p) in s then Total(w) else 0)
  {
    var a, q, t := AddPowers(w, p), Select(w, p), Elected(w, p);
    SumLinear(a, p, w, 1, 1, 0, s);
    SumCongruent(q, a, s - {t});
    if t in s {
      SumRemove(a, s, t);
      SumRemove(q, s, t);
    } else {
      assert s - {t} == s;
    }
  }

  lemma AverageStep(x: real, y: real, k: real, t: real, b: real)
    requires 0.0 < k && (k + 1.0) * x <= k * y && y <= (k + 1.0) * (t * b) + t
    ensures x <= k * (t * (b + 1.0 / (k + 1.0)))
  {
    var d := 1.0 / (k + 1.0);
    assert d * (k + 1.0) == 1.0;
    assert k * y <= k * ((k + 1.0) * (t * b) + t);
    assert (k + 1.0) * (k * (t * (b + d))) == k * ((k + 1.0) * (t * b) + t * (d * (k + 1.0)));
    assert (k + 1.0) * x <= (k + 1.0) * (k * (t * (b + d)));
  }

  /** The group without the elected validator: adding that validator raises the group's average. */
  lemma UnelectedAverage(w: map<Address, int>, p: map<Address, int>, s: set<Address>)
    requires State(w, p) && s <= p.Keys && Elected(w, p) !in s
    ensures var u, top := s + {Elected(w, p)}, AddPowers(w, p)[Elected(w, p)];
            && Sum(AddPowers(w, p), s) <= top * |s|
            && top + Sum(AddPowers(w, p), s) <= Sum(p, u) + Total(w)
  {
    hide Sum, AddPowers, Elected, Select, Total;
    var a, t, u := AddPowers(w, p), Elected(w, p), s + {Elected(w, p)};
    ElectedHighest(w, p);
    SumAtMost(a, s, a[t]);
    SumAdd(a, s, t);
    SelectSum(w, p, u);
    PowerShare(w, u);
  }

  lemma ElectedHighest(w: map<Address, int>, p: map<Address, int>)
    requires State(w, p)
    ensures p.Keys == w.Keys == AddPowers(w, p).Keys
    ensures forall b :: b in w ==> AddPowers(w, p)[b] <= AddPowers(w, p)[Elected(w, p)]
  {
    var a, t := AddPowers(w, p), Elected(w, p);
    assert forall b :: b in a && b != t ==> Ahead(a, t, b);
  }

  lemma PowerShare(w: map<Address, int>, s: set<Address>)
    requires ValidPowers(w) && s <= w.Keys
    ensures 0 <= Sum(w, s) <= Total(w)
  {
    SumMonotone(w, s, w.Keys);
    SumMonotone(w, {}, s);
  }

  lemma Distribute(k: int, x: int, y: int, z: int)
    requires x <= y * k && z == y + x
    ensures (k + 1) * x <= k * z
  {
    assert k * z == y * k + k * x;
  }

  lemma UnelectedGroup(w: map<Address, int>, p: map<Address, int>, s: set<Address>)
    requires State(w, p) && Bounded(w, p) && {} < s <= p.Keys && Elected(w, p) !in s
    ensures Sum(AddPowers(w, p), s) as real <= Ceiling(Total(w), |w|, |s|)
  {
    hide Bounded, Sum, Ceiling, Elected, AddPowers;
    UnelectedAverage(w, p, s);
    var u := s + {Elected(w, p)};
    assert |u| == |s| + 1;
    BoundedGroup(w, p, u);
    CeilingStep(Total(w), |w|, |s|, Sum(AddPowers(w, p), s), AddPowers(w, p)[Elected(w, p)], Sum(p, u));
  }

  lemma CeilingStep(t: int, n: nat, k: nat, x: int, y: int, z: int)
    requires 0 < k && x <= y * k && y + x <= z + t && z as real <= Ceiling(t, n, k + 1)
    ensures x as real <= Ceiling(t, n, k)
  {
    var b := Harmonic(n) - Harmonic(k + 1);
    Distribute(k, x, y, y + x);
    IntToReal(k, x, y + x);
    assert (k + 1) as real == k as real + 1.0;
    assert z as real <= (k as real + 1.0) * (t as real * b);
    AverageStep(x as real, (y + x) as real, k as real, t as real, b);
    assert Harmonic(k + 1) == Harmonic(k) + 1.0 / (k as real + 1.0);
  }

  lemma IntToReal(k: int, x: int, y: int)
    requires (k + 1) * x <= k * y
    ensures (k as real + 1.0) * x as real <= k as real * y as real
  {
    assert ((k + 1) * x) as real == (k as real + 1.0) * x as real;
    assert (k * y) as real == k as real * y as real;
  }

  /** One selection keeps every group below its ceiling. */
  lemma SelectKeepsBounded(w: map<Address, int>, p: map<Address, int>)
    requires State(w, p) && Bounded(w, p)
    ensures Bounded(w, Select(w, p))
  {
    var q, t := Select(w, p), Elected(w, p);
    SelectSum(w, p, p.Keys);
    assert Sum(q, q.Keys) == 0;
    forall s: set<Address> | {} < s <= q.Keys
      ensures Sum(q, s) as real <= Ceiling(Total(w), |w|, |s|)
    {
      SelectSum(w, p, s);
      if t in s {
        PowerShare(w, s);
        BoundedGroup(w, p, s);
      } else {
        UnelectedGroup(w, p, s);
      }
    }
  }

  lemma {:induction false} HarmonicMonotone(k: nat, n: nat)
    requires k <= n
    ensures Harmonic(k) <= Harmonic(n)
    decreases n - k
  {
    if k < n {
      HarmonicMonotone(k, n - 1);
    }
  }

  lemma ZeroBounded(w: map<Address, int>)
    requires ValidPowers(w)
    ensures Bounded(w, Zero(w))
  {
    var p := Zero(w);
    forall s: set<Address> | s <= p.Keys
      ensures Sum(p, s) == 0 && 0.0 <= Ceiling(Total(w), |w|, |s|)
    {
      SumZero(p, s);
      SizeAtMost(s, w.Keys);
      HarmonicMonotone(|s|, |w|);
      assert 0.0 <= Total(w) as real * (Harmonic(|w|) - Harmonic(|s|));
    }
  }

  /** Limits for a single validator, read off the groups of size 1 and n-1. */
  lemma BoundedAbove(w: map<Address, int>, p: map<Address, int>, i: Address)
    requires State(w, p) && Bounded(w, p) && i in w
    ensures p[i] as real <= Total(w) as real * (Harmonic(|w|) - 1.0)
  {
    hide Bounded;
    SumRemove(p, {i}, i);
    assert {i} - {i} == {};
    BoundedGroup(w, p, {i});
    assert Harmonic(1) == 1.0;
  }

  lemma BoundedBelow(w: map<Address, int>, p: map<Address, int>, i: Address)
    requires State(w, p) && Bounded(w, p) && i in w
    ensures p[i] as real >= -(Total(w) as real * (1.0 - 1.0 / |w| as real))
  {
    var n, t, rest := |w|, Total(w), p.Keys - {i};
    hide Bounded, Sum, Ceiling;
    SumRemove(p, p.Keys, i);
    assert |rest| == n - 1;
    LastCeiling(t, n);
    BoundedGroup(w, p, p.Keys);
    if rest == {} {
      SumEmpty(p);
      assert t as real * (1.0 - 1.0 / n as real) == 0.0;
    } else {
      BoundedGroup(w, p, rest);
    }
  }

  lemma SumEmpty(p: map<Address, int>)
    ensures Sum(p, {}) == 0
  {
  }

  lemma LastCeiling(t: int, n: nat)
    requires 0 < n
    ensures Ceiling(t, n, n - 1) == t as real * (1.0 - 1.0 / n as real)
  {
    var m, d := n as real, 1.0 / n as real;
    assert d * m == 1.0;
    assert Harmonic(n) - Harmonic(n - 1) == d;
    assert (m - 1.0) * (t as real * d) == t as real * (m * d - d);
  }

  lemma BoundedSpread(w: map<Address, int>, p: map<Address, int>)
    requires State(w, p) && Bounded(w, p)
    ensures Spread(p) as real <= Total(w) as real * Harmonic(|w| - 1)
  {
    hide Bounded, Total, Highest, Lowest, Harmonic;
    var h :| h in p && p[h] == Highest(p);
    var l :| l in p && p[l] == Lowest(p);
    BoundedAbove(w, p, h);
    BoundedBelow(w, p, l);
    HarmonicSplit(Total(w) as real, |w|);
  }

  lemma HarmonicSplit(t: real, n: nat)
    requires 0 < n
    ensures t * (Harmonic(n) - 1.0) + t * (1.0 - 1.0 / n as real) == t * Harmonic(n - 1)
  {
    assert Harmonic(n) == Harmonic(n - 1) + 1.0 / n as real;
  }

  /** No round before round `r` found a spread above twice the total power. */
  ghost predicate NotRescaledBefore(w: map<Address, int>, r: nat)
    requires ValidPowers(w)
  {
    forall k :: 0 <= k < r ==> Spread(Center(After(w, k))) <= 2 * Total(w)
  }

  /** Slots validator `i` received in the first `r` rounds. */
  ghost function Slots(w: map<Address, int>, r: nat, i: Address): nat
    requires ValidPowers(w)
  {
    if r == 0 then 0 else Slots(w, r - 1, i) + if LeaderAt(w, r) == i then 1 else 0
  }

  /** One round from balanced, unscaled priorities. */
  lemma UnscaledRound(w: map<Address, int>, p: map<Address, int>)
    requires State(w, p) && Bounded(w, p) && Spread(Center(p)) <= 2 * Total(w)
    ensures Round(w, p) == Select(w, p) && RoundLeader(w, p) == Elected(w, p)
    ensures Bounded(w, Round(w, p))
  {
    hide Bounded, Sum, Select, Elected, Highest, Lowest;
    BoundedBalanced(w, p);
    assert Prepared(w, p) == p;
    SelectKeepsBounded(w, p);
  }

  /** Until the first rescale, centring is a no-op and priorities are exact shares minus slots. */
  lemma {:induction false} PriorityIsDebt(w: map<Address, int>, r: nat)
    requires ValidPowers(w) && NotRescaledBefore(w, r)
    ensures Bounded(w, After(w, r))
    ensures forall i :: i in w ==> After(w, r)[i] == Debt(w, r, i)
  {
    hide Bounded, Total, Round, RoundLeader, Elected, Center, Spread;
    if r == 0 {
      ZeroBounded(w);
    } else {
      PriorityIsDebt(w, r - 1);
      UnscaledRound(w, After(w, r - 1));
      forall i | i in w
        ensures After(w, r)[i] == Debt(w, r, i)
      {
        DebtStep(w, r, i);
      }
    }
  }

  /** What validator `i` is still owed after `r` rounds: its exact share minus the slots it paid for. */
  ghost function Debt(w: map<Address, int>, r: nat, i: Address): int
    requires ValidPowers(w) && i in w
  {
    r * w[i] - Slots(w, r, i) * Total(w)
  }

  lemma DebtStep(w: map<Address, int>, r: nat, i: Address)
    requires ValidPowers(w) && i in w && 0 < r
    ensures Debt(w, r, i) == Debt(w, r - 1, i) + w[i] - (if LeaderAt(w, r) == i then Total(w) else 0)
  {
    hide LeaderAt, Total, ValidPowers;
    SlotStep(r, w[i], Slots(w, r - 1, i), Total(w));
  }

  lemma SlotStep(r: int, x: int, c: int, t: int)
    ensures r * x == (r - 1) * x + x
    ensures (c + 1) * t == c * t + t
  {
  }

  /** Fairness: after r rounds validator i is ahead of its exact share r*w/T by less than one slot and
      behind it by at most 1/2 + ... + 1/n slots. */
  lemma Fairness(w: map<Address, int>, r: nat, i: Address)
    requires ValidPowers(w) && NotRescaledBefore(w, r) && i in w
    ensures -Total(w) < Debt(w, r, i)
    ensures Debt(w, r, i) as real <= Total(w) as real * (Harmonic(|w|) - 1.0)
    ensures Spread(After(w, r)) as real <= Total(w) as real * Harmonic(|w| - 1)
  {
    hide Bounded, After, Spread, Harmonic, Sum, NotRescaledBefore, Debt;
    PriorityIsDebt(w, r);
    var p, t, n := After(w, r), Total(w), |w|;
    BoundedAbove(w, p, i);
    BoundedBelow(w, p, i);
    BoundedSpread(w, p);
    BelowWholeSlot(t, n);
  }

  lemma BelowWholeSlot(t: int, n: nat)
    requires 0 < t && 0 < n
    ensures t as real * (1.0 - 1.0 / n as real) < t as real
  {
    assert 0.0 < t as real * (1.0 / n as real);
  }

  lemma HarmonicThree(n: nat)
    requires n <= 3
    ensures Harmonic(n) < 2.0
  {
    HarmonicMonotone(n, 3);
    assert Harmonic(3) == 1.0 + 1.0 / 2.0 + 1.0 / 3.0;
  }

  lemma FourSpread(w: map<Address, int>, p: map<Address, int>)
    requires State(w, p) && Bounded(w, p) && |w| <= 4
    ensures Spread(Center(p)) <= 2 * Total(w)
  {
    hide Bounded, Spread, Harmonic, Sum, Center;
    BoundedBalanced(w, p);
    BoundedSpread(w, p);
    HarmonicThree(|w| - 1);
    Times(Total(w), Harmonic(|w| - 1));
  }

  lemma Times(t: int, x: real)
    requires 0 <= t && x <= 2.0
    ensures t as real * x <= (2 * t) as real
  {
    assert t as real * x <= t as real * 2.0;
  }

  /** With at most four validators no run ever rescales, so fairness holds for ever. */
  lemma {:induction false} FourNeverRescale(w: map<Address, int>, r: nat)
    requires ValidPowers(w) && |w| <= 4
    ensures NotRescaledBefore(w, r)
  {
    hide Bounded, Total, After, Center, Spread;
    if r > 0 {
      FourNeverRescale(w, r - 1);
      PriorityIsDebt(w, r - 1);
      FourSpread(w, After(w, r - 1));
    }
  }
}
