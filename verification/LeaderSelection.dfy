/**
 What one round of leader election computes: centre the priorities, rescale them if their spread is
 too large, add every validator's voting power, elect the highest and charge it the total power.

 Voting powers `w` and priorities `p` are maps over the same validator addresses. These functions
 are the specification of the mutable `WeightedRoundRobin`.
 */
module LeaderSelection {
  import opened FiniteSums

  /** Fixed-point factor used for voting powers and for the rescaling ratio. */
  const ONE_E3: nat := 1000

  /** Division of machine integers: truncates toward zero. */
  function TruncDiv(a: int, b: int): int
    requires 0 < b
  {
    if 0 <= a then a / b else -((-a) / b)
  }

  /** `a` is ahead of `b`: higher priority, ties broken by the higher address. */
  predicate Ahead(p: map<Address, int>, a: Address, b: Address)
    requires a in p && b in p
  {
    p[a] > p[b] || (p[a] == p[b] && a > b)
  }

  ghost predicate IsTop(p: map<Address, int>, a: Address) {
    a in p && forall b :: b in p && b != a ==> Ahead(p, a, b)
  }

  lemma {:induction false} TopExists(p: map<Address, int>, s: set<Address>) returns (t: Address)
    requires {} < s <= p.Keys
    ensures t in s && forall b :: b in s && b != t ==> Ahead(p, t, b)
    decreases s
  {
    var first :| first in s;
    var rest := s - {first};
    if rest == {} {
      t := first;
      assert forall b :: b in s && b != first ==> b in rest;
    } else {
      var u := TopExists(p, rest);
      t := if Ahead(p, first, u) then first else u;
      forall b | b in s && b != t
        ensures Ahead(p, t, b)
      {
        assert b == first || b == u || Ahead(p, u, b);
      }
    }
  }

  /** The validator `max_by` returns; unique because the comparator never ties two addresses. */
  ghost function Top(p: map<Address, int>): (t: Address)
    requires p != map[]
    ensures IsTop(p, t)
  {
    assert p.Keys != {};
    assert exists t :: IsTop(p, t) by {
      var t := TopExists(p, p.Keys);
      assert IsTop(p, t);
    }
    var t :| IsTop(p, t);
    t
  }

  lemma TopUnique(p: map<Address, int>, a: Address)
    requires p != map[] && IsTop(p, a)
    ensures Top(p) == a
  {
    var t := Top(p);
    assert t != a ==> Ahead(p, a, t);
  }

  function Negated(p: map<Address, int>): map<Address, int> {
    map a | a in p :: -p[a]
  }

  ghost function Highest(p: map<Address, int>): (h: int)
    requires p != map[]
    ensures forall a :: a in p ==> p[a] <= h
    ensures exists a :: a in p && p[a] == h
  {
    assert forall a :: a in p && a != Top(p) ==> Ahead(p, Top(p), a);
    p[Top(p)]
  }

  ghost function Lowest(p: map<Address, int>): (l: int)
    requires p != map[]
    ensures forall a :: a in p ==> l <= p[a]
    ensures exists a :: a in p && p[a] == l
  {
    var n := Negated(p);
    assert n.Keys == p.Keys;
    assert Top(p) in n;
    assert forall a :: a in p ==> p[a] == -n[a];
    assert forall a :: a in n ==> n[a] <= Highest(n);
    -Highest(n)
  }

  ghost function Spread(p: map<Address, int>): int
    requires p != map[]
  {
    Highest(p) - Lowest(p)
  }

  ghost function Total(w: map<Address, int>): int {
    Sum(w, w.Keys)
  }

  /** A validator set that can elect: some validator, no negative power, some power. */
  ghost predicate ValidPowers(w: map<Address, int>) {
    w != map[] && (forall a :: a in w ==> 0 <= w[a]) && 0 < Total(w)
  }

  ghost predicate State(w: map<Address, int>, p: map<Address, int>) {
    ValidPowers(w) && p.Keys == w.Keys && p != map[]
  }

  ghost function Average(p: map<Address, int>): int
    requires p != map[]
  {
    assert p.Keys != {};
    TruncDiv(Sum(p, p.Keys), |p|)
  }

  /** `center_priorities` */
  ghost function Center(p: map<Address, int>): (c: map<Address, int>)
    requires p != map[]
    ensures c.Keys == p.Keys && c != map[]
  {
    var c := map a | a in p :: p[a] - Average(p);
    assert Top(p) in c;
    c
  }

  ghost function ScaleFactor(w: map<Address, int>, p: map<Address, int>): int
    requires State(w, p)
  {
    TruncDiv(Spread(p) * ONE_E3, 2 * Total(w))
  }

  lemma QuotientBounds(x: int, y: int)
    requires 0 <= x && 0 < y
    ensures y * (x / y) <= x < y * (x / y + 1)
  {
    assert x == y * (x / y) + x % y;
    assert y * (x / y + 1) == y * (x / y) + y;
  }

  lemma PositiveFactor(y: int, z: int)
    requires 0 < y && 0 < y * z
    ensures 0 < z
  {
  }

  lemma QuotientIff(n: nat, b: int, q: int)
    requires 0 < b
    ensures q == n / b <==> b * q <= n < b * (q + 1)
  {
    var d := n / b;
    QuotientBounds(n, b);
    if b * q <= n < b * (q + 1) {
      assert b * (d + 1 - q) == b * (d + 1) - b * q;
      PositiveFactor(b, d + 1 - q);
      assert b * (q + 1 - d) == b * (q + 1) - b * d;
      PositiveFactor(b, q + 1 - d);
    }
  }

  /** What truncation means: the remainder is smaller than the divisor and never of the opposite sign. */
  lemma TruncDivIff(a: int, b: int, q: int)
    requires 0 < b
    ensures q == TruncDiv(a, b) <==> if 0 <= a then 0 <= a - b * q < b else -b < a - b * q <= 0
  {
    if 0 <= a {
      QuotientIff(a, b, q);
      assert b * (q + 1) == b * q + b;
    } else {
      QuotientIff(-a, b, -q);
      assert b * (-q) == -(b * q) && b * (-q + 1) == b * (-q) + b;
    }
  }

  lemma QuotientAtLeast(x: int, y: int, k: nat)
    requires 0 < y && k * y <= x
    ensures k <= x / y
  {
    QuotientBounds(x, y);
    PositiveFactor(y, x / y + 1 - k);
  }

  lemma ScaleFactorLarge(w: map<Address, int>, p: map<Address, int>)
    requires State(w, p) && Spread(p) > 2 * Total(w)
    ensures ScaleFactor(w, p) >= ONE_E3
    ensures 2 * Total(w) * ScaleFactor(w, p) <= ONE_E3 * Spread(p) < 2 * Total(w) * (ScaleFactor(w, p) + 1)
  {
    QuotientBounds(Spread(p) * ONE_E3, 2 * Total(w));
    QuotientAtLeast(Spread(p) * ONE_E3, 2 * Total(w), ONE_E3);
  }

  /** `scale_priorities` */
  ghost function Scale(w: map<Address, int>, p: map<Address, int>): (q: map<Address, int>)
    requires State(w, p)
    ensures q.Keys == p.Keys && State(w, q)
  {
    if Spread(p) > 2 * Total(w) then
      ScaleFactorLarge(w, p);
      var q := map a | a in p :: TruncDiv(p[a] * ONE_E3, ScaleFactor(w, p));
      assert Top(p) in q;
      q
    else
      p
  }

  /** Priorities after every validator received its voting power. */
  ghost function AddPowers(w: map<Address, int>, p: map<Address, int>): (q: map<Address, int>)
    requires State(w, p)
    ensures State(w, q)
  {
    var q := map a | a in p :: p[a] + w[a];
    assert Top(p) in q;
    q
  }

  ghost function Elected(w: map<Address, int>, p: map<Address, int>): (a: Address)
    requires State(w, p)
    ensures a in w
  {
    Top(AddPowers(w, p))
  }

  /** `proposer_selection`: the elected validator pays the total power. */
  ghost function Select(w: map<Address, int>, p: map<Address, int>): (q: map<Address, int>)
    requires State(w, p)
    ensures State(w, q)
  {
    var q := AddPowers(w, p);
    var t := Elected(w, p);
    var r := q[t := q[t] - Total(w)];
    assert r.Keys == q.Keys;
    assert t in r;
    r
  }

  ghost function Prepared(w: map<Address, int>, p: map<Address, int>): (q: map<Address, int>)
    requires State(w, p)
    ensures State(w, q)
  {
    Scale(w, Center(p))
  }

  /** One catch-up round of `choose_proposer`. */
  ghost function Round(w: map<Address, int>, p: map<Address, int>): (q: map<Address, int>)
    requires State(w, p)
    ensures State(w, q)
  {
    Select(w, Prepared(w, p))
  }

  ghost function RoundLeader(w: map<Address, int>, p: map<Address, int>): (a: Address)
    requires State(w, p)
    ensures a in w
  {
    Elected(w, Prepared(w, p))
  }

  ghost function Zero(w: map<Address, int>): (p: map<Address, int>)
    requires ValidPowers(w)
    ensures State(w, p)
  {
    var p: map<Address, int> := map a | a in w :: 0;
    assert Top(w) in p;
    p
  }

  /** Priorities after `r` rounds from `p`. */
  ghost function Rounds(w: map<Address, int>, p: map<Address, int>, r: nat): (q: map<Address, int>)
    requires State(w, p)
    ensures State(w, q)
  {
    if r == 0 then p else Round(w, Rounds(w, p, r - 1))
  }

  /** Priorities after `r` rounds of a freshly constructed selection. */
  ghost function After(w: map<Address, int>, r: nat): (p: map<Address, int>)
    requires ValidPowers(w)
    ensures State(w, p)
  {
    Rounds(w, Zero(w), r)
  }

  /** The leader elected by round `r` (1-based) of a fresh selection. */
  ghost function LeaderAt(w: map<Address, int>, r: nat): (a: Address)
    requires ValidPowers(w) && 0 < r
    ensures a in w
  {
    RoundLeader(w, After(w, r - 1))
  }
}
