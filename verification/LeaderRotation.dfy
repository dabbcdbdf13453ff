/**
 Equal voting powers: election is the plain rotation through the validators in descending address
 order, and neither centring nor rescaling ever changes anything.
 */
module LeaderRotation {
  import opened FiniteSums
  import opened LeaderSelection
  import opened Sequences
  import opened LeaderFairness
  import opened LeaderBounds

  /** Position of `a` in the descending address order of `s`. */
  ghost function Rank(s: set<Address>, a: Address): nat {
    |set b | b in s && b > a|
  }

  lemma RankStrict(s: set<Address>, a: Address, b: Address)
    requires a in s && b in s && a < b
    ensures Rank(s, b) < Rank(s, a)
  {
    var x, y := set c | c in s && c > b, set c | c in s && c > a;
    assert x <= y - {b};
    SizeAtMost(x, y - {b});
  }

  lemma RankBelowSize(s: set<Address>, a: Address)
    requires a in s
    ensures Rank(s, a) < |s|
  {
    var x := set c | c in s && c > a;
    SizeAtMost(x, s - {a});
  }

  /** Every position is taken. */
  lemma {:induction false} RankTaken(s: set<Address>, r: nat) returns (a: Address)
    requires r < |s|
    ensures a in s && Rank(s, a) == r
    decreases s
  {
    var p := map x | x in s :: 0;
    assert p.Keys == s;
    var m := TopExists(p, s);
    if r == 0 {
      a := m;
      assert (set b | b in s && b > m) == {};
    } else {
      a := RankTaken(s - {m}, r - 1);
      var lower := set b | b in s - {m} && b > a;
      assert (set b | b in s && b > a) == lower + {m};
    }
  }

  ghost predicate EqualPowers(w: map<Address, int>, v: int) {
    w != map[] && 0 < v && forall a :: a in w ==> w[a] == v
  }

  lemma EqualTotal(w: map<Address, int>, v: int)
    requires EqualPowers(w, v)
    ensures Total(w) == |w| * v && ValidPowers(w) && 0 < |w|
  {
    assert w.Keys != {};
    SumBounds(w, w.Keys, v, v);
    assert |w.Keys| == |w|;
    ScaleUp(v, 1, |w|);
  }

  /** Priorities in the middle of a rotation of which `r` validators have had their turn. */
  ghost predicate Turn(w: map<Address, int>, p: map<Address, int>, v: int, r: nat) {
    p.Keys == w.Keys && forall a :: a in p ==> p[a] == r * v - (if Rank(w.Keys, a) < r then |w| * v else 0)
  }

  /** The validator whose turn it is gets elected. */
  lemma TurnElects(w: map<Address, int>, p: map<Address, int>, v: int, r: nat)
    requires EqualPowers(w, v) && State(w, p) && Turn(w, p, v, r) && r < |w|
    ensures Rank(w.Keys, Elected(w, p)) == r
  {
    hide Sum, Total;
    var q := AddPowers(w, p);
    var a := RankTaken(w.Keys, r);
    ScaleUp(v, 1, |w|);
    forall b | b in q && b != a
      ensures Ahead(q, a, b)
    {
      if a < b {
        RankStrict(w.Keys, a, b);
      }
    }
    assert IsTop(q, a);
    TopUnique(q, a);
  }

  lemma TurnAdvances(w: map<Address, int>, p: map<Address, int>, v: int, r: nat)
    requires EqualPowers(w, v) && State(w, p) && Turn(w, p, v, r) && r < |w|
    ensures Turn(w, Select(w, p), v, if r + 1 == |w| then 0 else r + 1)
  {
    hide Sum, Total, Rank;
    var q, t := Select(w, p), Elected(w, p);
    EqualTotal(w, v);
    TurnElects(w, p, v, r);
    forall a | a in q
      ensures q[a] == (r + 1) * v - (if Rank(w.Keys, a) < r + 1 then |w| * v else 0)
    {
      RankApart(w.Keys, a, t);
      assert (r + 1) * v == r * v + v;
    }
    if r + 1 == |w| {
      forall a | a in q
        ensures q[a] == 0
      {
        RankBelowSize(w.Keys, a);
      }
    }
  }

  lemma RankApart(s: set<Address>, a: Address, b: Address)
    requires a in s && b in s
    ensures Rank(s, a) == Rank(s, b) ==> a == b
  {
    if a < b {
      RankStrict(s, a, b);
    } else if b < a {
      RankStrict(s, b, a);
    }
  }

  lemma TurnSpread(w: map<Address, int>, p: map<Address, int>, v: int, r: nat)
    requires EqualPowers(w, v) && State(w, p) && Turn(w, p, v, r)
    ensures Spread(p) <= 2 * Total(w)
  {
    hide Sum, Total, Rank;
    EqualTotal(w, v);
    SpreadAtMost(p, Total(w));
  }

  /** After k rounds, k mod n validators have had their turn in the current rotation. */
  lemma {:induction false} RunTurn(w: map<Address, int>, v: int, k: nat)
    requires EqualPowers(w, v) && ValidPowers(w) && 0 < |w|
    ensures Turn(w, After(w, k), v, k % |w|)
    ensures NotRescaledBefore(w, k)
  {
    hide Sum, Total, Turn, Bounded, Spread, Center, Round, Select, Zero;
    if k == 0 {
      ZeroTurn(w, v);
    } else {
      RunTurn(w, v, k - 1);
      var p := After(w, k - 1);
      PriorityIsDebt(w, k - 1);
      BoundedBalanced(w, p);
      TurnSpread(w, p, v, (k - 1) % |w|);
      UnscaledRound(w, p);
      TurnAdvances(w, p, v, (k - 1) % |w|);
      NextResidue(k - 1, |w|);
    }
  }

  lemma ZeroTurn(w: map<Address, int>, v: int)
    requires EqualPowers(w, v) && ValidPowers(w)
    ensures Turn(w, Zero(w), v, 0)
  {
  }

  lemma NextResidue(k: nat, n: nat)
    requires 0 < n
    ensures (k + 1) % n == if k % n + 1 == n then 0 else k % n + 1
  {
    var q, r := k / n, k % n;
    if r + 1 == n {
      assert k + 1 == (q + 1) * n;
      ModUnique(k + 1, n, q + 1, 0);
    } else {
      ModUnique(k + 1, n, q, r + 1);
    }
  }

  lemma ModUnique(x: int, n: int, q: int, r: int)
    requires 0 <= r < n && x == q * n + r
    ensures x % n == r
  {
    var d := x / n - q;
    assert d * n == r - x % n;
    assert d >= 1 ==> d * n >= n;
    assert d <= -1 ==> d * n <= -n;
  }

  /** The k-th leader is the ((k-1) mod n)-th validator in descending address order; the priorities it
      is elected from are the previous round's, neither centred nor rescaled. */
  lemma RotationOrder(w: map<Address, int>, v: int, k: nat)
    requires EqualPowers(w, v) && ValidPowers(w) && 0 < |w| && 0 < k
    ensures Rank(w.Keys, LeaderAt(w, k)) == (k - 1) % |w|
    ensures Prepared(w, After(w, k - 1)) == After(w, k - 1)
  {
    hide Sum, Total, Turn, Bounded, Spread, Center, Select, After, Elected, Rank;
    var p, r := After(w, k - 1), (k - 1) % |w|;
    RunTurn(w, v, k - 1);
    PriorityIsDebt(w, k - 1);
    BoundedBalanced(w, p);
    TurnSpread(w, p, v, r);
    TurnElects(w, p, v, r);
  }
}
