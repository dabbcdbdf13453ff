/**
 Runs of `choose_proposer`: whatever heights a node happens to see, the outcome at height h depends
 only on the validators, the start block and h.
 */
module LeaderRuns {
  import opened FiniteSums
  import opened LeaderSelection
  import opened LeaderFairness
  import opened LeaderBounds
  import opened LeaderRotation
  import opened Options

  /** The mutable part of the selection. */
  datatype Election = Election(priorities: map<Address, int>, blockNumber: nat, lastProposer: Option<Address>)

  ghost function Fresh(w: map<Address, int>, start: nat): Election
    requires ValidPowers(w)
  {
    Election(Zero(w), start, None)
  }

  /** `choose_proposer`: the new state and the answer. */
  ghost function Choose(w: map<Address, int>, e: Election, height: nat): (r: (Election, Address))
    requires State(w, e.priorities) && e.blockNumber <= height
    requires e.lastProposer.Some? ==> e.lastProposer.value in w
    ensures State(w, r.0.priorities) && r.0.blockNumber == height && r.0.lastProposer == Some(r.1) && r.1 in w
  {
    var p := e.priorities;
    if height == e.blockNumber then
      if e.lastProposer.None? then
        (Election(Select(w, p), height, Some(Elected(w, p))), Elected(w, p))
      else
        (e, e.lastProposer.value)
    else
      var rounds := height - e.blockNumber;
      var leader := RoundLeader(w, Rounds(w, p, rounds - 1));
      (Election(Rounds(w, p, rounds), height, Some(leader)), leader)
  }

  ghost predicate NonDecreasing(from: nat, heights: seq<nat>) {
    && (forall i :: 0 <= i < |heights| ==> from <= heights[i])
    && (forall i, j :: 0 <= i <= j < |heights| ==> heights[i] <= heights[j])
  }

  /** State after a node saw `heights`, in that order, from a fresh start. */
  ghost function Run(w: map<Address, int>, start: nat, heights: seq<nat>): (e: Election)
    requires ValidPowers(w) && NonDecreasing(start, heights)
    ensures State(w, e.priorities)
    ensures e.blockNumber == if heights == [] then start else heights[|heights| - 1]
    ensures e.lastProposer.Some? ==> e.lastProposer.value in w
  {
    if heights == [] then Fresh(w, start)
    else
      var h := heights[|heights| - 1];
      Choose(w, Run(w, start, heights[..|heights| - 1]), h).0
  }

  lemma {:induction false} RoundsCompose(w: map<Address, int>, p: map<Address, int>, i: nat, j: nat)
    requires State(w, p)
    ensures Rounds(w, Rounds(w, p, i), j) == Rounds(w, p, i + j)
    decreases j
  {
    hide Round;
    if j > 0 {
      RoundsCompose(w, p, i, j - 1);
    }
  }

  lemma AfterCompose(w: map<Address, int>, i: nat, j: nat)
    requires ValidPowers(w)
    ensures Rounds(w, After(w, i), j) == After(w, i + j)
  {
    hide Rounds;
    RoundsCompose(w, Zero(w), i, j);
  }

  /** What any node knows at height `h` if it took `extra` more rounds than blocks. */
  ghost function Settled(w: map<Address, int>, start: nat, h: nat, extra: nat): Election
    requires ValidPowers(w) && start <= h && 0 < h - start + extra
  {
    Election(After(w, h - start + extra), h, Some(LeaderAt(w, h - start + extra)))
  }

  /** A settled node stays settled, across gaps and repeats. */
  lemma ChooseSettled(w: map<Address, int>, start: nat, g: nat, h: nat, extra: nat)
    requires ValidPowers(w) && start <= g <= h && 0 < g - start + extra
    ensures Choose(w, Settled(w, start, g, extra), h).0 == Settled(w, start, h, extra)
  {
    hide Rounds, RoundLeader, After;
    if g < h {
      AfterCompose(w, g - start + extra, h - g);
      AfterCompose(w, g - start + extra, h - g - 1);
    }
  }

  /** Any non-decreasing heights that start above the start block: the state depends on the last one only. */
  lemma {:induction false} RunSettles(w: map<Address, int>, start: nat, heights: seq<nat>)
    requires ValidPowers(w) && heights != [] && NonDecreasing(start, heights) && heights[0] > start
    ensures Run(w, start, heights) == Settled(w, start, heights[|heights| - 1], 0)
  {
    hide Round, RoundLeader, Zero;
    var init, h := heights[..|heights| - 1], heights[|heights| - 1];
    if init == [] {
      assert Choose(w, Fresh(w, start), h).0 == Settled(w, start, h, 0);
    } else {
      RunSettles(w, start, init);
      ChooseSettled(w, start, init[|init| - 1], h, 0);
    }
  }

  /** Two nodes that saw different heights agree on priorities and leader once both are at `h`. */
  lemma Agreement(w: map<Address, int>, start: nat, xs: seq<nat>, ys: seq<nat>)
    requires ValidPowers(w) && NonDecreasing(start, xs) && NonDecreasing(start, ys)
    requires xs != [] && ys != [] && xs[0] > start && ys[0] > start && xs[|xs| - 1] == ys[|ys| - 1]
    ensures Run(w, start, xs) == Run(w, start, ys)
    ensures Run(w, start, xs).lastProposer == Some(LeaderAt(w, xs[|xs| - 1] - start))
  {
    hide Run, Settled, LeaderAt, ValidPowers;
    RunSettles(w, start, xs);
    RunSettles(w, start, ys);
    SettledLeader(w, start, xs[|xs| - 1]);
  }

  lemma SettledLeader(w: map<Address, int>, start: nat, h: nat)
    requires ValidPowers(w) && start < h
    ensures Settled(w, start, h, 0).lastProposer == Some(LeaderAt(w, h - start))
  {
  }

  lemma FirstSelectIsRound(w: map<Address, int>)
    requires ValidPowers(w)
    ensures Select(w, Zero(w)) == After(w, 1) && Elected(w, Zero(w)) == LeaderAt(w, 1)
  {
    hide Bounded, Select, Elected, Spread, Zero, Center, Total;
    ZeroBounded(w);
    BoundedBalanced(w, Zero(w));
    ZeroSpread(w);
    UnscaledRound(w, Zero(w));
    assert Rounds(w, Zero(w), 0) == Zero(w);
    assert Rounds(w, Zero(w), 1) == Round(w, Zero(w));
  }

  lemma ZeroSpread(w: map<Address, int>)
    requires ValidPowers(w)
    ensures Spread(Zero(w)) <= 2 * Total(w)
  {
    hide Highest, Lowest, Total;
  }

  /** A node whose first height is the start block itself runs one extra selection and stays exactly
      one round ahead of everybody else for ever. */
  lemma {:induction false} StartHeightRunsAhead(w: map<Address, int>, start: nat, heights: seq<nat>)
    requires ValidPowers(w) && heights != [] && NonDecreasing(start, heights) && heights[0] == start
    ensures Run(w, start, heights) == Settled(w, start, heights[|heights| - 1], 1)
  {
    hide Round, RoundLeader, Zero, Select, Elected;
    var init, h := heights[..|heights| - 1], heights[|heights| - 1];
    if init == [] {
      FirstSelectIsRound(w);
      assert Run(w, start, []) == Fresh(w, start);
    } else {
      StartHeightRunsAhead(w, start, init);
      ChooseSettled(w, start, init[|init| - 1], h, 1);
    }
  }

  /** A rescale moves every priority toward zero. */
  lemma ScaledTowardZero(w: map<Address, int>, c: map<Address, int>, a: Address)
    requires State(w, c) && Spread(c) > 2 * Total(w) && a in c
    ensures 0 <= c[a] ==> 0 <= Scale(w, c)[a] <= c[a]
    ensures c[a] <= 0 ==> c[a] <= Scale(w, c)[a] <= 0
  {
    hide Spread, Total;
    ScaleFactorLarge(w, c);
    TowardZero(c[a], ScaleFactor(w, c));
  }

  lemma TowardZero(x: int, k: int)
    requires ONE_E3 <= k
    ensures 0 <= x ==> 0 <= TruncDiv(x * ONE_E3, k) <= x
    ensures x <= 0 ==> x <= TruncDiv(x * ONE_E3, k) <= 0
  {
    hide TruncDiv;
    Stretched(x, k);
    TruncBounds(x * ONE_E3, k);
    Between(x, TruncDiv(x * ONE_E3, k), k);
  }

  lemma Stretched(x: int, k: int)
    requires ONE_E3 <= k
    ensures 0 <= x ==> 0 <= x * ONE_E3 <= x * k
    ensures x <= 0 ==> x * k <= x * ONE_E3 <= 0
  {
    var d := k - ONE_E3;
    assert x * k == x * ONE_E3 + x * d;
    assert 0 <= x ==> 0 <= x * d;
    assert x <= 0 ==> x * d <= 0;
  }

  lemma Between(x: int, q: int, k: int)
    requires 0 < k
    requires 0 <= x ==> -k < q * k <= x * k
    requires x <= 0 ==> x * k <= q * k < k
    ensures 0 <= x ==> 0 <= q <= x
    ensures x <= 0 ==> x <= q <= 0
  {
    assert q <= -1 ==> q * k <= -k;
    assert q >= 1 ==> q * k >= k;
    assert q > x ==> q * k > x * k;
    assert q < x ==> q * k < x * k;
  }

  /** Tame priorities average out to -1, 0 or 1. */
  lemma SmallAverage(w: map<Address, int>, p: map<Address, int>)
    requires State(w, p) && Tame(w, p)
    ensures -1 <= Average(p) <= 1
  {
    hide Spread, Total, Sum, TruncDiv;
    assert |p| == |p.Keys| == |w.Keys| == |w|;
    assert Top(p) in p.Keys;
    TruncBounds(Sum(p, p.Keys), |p|);
    UnitQuotient(Average(p), Sum(p, p.Keys), |p|);
  }

  lemma UnitQuotient(q: int, x: int, n: int)
    requires 0 < n && -2 * n < x < 2 * n
    requires 0 <= x ==> q * n <= x
    requires x <= 0 ==> x <= q * n
    requires (0 <= x ==> x - n < q * n) && (x <= 0 ==> q * n < x + n)
    ensures -1 <= q <= 1
  {
    assert q >= 2 ==> q * n >= 2 * n;
    assert q <= -2 ==> q * n <= -2 * n;
  }

  /** Validators carry a thousand times their configured power. */
  ghost predicate Configured(w: map<Address, int>) {
    forall a :: a in w ==> w[a] % ONE_E3 == 0
  }

  /** One validator holds all the power. */
  ghost predicate Monopoly(w: map<Address, int>) {
    exists t :: t in w && w[t] == Total(w)
  }

  /** Beside a validator that does not hold all the power there is another one with some. */
  lemma OtherPower(w: map<Address, int>, t: Address) returns (o: Address)
    requires t in w && (forall b :: b in w ==> 0 <= w[b]) && w[t] != Total(w)
    ensures o in w && o != t && 0 < w[o]
  {
    SumRemove(w, w.Keys, t);
    o := t;
    if a :| a in w && a != t && 0 < w[a] {
      o := a;
    } else {
      SumZero(w, w.Keys - {t});
    }
  }

  lemma PowerLeft(w: map<Address, int>, t: Address, o: Address)
    requires t in w && o in w && o != t && forall b :: b in w ==> 0 <= w[b]
    ensures w[t] + w[o] <= Total(w)
  {
    SumRemove(w, w.Keys, t);
    SumRemove(w, w.Keys - {t}, o);
    SumMonotone(w, {}, w.Keys - {t} - {o});
  }

  lemma RoundEffect(w: map<Address, int>, p: map<Address, int>, a: Address)
    requires State(w, p) && a in w
    ensures Round(w, p)[a] == Prepared(w, p)[a] + w[a] - if a == RoundLeader(w, p) then Total(w) else 0
    ensures Center(p)[a] == p[a] - Average(p)
  {
    hide Total, Average, Elected, Scale;
  }

  /** A validator that is not elected moves up unless a rescale pulled it down. */
  lemma UnelectedMoves(w: map<Address, int>, p: map<Address, int>, a: Address)
    requires State(w, p) && Tame(w, p) && a in w && a != RoundLeader(w, p) && 2 <= w[a]
    requires Spread(Center(p)) <= 2 * Total(w) || Center(p)[a] <= 0
    ensures Round(w, p)[a] > p[a]
  {
    hide Spread, Total, Tame, Average, Round, RoundLeader, Center, ScaleFactor;
    SmallAverage(w, p);
    RoundEffect(w, p, a);
    if Spread(Center(p)) > 2 * Total(w) {
      ScaledTowardZero(w, Center(p), a);
    }
  }

  /** The elected one moves down unless a rescale pulled it up. */
  lemma ElectedMoves(w: map<Address, int>, p: map<Address, int>, o: Address)
    requires State(w, p) && Tame(w, p) && o in w && o != RoundLeader(w, p) && 2 <= w[o]
    requires Spread(Center(p)) <= 2 * Total(w) || Center(p)[RoundLeader(w, p)] >= 0
    ensures Round(w, p)[RoundLeader(w, p)] < p[RoundLeader(w, p)]
  {
    hide Spread, Total, Tame, Average, Round, RoundLeader, Center, ScaleFactor;
    var t := RoundLeader(w, p);
    SmallAverage(w, p);
    RoundEffect(w, p, t);
    PowerLeft(w, t, o);
    if Spread(Center(p)) > 2 * Total(w) {
      ScaledTowardZero(w, Center(p), t);
    }
  }

  /** After a round nobody is more than T ahead of the elected one. */
  lemma ElectedWithinTotal(w: map<Address, int>, p: map<Address, int>, h: Address)
    requires State(w, p) && h in w && h != RoundLeader(w, p)
    ensures Round(w, p)[h] - Round(w, p)[RoundLeader(w, p)] <= Total(w)
  {
    hide Total, Round, Scale, Center;
    RoundEffect(w, p, h);
    RoundEffect(w, p, RoundLeader(w, p));
    ElectedHighest(w, Prepared(w, p));
  }

  /** A rescale by a ratio that truncates to one changes nothing, so a power is felt in full. */
  lemma UnshrunkMoves(w: map<Address, int>, p: map<Address, int>, a: Address)
    requires State(w, p) && Tame(w, p) && a in w && a != RoundLeader(w, p) && 2 <= w[a]
    requires Spread(Center(p)) > 2 * Total(w) && ScaleFactor(w, Center(p)) == ONE_E3
    ensures Round(w, p)[a] > p[a]
  {
    hide Spread, Total, Tame, Average, Round, RoundLeader, Center, ScaleFactor;
    SmallAverage(w, p);
    RoundEffect(w, p, a);
  }

  /** A larger ratio pulls a low priority up by more than centring can push it down. */
  lemma LowMoves(w: map<Address, int>, p: map<Address, int>, a: Address)
    requires State(w, p) && Tame(w, p) && a in w && a != RoundLeader(w, p) && Center(p)[a] + ONE_E3 + 2 <= 0
    requires Spread(Center(p)) > 2 * Total(w) && ScaleFactor(w, Center(p)) > ONE_E3
    ensures Round(w, p)[a] > p[a]
  {
    hide Spread, Total, Tame, Average, Round, RoundLeader, Center, ScaleFactor;
    SmallAverage(w, p);
    RoundEffect(w, p, a);
    ShrinksByTwo(Center(p)[a], ScaleFactor(w, Center(p)));
  }

  lemma ShrinksByTwo(x: int, k: int)
    requires ONE_E3 < k && x + ONE_E3 + 2 <= 0
    ensures TruncDiv(x * ONE_E3, k) >= x + 2
  {
    hide TruncDiv;
    var q := TruncDiv(x * ONE_E3, k);
    TruncBounds(x * ONE_E3, k);
    Product(q, x + 1, k);
    Product(-k, -(ONE_E3 + 1), -(x + 1));
    assert (x + 1) * k == -k * -(x + 1);
  }

  lemma Product(a: int, b: int, c: int)
    requires 0 <= c
    ensures a <= b ==> a * c <= b * c
  {
  }

  lemma ConfiguredPower(w: map<Address, int>, a: Address)
    requires ValidPowers(w) && Configured(w) && a in w
    ensures w[a] == 0 || ONE_E3 <= w[a] <= Total(w)
  {
    SumRemove(w, w.Keys, a);
    SumMonotone(w, {}, w.Keys - {a});
  }

  /** Unless one validator holds all the power every round changes the priorities, rescaled or not. */
  lemma RoundsMove(w: map<Address, int>, p: map<Address, int>)
    requires State(w, p) && Tame(w, p) && Configured(w) && !Monopoly(w)
    ensures Round(w, p) != p
  {
    hide Spread, Total, Tame, Average, Round, RoundLeader, Center, Highest, Lowest, ScaleFactor, Configured;
    var c, t := Center(p), RoundLeader(w, p);
    var o := OtherPower(w, t);
    ConfiguredPower(w, o);
    if Spread(c) <= 2 * Total(w) || c[t] >= 0 {
      ElectedMoves(w, p, o);
    } else if a :| a in w && a != t && 2 <= w[a] && c[a] <= 0 {
      UnelectedMoves(w, p, a);
    } else if ScaleFactor(w, c) == ONE_E3 {
      UnshrunkMoves(w, p, o);
    } else {
      ScaleFactorLarge(w, c);
      WideMoves(w, p, o);
    }
  }

  /** All the unelected validators with power are positive, the elected one is not: either somebody is
      more than T ahead of it, or a validator without power lies far below. */
  lemma WideMoves(w: map<Address, int>, p: map<Address, int>, o: Address)
    requires State(w, p) && Tame(w, p) && Configured(w) && o in w && o != RoundLeader(w, p) && 2 <= w[o]
    requires ONE_E3 <= Total(w)
    requires Spread(Center(p)) > 2 * Total(w) && ScaleFactor(w, Center(p)) > ONE_E3
    requires Center(p)[RoundLeader(w, p)] < 0
    requires forall a :: a in w && a != RoundLeader(w, p) && 2 <= w[a] ==> Center(p)[a] > 0
    ensures Round(w, p) != p
  {
    hide Spread, Total, Tame, Average, Round, RoundLeader, Center, ScaleFactor, Configured;
    var c, t := Center(p), RoundLeader(w, p);
    var h, l := Extremes(c);
    assert c[h] >= c[o] > 0;
    ElectedWithinTotal(w, p, h);
    RoundEffect(w, p, h);
    RoundEffect(w, p, t);
    if c[h] - c[t] <= Total(w) {
      assert c[l] < c[t] - Total(w);
      LowMoves(w, p, l);
    }
  }

  lemma Extremes(c: map<Address, int>) returns (h: Address, l: Address)
    requires c != map[]
    ensures h in c && l in c && c[h] - c[l] == Spread(c)
    ensures forall a :: a in c ==> c[l] <= c[a] <= c[h]
  {
    h :| h in c && c[h] == Highest(c);
    l :| l in c && c[l] == Lowest(c);
  }

  /** Being one round ahead goes unnoticed exactly when one validator holds all the power, at every height
      of every run and for every validator set that can be configured. */
  lemma AheadIsVisible(w: map<Address, int>, k: nat)
    requires ValidPowers(w) && Configured(w)
    ensures After(w, k) == After(w, k + 1) <==> Monopoly(w)
  {
    hide Total, After, Center, Spread, Elected, Tame, Round, Configured;
    AfterStep(w, k);
    if t :| t in w && w[t] == Total(w) {
      MonopolyRounds(w, t, k);
      MonopolyRounds(w, t, k + 1);
    } else {
      RunsAreTame(w, k);
      RoundsMove(w, After(w, k));
    }
  }

  /** A validator with all the power is paid and charged the same. */
  lemma {:induction false} MonopolyRounds(w: map<Address, int>, t: Address, k: nat)
    requires ValidPowers(w) && t in w && w[t] == Total(w)
    ensures After(w, k) == Zero(w)
  {
    hide Round, Bounded, Total, Spread, Center;
    if k == 0 {
      assert Rounds(w, Zero(w), 0) == Zero(w);
    } else {
      MonopolyRounds(w, t, k - 1);
      AfterStep(w, k - 1);
      ZeroBounded(w);
      BoundedBalanced(w, Zero(w));
      ZeroSpread(w);
      UnscaledRound(w, Zero(w));
      MonopolySelect(w, t);
    }
  }

  lemma MonopolySelect(w: map<Address, int>, t: Address)
    requires ValidPowers(w) && t in w && w[t] == Total(w)
    ensures Select(w, Zero(w)) == Zero(w)
  {
    hide Total;
    forall a | a in w && a != t
      ensures w[a] == 0
    {
      PowerLeft(w, t, a);
    }
    TopUnique(AddPowers(w, Zero(w)), t);
  }

  lemma AfterStep(w: map<Address, int>, k: nat)
    requires ValidPowers(w)
    ensures After(w, k + 1) == Round(w, After(w, k))
  {
    hide Round, Zero;
  }

  lemma NextLeaders(w: map<Address, int>, v: int, k: nat)
    requires EqualPowers(w, v) && ValidPowers(w) && 2 <= |w| && 0 < k
    ensures LeaderAt(w, k) != LeaderAt(w, k + 1)
  {
    hide LeaderAt, ValidPowers, EqualPowers, After, Prepared;
    RotationOrder(w, v, k);
    RotationOrder(w, v, k + 1);
    NextResidue(k - 1, |w|);
  }

  /** With equal powers the extra round even changes the leader: a node that began at the start height and
      one that began above it name different leaders whenever both are at the same height. */
  lemma StartHeightDisagrees(w: map<Address, int>, v: int, start: nat, xs: seq<nat>, ys: seq<nat>)
    requires EqualPowers(w, v) && ValidPowers(w) && 2 <= |w|
    requires xs != [] && ys != [] && NonDecreasing(start, xs) && NonDecreasing(start, ys)
    requires xs[0] == start < ys[0] && xs[|xs| - 1] == ys[|ys| - 1]
    ensures Run(w, start, xs).lastProposer != Run(w, start, ys).lastProposer
  {
    hide Run, LeaderAt, ValidPowers, EqualPowers, After;
    RunSettles(w, start, ys);
    StartHeightRunsAhead(w, start, xs);
    NextLeaders(w, v, ys[|ys| - 1] - start);
  }
}
