/**
 The leader selection object itself. Every pass over the validator hash set is a loop that takes the
 validators in an arbitrary order, so the contracts also say that the order does not matter.
 */
module WeightedRoundRobinModel {
  import opened FiniteSums
  import opened LeaderSelection
  import opened LeaderFairness
  import opened LeaderBounds
  import opened LeaderRuns
  import opened Options

  datatype AngstromValidator = AngstromValidator(peerId: Address, votingPower: nat, priority: int)

  function NewValidator(name: Address, votingPower: nat): AngstromValidator {
    AngstromValidator(name, votingPower * ONE_E3, 0)
  }

  /** As the constructor of a validator leaves it: the power scaled by a thousand, the priority zero. */
  predicate IsNew(v: AngstromValidator) {
    v == NewValidator(v.peerId, v.votingPower / ONE_E3)
  }

  lemma NewValidatorIff(v: AngstromValidator)
    ensures IsNew(v) <==> v.priority == 0 && v.votingPower % 1000 == 0
  {
    assert v.votingPower == v.votingPower / ONE_E3 * ONE_E3 + v.votingPower % ONE_E3;
  }

  function Powers(vs: map<Address, AngstromValidator>): map<Address, int> {
    map a | a in vs :: vs[a].votingPower
  }

  function Priorities(vs: map<Address, AngstromValidator>): map<Address, int> {
    map a | a in vs :: vs[a].priority
  }

  /** Collecting a list into the set keeps the first entry of every address. */
  function FirstEntries(vs: seq<AngstromValidator>): map<Address, AngstromValidator> {
    if vs == [] then map[]
    else
      var m, v := FirstEntries(vs[..|vs| - 1]), vs[|vs| - 1];
      if v.peerId in m then m else m[v.peerId := v]
  }

  lemma {:induction false} FirstEntriesHold(vs: seq<AngstromValidator>, a: Address)
    ensures a in FirstEntries(vs) <==> exists i :: 0 <= i < |vs| && vs[i].peerId == a
    ensures a in FirstEntries(vs) ==>
              exists i :: 0 <= i < |vs| && vs[i].peerId == a && FirstEntries(vs)[a] == vs[i]
                          && forall j :: 0 <= j < i ==> vs[j].peerId != a
  {
    if vs != [] {
      var init := vs[..|vs| - 1];
      FirstEntriesHold(init, a);
      if i :| 0 <= i < |init| && init[i].peerId == a && FirstEntries(init)[a] == init[i]
              && forall j :: 0 <= j < i ==> init[j].peerId != a {
        assert vs[i].peerId == a && FirstEntries(vs)[a] == vs[i];
      } else if vs[|vs| - 1].peerId == a {
        assert forall j :: 0 <= j < |init| ==> vs[j] == init[j];
        assert FirstEntries(vs)[a] == vs[|vs| - 1];
      }
    }
  }

  /** A step of the signed 64-bit arithmetic: it must not overflow. */
  function I64(x: int): int
    requires InI64(x)
  {
    x
  }

  type Validators = map<Address, AngstromValidator>

  ghost predicate Keyed(vs: Validators) {
    forall a :: a in vs ==> vs[a].peerId == a
  }

  /** The sum of the voting powers, taken in any order. */
  method TotalVotingPower(vs: Validators) returns (total: int)
    ensures total == Total(Powers(vs))
  {
    total := 0;
    var rest := vs.Keys;
    ghost var w, done := Powers(vs), {};
    while rest != {}
      invariant done + rest == w.Keys && done !! rest
      invariant total == Sum(w, done)
      decreases rest
    {
      var a :| a in rest;
      SumAdd(w, done, a);
      total, rest, done := total + vs[a].votingPower, rest - {a}, done + {a};
    }
    assert done == w.Keys;
  }

  /** The sum of the priorities, taken in any order, none of the partial sums overflowing. */
  method PrioritySum(vs: Validators) returns (sum: int)
    requires forall s :: s <= vs.Keys ==> InI64(Sum(Priorities(vs), s))
    ensures sum == Sum(Priorities(vs), vs.Keys)
  {
    ghost var p, done := Priorities(vs), {};
    var rest := vs.Keys;
    sum := 0;
    while rest != {}
      invariant done + rest == p.Keys && done !! rest
      invariant sum == Sum(p, done)
      decreases rest
    {
      var a :| a in rest;
      SumAdd(p, done, a);
      assert done + {a} <= vs.Keys;
      sum := I64(sum + vs[a].priority);
      rest, done := rest - {a}, done + {a};
    }
    assert done == vs.Keys;
  }

  /** The winner of `max_by` over the hash set, whatever the iteration order. */
  method MaxByPriority(vs: Validators) returns (top: Address)
    requires vs != map[]
    ensures Priorities(vs) != map[] && top == Top(Priorities(vs)) && top in vs
  {
    ghost var p := Priorities(vs);
    assert vs.Keys != {};
    top :| top in vs.Keys;
    assert top in p;
    var rest := vs.Keys - {top};
    while rest != {}
      invariant rest <= p.Keys && top in p && top !in rest
      invariant forall b :: b in p && b !in rest && b != top ==> Ahead(p, top, b)
      decreases rest
    {
      var a :| a in rest;
      rest := rest - {a};
      if vs[a].priority > vs[top].priority || (vs[a].priority == vs[top].priority && a > top) {
        top := a;
      }
    }
    assert IsTop(p, top);
    TopUnique(p, top);
  }

  /** The two folds from the extreme 64-bit values. */
  method PriorityRange(vs: Validators) returns (high: int, low: int)
    requires vs != map[] && forall a :: a in vs ==> InI64(vs[a].priority)
    ensures Priorities(vs) != map[] && high == Highest(Priorities(vs)) && low == Lowest(Priorities(vs))
  {
    hide Highest, Lowest;
    ghost var p := Priorities(vs);
    assert vs.Keys != {} && p.Keys == vs.Keys;
    high, low := -I64_MAX - 1, I64_MAX;
    var rest := vs.Keys;
    while rest != {}
      invariant rest <= vs.Keys
      invariant forall b :: b in vs && b !in rest ==> low <= vs[b].priority <= high
      invariant high == -I64_MAX - 1 || exists b :: b in vs && b !in rest && vs[b].priority == high
      invariant low == I64_MAX || exists b :: b in vs && b !in rest && vs[b].priority == low
      decreases rest
    {
      var a :| a in rest;
      var v := vs[a].priority;
      high, low, rest := if high < v then v else high, if v < low then v else low, rest - {a};
    }
    assert p != map[];
    ghost var h :| h in p && p[h] == Highest(p);
    ghost var l :| l in p && p[l] == Lowest(p);
    assert low <= vs[h].priority <= high && low <= vs[l].priority <= high;
  }

  /** Draining the set and collecting it again with each priority replaced, in any order. */
  method Reprioritised(vs: Validators, f: AngstromValidator -> int) returns (next: Validators)
    requires forall a :: a in vs ==> InI64(f(vs[a]))
    ensures next == map a | a in vs :: vs[a].(priority := f(vs[a]))
  {
    next := map[];
    var rest := vs.Keys;
    while rest != {}
      invariant rest <= vs.Keys && next.Keys == vs.Keys - rest
      invariant forall a :: a in next ==> next[a] == vs[a].(priority := f(vs[a]))
      decreases rest
    {
      var a :| a in rest;
      next := next[a := vs[a].(priority := I64(f(vs[a])))];
      rest := rest - {a};
    }
  }

  /** Add every power, elect the top and charge it. */
  method Elect(vs: Validators) returns (next: Validators, leader: Address)
    requires Keyed(vs) && State(Powers(vs), Priorities(vs)) && Serviceable(Powers(vs))
    requires Prescaled(Powers(vs), Priorities(vs))
    ensures Keyed(next) && Powers(next) == Powers(vs)
    ensures leader == Elected(Powers(vs), Priorities(vs))
    ensures Priorities(next) == Select(Powers(vs), Priorities(vs))
  {
    hide Serviceable, Prescaled, ValidPowers, Total, AddPowers, Select, Keyed;
    ghost var w, p := Powers(vs), Priorities(vs);
    var total := TotalVotingPower(vs);
    forall a | a in vs
      ensures InI64(p[a] + w[a]) && InI64(p[a] + w[a] - Total(w))
    {
      SelectInRange(w, p, a);
    }
    var added := Reprioritised(vs, (v: AngstromValidator) => v.priority + v.votingPower);
    AddedPriorities(vs, added);
    leader := MaxByPriority(added);
    next := added[leader := added[leader].(priority := I64(added[leader].priority - total))];
    ChargedPriorities(vs, added, next, leader);
  }

  lemma AddedPriorities(vs: Validators, added: Validators)
    requires Keyed(vs) && State(Powers(vs), Priorities(vs))
    requires added == map a | a in vs :: vs[a].(priority := vs[a].priority + vs[a].votingPower)
    ensures Keyed(added) && added != map[]
    ensures Powers(added) == Powers(vs) && Priorities(added) == AddPowers(Powers(vs), Priorities(vs))
  {
    hide ValidPowers;
    assert Top(Priorities(vs)) in added;
  }

  lemma ChargedPriorities(vs: Validators, added: Validators, next: Validators, leader: Address)
    requires State(Powers(vs), Priorities(vs)) && Keyed(added) && leader in added
    requires Powers(added) == Powers(vs) && Priorities(added) == AddPowers(Powers(vs), Priorities(vs))
    requires leader == Elected(Powers(vs), Priorities(vs))
    requires next == added[leader := added[leader].(priority := added[leader].priority - Total(Powers(vs)))]
    ensures Keyed(next) && Powers(next) == Powers(vs)
    ensures Priorities(next) == Select(Powers(vs), Priorities(vs))
  {
    hide ValidPowers, Total, AddPowers;
    assert forall a :: a in added ==> Priorities(added)[a] == added[a].priority && Powers(added)[a] == added[a].votingPower;
  }

  /** Subtract the truncated average. */
  method Centered(vs: Validators) returns (next: Validators)
    requires Keyed(vs) && State(Powers(vs), Priorities(vs)) && Serviceable(Powers(vs))
    requires Tame(Powers(vs), Priorities(vs))
    ensures Keyed(next) && Powers(next) == Powers(vs)
    ensures Priorities(next) == Center(Priorities(vs))
  {
    hide Serviceable, Tame, ValidPowers, Sum;
    ghost var w, p := Powers(vs), Priorities(vs);
    assert p.Keys == vs.Keys && |p| == |p.Keys| && |vs| == |vs.Keys|;
    assert Top(p) in vs.Keys;
    forall s | s <= vs.Keys
      ensures InI64(Sum(p, s))
    {
      PartialSumInRange(w, p, s);
    }
    var sum := PrioritySum(vs);
    var average := TruncDiv(sum, |vs|);
    forall a | a in vs
      ensures InI64(p[a] - average)
    {
      CenterInRange(w, p, a);
    }
    next := Reprioritised(vs, (v: AngstromValidator) => v.priority - average);
  }

  /** Shrink the priorities if their spread exceeds twice the total power. */
  method Rescaled(vs: Validators) returns (next: Validators)
    requires Keyed(vs) && State(Powers(vs), Priorities(vs))
    requires forall a :: a in Priorities(vs) ==> InI64(Priorities(vs)[a] * ONE_E3)
    requires InI64(Spread(Priorities(vs)) * ONE_E3) && InI64(2 * Total(Powers(vs)))
    ensures Keyed(next) && Powers(next) == Powers(vs)
    ensures Priorities(next) == Scale(Powers(vs), Priorities(vs))
  {
    hide ValidPowers, Total, Highest, Lowest;
    ghost var w, p := Powers(vs), Priorities(vs);
    assert Top(p) in vs;
    assert forall a :: a in vs ==> vs[a].priority == p[a];
    var high, low := PriorityRange(vs);
    var total := TotalVotingPower(vs);
    TotalPositive(w);
    var diff, threshold := I64(high - low), I64(2 * total);
    next := vs;
    if diff > threshold {
      ScaleFactorLarge(w, p);
      var scale := TruncDiv(I64(diff * ONE_E3), threshold);
      forall a | a in vs
        ensures InI64(TruncDiv(p[a] * ONE_E3, scale))
      {
        TruncInRange(p[a] * ONE_E3, scale);
      }
      next := Reprioritised(vs, (v: AngstromValidator) => if scale > 0 then TruncDiv(v.priority * ONE_E3, scale) else 0);
    }
  }

  class WeightedRoundRobin {
    var validators: Validators
    var blockNumber: nat
    var lastProposer: Option<Address>

    ghost function W(): map<Address, int> reads this { Powers(validators) }

    ghost function P(): map<Address, int> reads this { Priorities(validators) }

    ghost function Value(): Election reads this { Election(P(), blockNumber, lastProposer) }

    /** A keyed, serviceable validator set. */
    ghost predicate Shape()
      reads this
    {
      Keyed(validators) && State(W(), P()) && Serviceable(W())
    }

    ghost predicate Valid()
      reads this
    {
      && Shape() && Tame(W(), P())
      && (lastProposer.None? ==> P() == Zero(W()))
      && (lastProposer.Some? ==> lastProposer.value in W())
    }

    constructor (vs: seq<AngstromValidator>, startBlock: nat)
      requires forall v :: v in vs ==> IsNew(v)
      requires ValidPowers(Powers(FirstEntries(vs))) && FitsI64(Powers(FirstEntries(vs)))
      ensures Valid() && validators == FirstEntries(vs)
      ensures Value() == Fresh(W(), startBlock)
    {
      hide Tame, ValidPowers;
      var m := Collect(vs);
      NewTotal(m);
      FreshTame(Powers(m));
      validators, blockNumber, lastProposer := m, startBlock, None;
      assert Priorities(m) == Zero(Powers(m));
    }

    method ProposerSelection() returns (leader: Address)
      requires Shape() && Prescaled(W(), P())
      modifies this`validators
      ensures Shape() && W() == old(W())
      ensures leader == Elected(W(), old(P())) && P() == Select(W(), old(P()))
    {
      hide Serviceable, Prescaled, ValidPowers, Select, Elected;
      validators, leader := Elect(validators);
    }

    method CenterPriorities()
      requires Shape() && Tame(W(), P())
      modifies this`validators
      ensures Shape() && W() == old(W()) && P() == Center(old(P()))
    {
      hide Serviceable, Tame, ValidPowers, Center;
      validators := Centered(validators);
    }

    method ScalePriorities()
      requires Shape()
      requires forall a :: a in P() ==> InI64(P()[a] * ONE_E3)
      requires InI64(Spread(P()) * ONE_E3) && InI64(2 * Total(W()))
      modifies this`validators
      ensures Shape() && W() == old(W()) && P() == Scale(W(), old(P()))
    {
      hide Serviceable, ValidPowers, Total, Spread, Scale;
      validators := Rescaled(validators);
    }

    /** No answer for a height below the last one, where the unsigned subtraction underflows. */
    method ChooseProposer(height: nat) returns (answer: Option<Address>)
      requires Valid()
      modifies this
      ensures Valid() && W() == old(W())
      ensures height < old(blockNumber) ==> answer == None && Value() == old(Value())
      ensures old(blockNumber) <= height ==>
                answer.Some? && (Value(), answer.value) == Choose(W(), old(Value()), height)
    {
      hide Serviceable, Tame, ValidPowers, Rounds, RoundLeader, Select, Elected, Zero;
      ghost var w, p := W(), P();
      if height < blockNumber {
        return None;
      }
      if height == blockNumber {
        if lastProposer.None? {
          ZeroPrescaled(w);
          var leader := ProposerSelection();
          lastProposer := Some(leader);
          FirstSelectTame(w);
        }
        return lastProposer;
      }
      var leader := CatchUp(height - blockNumber);
      blockNumber := height;
      answer := Some(leader);
    }

    method CatchUp(rounds: nat) returns (leader: Address)
      requires Valid() && 0 < rounds
      modifies this`validators, this`lastProposer
      ensures Valid() && W() == old(W()) && P() == Rounds(W(), old(P()), rounds)
      ensures leader == RoundLeader(W(), Rounds(W(), old(P()), rounds - 1)) && lastProposer == Some(leader)
    {
      hide Serviceable, Tame, ValidPowers, Round, RoundLeader, Zero, Keyed, Powers, Priorities;
      ghost var w, p := W(), P();
      leader := PlayRound();
      var i := 1;
      while i < rounds
        invariant 1 <= i <= rounds
        invariant Valid() && W() == w && P() == Rounds(w, p, i)
        invariant lastProposer == Some(leader) && leader == RoundLeader(w, Rounds(w, p, i - 1))
      {
        leader := PlayRound();
        i := i + 1;
      }
    }

    /** One iteration of the catch-up loop. */
    method PlayRound() returns (leader: Address)
      requires Valid()
      modifies this`validators, this`lastProposer
      ensures Valid() && W() == old(W()) && P() == Round(W(), old(P()))
      ensures leader == RoundLeader(W(), old(P())) && lastProposer == Some(leader)
    {
      hide Serviceable, Tame, ValidPowers, Total, Spread, Center, Scale, Select, Elected, Prescaled, Zero;
      ghost var w, p := W(), P();
      forall a | a in p
        ensures InI64(Center(p)[a] * ONE_E3) && InI64(Spread(Center(p)) * ONE_E3) && InI64(2 * Total(w))
      {
        CenterInRange(w, p, a);
      }
      assert Top(p) in p;
      CenterPriorities();
      ScalePriorities();
      PreparedFacts(w, p);
      leader := ProposerSelection();
      lastProposer := Some(leader);
      RoundTame(w, p);
    }
  }

  /** `HashSet::from_iter` */
  method Collect(vs: seq<AngstromValidator>) returns (m: Validators)
    ensures m == FirstEntries(vs)
    ensures Keyed(m) && forall a :: a in m ==> m[a] in vs
  {
    m := map[];
    var i := 0;
    while i < |vs|
      invariant 0 <= i <= |vs|
      invariant m == FirstEntries(vs[..i])
      invariant Keyed(m) && forall a :: a in m ==> m[a] in vs
    {
      assert vs[..i + 1][..i] == vs[..i];
      if vs[i].peerId !in m {
        m := m[vs[i].peerId := vs[i]];
      }
      i := i + 1;
    }
    assert vs[..i] == vs;
  }

  lemma TruncInRange(x: int, k: int)
    requires InI64(x) && 0 < k
    ensures InI64(TruncDiv(x, k))
  {
    var y := if 0 <= x then x else -x;
    QuotientBounds(y, k);
    QuotientAtLeast(y, k, 0);
    ScaleUp(y / k, 1, k);
  }

  /** Scaled powers that are not all zero add up to a thousand at least. */
  lemma NewTotal(m: Validators)
    requires ValidPowers(Powers(m)) && forall a :: a in m ==> IsNew(m[a])
    ensures ONE_E3 <= Total(Powers(m))
  {
    var w := Powers(m);
    if a :| a in w && w[a] > 0 {
      assert w[a] == m[a].votingPower / ONE_E3 * ONE_E3;
      PowerAtMostTotal(w, a);
    } else {
      SumZero(w, w.Keys);
    }
  }

  lemma FreshTame(w: map<Address, int>)
    requires Serviceable(w)
    ensures ValidPowers(w) && Tame(w, Zero(w))
  {
    hide Tame, Zero;
    RunsAreTame(w, 0);
  }

  lemma TotalPositive(w: map<Address, int>)
    requires ValidPowers(w)
    ensures 0 < Total(w)
  {
  }

  lemma ZeroPrescaled(w: map<Address, int>)
    requires ValidPowers(w)
    ensures Prescaled(w, Zero(w))
  {
    var p := Zero(w);
    assert Top(w) in w.Keys;
    SumZero(p, p.Keys);
    SpreadAtMost(p, 0);
  }

  lemma FirstSelectTame(w: map<Address, int>)
    requires ValidPowers(w)
    ensures Tame(w, Select(w, Zero(w)))
  {
    hide Tame, Select, Zero;
    FirstSelectIsRound(w);
    RunsAreTame(w, 1);
  }
}
