/**
 The consensus manager over many blocks: it elects the round leader for every height it sees, resets
 the round, and passes on only the messages for its current height. Across a network that shares the
 validator set and the deploy block, all managers follow the same leader at the same height.
 */
module ConsensusManagers {
  import opened FiniteSums
  import opened Options
  import opened LeaderSelection
  import opened LeaderRuns
  import opened LeaderBounds
  import opened Quorum
  import opened ConsensusRound
  import opened WeightedRoundRobinModel

  /** `builtAt` records, as history, the heights at which this node built a proposal. */
  datatype Manager = Manager(election: Election, height: nat, round: Round, builtAt: set<nat>)

  datatype ManagerStep = BlockSeen(height: nat) | EventSeen(event: ConsensusEvent) | RoundPolled(input: PollInput)

  function EventHeight(e: ConsensusEvent): nat {
    match e
    case PreProposalReceived(_, p) => p.height
    case AggregationReceived(_, a) => a.height
    case ProposalReceived(_, p) => p.height
    case AttestationReceived(_, h) => h
  }

  ghost predicate Ready(w: map<Address, int>, m: Manager) {
    && ValidPowers(w) && State(w, m.election.priorities)
    && (m.election.lastProposer.Some? ==> m.election.lastProposer.value in w)
  }

  ghost predicate Enabled(w: map<Address, int>, m: Manager, s: ManagerStep) {
    && Ready(w, m)
    && (s.BlockSeen? ==> m.election.blockNumber <= s.height)
    && (s.RoundPolled? ==> Walks(m.round, s.input))
  }

  ghost function NewManager(w: map<Address, int>, me: Address, validators: seq<Address>, deploy: nat, current: nat): Manager
    requires ValidPowers(w) && deploy <= current
  {
    var (e, leader) := Choose(w, LeaderRuns.Fresh(w, deploy), current);
    Manager(e, current, ConsensusRound.Fresh(me, validators, current, leader), {})
  }

  /** `on_blockchain_state`, `on_network_event` with its height filter, and polling the round. */
  ghost function Stepped(w: map<Address, int>, m: Manager, s: ManagerStep): Manager
    requires Enabled(w, m, s)
  {
    match s
    case BlockSeen(h) =>
      var (e, leader) := Choose(w, m.election, h);
      Manager(e, h, Reset(m.round, h, leader), m.builtAt)
    case EventSeen(e) =>
      if EventHeight(e) != m.height then m else m.(round := Handled(m.round, e))
    case RoundPolled(i) =>
      var r := Polled(m.round, i);
      m.(round := r, builtAt := if |r.built| > |m.round.built| then m.builtAt + {m.height} else m.builtAt)
  }

  /** Settled on the leader of the current height, and a builder only where it was the leader. */
  ghost predicate Inv(w: map<Address, int>, deploy: nat, m: Manager) {
    && ValidPowers(w) && deploy < m.height
    && m.election == Settled(w, deploy, m.height, 0)
    && m.round.height == m.height && m.round.leader == LeaderAt(w, m.height - deploy)
    && SignedOnce(m.round)
    && forall h :: h in m.builtAt ==> deploy < h && m.round.me == LeaderAt(w, h - deploy)
  }

  lemma NewManagerInv(w: map<Address, int>, me: Address, validators: seq<Address>, deploy: nat, current: nat)
    requires ValidPowers(w) && deploy < current
    ensures Inv(w, deploy, NewManager(w, me, validators, deploy, current))
    ensures NewManager(w, me, validators, deploy, current).round.me == me
    ensures NewManager(w, me, validators, deploy, current).round.validators == validators
  {
    hide ValidPowers, State, Choose, LeaderRuns.Fresh, Settled, LeaderAt, SignedOnce, QueuedOnce;
    FirstChoice(w, deploy, current);
    FreshOnce(me, validators, current, LeaderAt(w, current - deploy));
  }

  lemma FirstChoice(w: map<Address, int>, deploy: nat, current: nat)
    requires ValidPowers(w) && deploy < current
    ensures Choose(w, LeaderRuns.Fresh(w, deploy), current) ==
            (Settled(w, deploy, current, 0), LeaderAt(w, current - deploy))
  {
    hide LeaderSelection.Round, RoundLeader, Zero, Rounds;
  }

  lemma SettledReady(w: map<Address, int>, deploy: nat, m: Manager)
    requires Inv(w, deploy, m)
    ensures Ready(w, m) && m.election.blockNumber == m.height
  {
    hide Rounds, RoundLeader;
  }

  lemma NextChoice(w: map<Address, int>, deploy: nat, m: Manager, h: nat)
    requires Inv(w, deploy, m) && Enabled(w, m, BlockSeen(h))
    ensures m.height <= h
    ensures Choose(w, m.election, h) == (Settled(w, deploy, h, 0), LeaderAt(w, h - deploy))
  {
    hide ValidPowers, State, Choose, LeaderAt, After, SignedOnce;
    SettledReady(w, deploy, m);
    ChooseSettled(w, deploy, m.height, h, 0);
  }

  lemma BlockKeepsInv(w: map<Address, int>, deploy: nat, m: Manager, h: nat)
    requires Inv(w, deploy, m) && Enabled(w, m, BlockSeen(h))
    ensures Inv(w, deploy, Stepped(w, m, BlockSeen(h)))
  {
    hide ValidPowers, State, Choose, Settled, LeaderAt, QueuedOnce, Enabled, ConsensusRound.Fresh;
    NextChoice(w, deploy, m, h);
    FreshOnce(m.round.me, m.round.validators, h, LeaderAt(w, h - deploy));
    ResetOnce(m.round, h, LeaderAt(w, h - deploy));
  }

  lemma ResetOnce(r: Round, h: nat, leader: Address)
    ensures var q := Reset(r, h, leader); SignedOnce(q) && q.me == r.me && q.height == h && q.leader == leader
  {
  }

  lemma RoundKeepsInv(w: map<Address, int>, deploy: nat, m: Manager, s: Step)
    requires Inv(w, deploy, m)
    ensures Inv(w, deploy, m.(round := Apply(m.round, s)))
    ensures Apply(m.round, s).built != [] ==> m.round.me == LeaderAt(w, m.height - deploy)
  {
    hide ValidPowers, Settled, LeaderAt, Apply, Rank;
    StepKeepsSigned(m.round, s);
    SameParties(m.round, s);
  }

  lemma StepKeepsInv(w: map<Address, int>, deploy: nat, m: Manager, s: ManagerStep)
    requires Inv(w, deploy, m) && Enabled(w, m, s)
    ensures Inv(w, deploy, Stepped(w, m, s))
    ensures Stepped(w, m, s).round.me == m.round.me && Stepped(w, m, s).round.validators == m.round.validators
  {
    hide ValidPowers, State, Choose, Settled, LeaderAt, Handled, Polled, SignedOnce;
    match s
    case BlockSeen(h) =>
      BlockKeepsInv(w, deploy, m, h);
    case EventSeen(e) =>
      RoundKeepsInv(w, deploy, m, Receive(e));
      SameParties(m.round, Receive(e));
    case RoundPolled(i) =>
      RoundKeepsInv(w, deploy, m, Poll(i));
      SameParties(m.round, Poll(i));
  }

  ghost predicate Legal(w: map<Address, int>, m: Manager, run: seq<ManagerStep>)
    decreases run
  {
    run != [] ==> Enabled(w, m, run[0]) && Legal(w, Stepped(w, m, run[0]), run[1..])
  }

  ghost function Exec(w: map<Address, int>, m: Manager, run: seq<ManagerStep>): Manager
    requires Legal(w, m, run)
    decreases run
  {
    if run == [] then m else Exec(w, Stepped(w, m, run[0]), run[1..])
  }

  lemma {:induction false} ExecKeepsInv(w: map<Address, int>, deploy: nat, m: Manager, run: seq<ManagerStep>)
    requires Inv(w, deploy, m) && Legal(w, m, run)
    ensures Inv(w, deploy, Exec(w, m, run))
    ensures Exec(w, m, run).round.me == m.round.me && Exec(w, m, run).round.validators == m.round.validators
    decreases run
  {
    hide Inv, Enabled, Stepped;
    if run != [] {
      StepKeepsInv(w, deploy, m, run[0]);
      ExecKeepsInv(w, deploy, Stepped(w, m, run[0]), run[1..]);
    }
  }

  /** A node that built a proposal for a height was the leader of that height. */
  lemma BuilderIsLeader(
    w: map<Address, int>, deploy: nat, me: Address, vs: seq<Address>, current: nat, run: seq<ManagerStep>, h: nat)
    requires ValidPowers(w) && deploy < current
    requires Legal(w, NewManager(w, me, vs, deploy, current), run)
    requires h in Exec(w, NewManager(w, me, vs, deploy, current), run).builtAt
    ensures deploy < h && me == LeaderAt(w, h - deploy)
  {
    hide ValidPowers, State, LeaderAt, Settled, NewManager, SignedOnce, Exec, Legal;
    NewManagerInv(w, me, vs, deploy, current);
    ExecKeepsInv(w, deploy, NewManager(w, me, vs, deploy, current), run);
  }

  /** At most one honest node ever builds a proposal for a given height: two nodes that both did, after
      any histories of blocks, messages and polls, are the same node. */
  lemma OneBuilderPerHeight(
    w: map<Address, int>, deploy: nat,
    a: Address, va: seq<Address>, ca: nat, xs: seq<ManagerStep>,
    b: Address, vb: seq<Address>, cb: nat, ys: seq<ManagerStep>, h: nat)
    requires ValidPowers(w) && deploy < ca && deploy < cb
    requires Legal(w, NewManager(w, a, va, deploy, ca), xs) && Legal(w, NewManager(w, b, vb, deploy, cb), ys)
    requires h in Exec(w, NewManager(w, a, va, deploy, ca), xs).builtAt
    requires h in Exec(w, NewManager(w, b, vb, deploy, cb), ys).builtAt
    ensures a == b
  {
    hide *;
    BuilderIsLeader(w, deploy, a, va, ca, xs, h);
    BuilderIsLeader(w, deploy, b, vb, cb, ys, h);
  }

  lemma StrangerChangesNothing(w: map<Address, int>, deploy: nat, m: Manager, from: Address, p: Proposal)
    requires Inv(w, deploy, m) && from != LeaderAt(w, m.height - deploy)
    ensures Enabled(w, m, EventSeen(ProposalReceived(from, p)))
    ensures Stepped(w, m, EventSeen(ProposalReceived(from, p))) == m
  {
    hide LeaderAt, Settled, SignedOnce, ValidProposal;
    SettledReady(w, deploy, m);
  }

  /** In every reachable state a proposal from anybody but the height's leader changes nothing: it is
      neither accepted nor forwarded. */
  lemma OnlyTheLeaderIsHeard(
    w: map<Address, int>, deploy: nat, me: Address, vs: seq<Address>, current: nat, run: seq<ManagerStep>,
    from: Address, p: Proposal)
    requires ValidPowers(w) && deploy < current
    requires Legal(w, NewManager(w, me, vs, deploy, current), run)
    ensures var m := Exec(w, NewManager(w, me, vs, deploy, current), run);
            && deploy < m.height && m.round.leader == LeaderAt(w, m.height - deploy)
            && Enabled(w, m, EventSeen(ProposalReceived(from, p)))
            && (from != LeaderAt(w, m.height - deploy) ==> Stepped(w, m, EventSeen(ProposalReceived(from, p))) == m)
  {
    hide ValidPowers, State, LeaderAt, Settled, NewManager, SignedOnce, Exec, Legal, Stepped;
    NewManagerInv(w, me, vs, deploy, current);
    ExecKeepsInv(w, deploy, NewManager(w, me, vs, deploy, current), run);
    var m := Exec(w, NewManager(w, me, vs, deploy, current), run);
    SettledReady(w, deploy, m);
    if from != LeaderAt(w, m.height - deploy) {
      StrangerChangesNothing(w, deploy, m, from, p);
    }
  }

  // ----- what a manager hears

  /** An aggregation signed by its source, of two thirds of the validators' pre-proposals or more, each
      signed by its source and of this height. */
  predicate GenuineAggregation(a: Aggregation, height: nat, validators: nat) {
    && a.signed && 3 * |a.preProposals| >= 2 * validators
    && forall p :: p in a.preProposals ==> p.signed && p.height == height
  }

  /** What the node should take: while it collects, from validators, of its own height, signed and not yet
      collected; a proposal from the elected leader only. */
  ghost predicate ShouldTake(w: map<Address, int>, deploy: nat, vs: seq<Address>, m: Manager, e: ConsensusEvent)
    requires ValidPowers(w) && deploy < m.height
  {
    && m.round.phase.Collecting?
    && match e
       case PreProposalReceived(from, p) =>
         && !m.round.phase.stage.Aggregating? && from in vs
         && p.height == m.height && p.signed && p !in m.round.phase.pres
       case AggregationReceived(from, a) =>
         && from in vs && a.height == m.height
         && GenuineAggregation(a, m.height, |vs|) && a !in m.round.phase.aggs
       case ProposalReceived(from, p) =>
         && from == LeaderAt(w, m.height - deploy) && p.height == m.height && p.signed
         && forall a :: a in p.preproposals ==> GenuineAggregation(a, m.height, |vs|)
       case AttestationReceived(_, _) => false
  }

  /** Taking it: queue it for broadcast, and collect or follow it. */
  function Taken(r: Round, e: ConsensusEvent): Round
    requires r.phase.Collecting? && !e.AttestationReceived?
  {
    match e
    case PreProposalReceived(_, p) =>
      r.(messages := r.messages + [PropagatePreProposal(p)], log := r.log + [PropagatePreProposal(p)],
         phase := r.phase.(pres := r.phase.pres + {p}))
    case AggregationReceived(_, a) =>
      r.(messages := r.messages + [PropagateAggregation(a)], log := r.log + [PropagateAggregation(a)],
         phase := r.phase.(aggs := r.phase.aggs + {a}))
    case ProposalReceived(_, p) =>
      r.(messages := r.messages + [PropagateProposal(p)], log := r.log + [PropagateProposal(p)],
         phase := r.phase.(accepted := Some(p)))
  }

  lemma GenuineIsValid(a: Aggregation, height: nat, validators: nat)
    ensures ValidAggregation(a, height, TwoThirds(validators)) <==> GenuineAggregation(a, height, validators)
  {
    hide TwoThirds;
    QuorumIff(|a.preProposals|, validators);
    forall p | p in a.preProposals
      ensures exists i :: 0 <= i < |a.preProposals| && a.preProposals[i] == p
    {
    }
    assert forall i :: 0 <= i < |a.preProposals| ==> a.preProposals[i] in a.preProposals;
  }

  lemma GenuineProposal(p: Proposal, height: nat, validators: nat)
    ensures ValidProposal(p, height, TwoThirds(validators)) <==>
            p.signed && forall a :: a in p.preproposals ==> GenuineAggregation(a, height, validators)
  {
    hide TwoThirds, ValidAggregation, GenuineAggregation;
    forall i | 0 <= i < |p.preproposals|
      ensures p.preproposals[i] in p.preproposals
      ensures ValidAggregation(p.preproposals[i], height, TwoThirds(validators)) <==>
              GenuineAggregation(p.preproposals[i], height, validators)
    {
      GenuineIsValid(p.preproposals[i], height, validators);
    }
  }

  lemma EventIsTaken(w: map<Address, int>, deploy: nat, vs: seq<Address>, m: Manager, e: ConsensusEvent)
    requires Inv(w, deploy, m) && m.round.validators == vs
    ensures Enabled(w, m, EventSeen(e))
    ensures Stepped(w, m, EventSeen(e)) == if ShouldTake(w, deploy, vs, m, e) then m.(round := Taken(m.round, e)) else m
  {
    hide LeaderAt, Settled, SignedOnce, ValidProposal, ValidAggregation, GenuineAggregation, TwoThirds;
    SettledReady(w, deploy, m);
    match e
    case PreProposalReceived(_, _) =>
    case AggregationReceived(_, a) => GenuineIsValid(a, m.height, |vs|);
    case ProposalReceived(_, p) => GenuineProposal(p, m.height, |vs|);
    case AttestationReceived(_, _) =>
  }

  /** In every reachable state: what should be taken is queued and collected or followed, once, and nothing
      else has any effect. */
  lemma HearsExactly(
    w: map<Address, int>, deploy: nat, me: Address, vs: seq<Address>, current: nat, run: seq<ManagerStep>, e: ConsensusEvent)
    requires ValidPowers(w) && deploy < current
    requires Legal(w, NewManager(w, me, vs, deploy, current), run)
    ensures var m := Exec(w, NewManager(w, me, vs, deploy, current), run);
            && deploy < m.height && Enabled(w, m, EventSeen(e))
            && Stepped(w, m, EventSeen(e)) == if ShouldTake(w, deploy, vs, m, e) then m.(round := Taken(m.round, e)) else m
  {
    hide ValidPowers, State, LeaderAt, Settled, SignedOnce, Exec, Legal, Stepped, Enabled, ShouldTake;
    var m := NewManager(w, me, vs, deploy, current);
    NewManagerInv(w, me, vs, deploy, current);
    ExecKeepsInv(w, deploy, m, run);
    EventIsTaken(w, deploy, vs, Exec(w, m, run), e);
  }

  // ----- a manager between two blocks is one round

  /** What the round is given: the events of its height and the polls. */
  function RoundSteps(run: seq<ManagerStep>, height: nat): seq<Step>
    decreases run
  {
    if run == [] then []
    else
      var first := match run[0]
        case BlockSeen(_) => []
        case EventSeen(e) => if EventHeight(e) == height then [Receive(e)] else []
        case RoundPolled(i) => [Poll(i)];
      first + RoundSteps(run[1..], height)
  }

  ghost predicate NoBlocks(run: seq<ManagerStep>) {
    forall i :: 0 <= i < |run| ==> !run[i].BlockSeen?
  }

  /** The round with messages of earlier rounds still ahead of its own. */
  function Behind(earlier: seq<ConsensusMessage>, r: Round): Round {
    r.(messages := earlier + r.messages)
  }

  lemma ApplyBehind(earlier: seq<ConsensusMessage>, r: Round, s: Step)
    ensures Apply(Behind(earlier, r), s) == Behind(earlier, Apply(r, s))
  {
    hide ValidAggregation, ValidPreProposal, ValidProposal, TwoThirds, SortByPool;
    if s.Poll? && r.phase.Proposing? {
      ProposingBehind(earlier, r, s.input);
    } else {
      var q := Apply(r, s);
      assert q.messages == r.messages || q.messages == r.messages + [q.messages[|r.messages|]];
      assert forall m :: earlier + (r.messages + [m]) == earlier + r.messages + [m];
    }
  }

  lemma ProposingBehind(earlier: seq<ConsensusMessage>, r: Round, i: PollInput)
    requires r.phase.Proposing?
    ensures Polled(Behind(earlier, r), i) == Behind(earlier, Polled(r, i))
  {
    hide SortByPool;
    var b := Build(r, i);
    assert forall m :: earlier + (r.messages + [m]) == earlier + r.messages + [m];
    assert Build(Behind(earlier, r), i) == Behind(earlier, b);
    assert forall m :: earlier + (b.messages + [m]) == earlier + b.messages + [m];
  }

  /** Manager `k` is what became of `m` when its round, apart from earlier messages, went from `a` to `b`. */
  ghost predicate Followed(m: Manager, earlier: seq<ConsensusMessage>, a: Round, k: Manager, b: Round) {
    && m.round == Behind(earlier, a) && k.round == Behind(earlier, b)
    && k.election == m.election && k.height == m.height
    && k.builtAt == m.builtAt + if |b.built| > |a.built| then {m.height} else {}
  }

  lemma {:induction false} ManagerFollows(
    w: map<Address, int>, m: Manager, run: seq<ManagerStep>, earlier: seq<ConsensusMessage>, a: Round)
    requires Legal(w, m, run) && NoBlocks(run) && m.round == Behind(earlier, a) && SignedOnce(a)
    ensures Followed(m, earlier, a, Exec(w, m, run), ApplyAll(a, RoundSteps(run, m.height)))
    decreases run
  {
    hide Apply, SignedOnce, Enabled;
    if run != [] {
      var s := run[0];
      assert NoBlocks(run[1..]);
      if s.EventSeen? && EventHeight(s.event) != m.height {
        assert RoundSteps(run, m.height) == RoundSteps(run[1..], m.height);
        ManagerFollows(w, m, run[1..], earlier, a);
      } else {
        var t := if s.EventSeen? then Receive(s.event) else Poll(s.input);
        FollowOne(w, m, s, t, earlier, a);
        var rest := RoundSteps(run[1..], m.height);
        assert RoundSteps(run, m.height) == [t] + rest && ([t] + rest)[1..] == rest;
        ManagerFollows(w, Stepped(w, m, s), run[1..], earlier, Apply(a, t));
        RunKeepsSigned(Apply(a, t), rest);
        RunKeepsSigned(a, [t]);
        assert ApplyAll(a, [t]) == Apply(a, t) by { assert [t][1..] == []; }
      }
    }
  }

  lemma FollowOne(
    w: map<Address, int>, m: Manager, s: ManagerStep, t: Step, earlier: seq<ConsensusMessage>, a: Round)
    requires Enabled(w, m, s) && m.round == Behind(earlier, a) && SignedOnce(a)
    requires (s.EventSeen? && EventHeight(s.event) == m.height && t == Receive(s.event)) || (s.RoundPolled? && t == Poll(s.input))
    ensures Followed(m, earlier, a, Stepped(w, m, s), Apply(a, t)) && SignedOnce(Apply(a, t))
  {
    hide Handled, Polled, SignedOnce, Rank;
    ApplyBehind(earlier, a, t);
    StepKeepsSigned(a, t);
    if s.EventSeen? {
      HearingBuildsNothing(a, s.event);
    }
  }

  lemma HearingBuildsNothing(r: Round, e: ConsensusEvent)
    ensures Handled(r, e).built == r.built
  {
    hide ValidAggregation, ValidPreProposal, ValidProposal, TwoThirds;
  }

  lemma TipStartsRound(w: map<Address, int>, deploy: nat, m: Manager, h: nat)
    requires Inv(w, deploy, m) && Enabled(w, m, BlockSeen(h))
    ensures deploy < h
    ensures var k := Stepped(w, m, BlockSeen(h));
            && k.height == h && k.builtAt == m.builtAt
            && k.round == Behind(m.round.messages,
                                 ConsensusRound.Fresh(m.round.me, m.round.validators, h, LeaderAt(w, h - deploy)))
  {
    hide ValidPowers, State, Choose, LeaderAt, Settled, SignedOnce, Enabled;
    NextChoice(w, deploy, m, h);
  }

  /** From one new tip to the next, after any history, the manager runs exactly one round for that height and
      its elected leader, on exactly the events of that height and the polls, behind whatever was still
      queued; and it counts as a builder of the height if and only if that round built a proposal. So what
      is proved about rounds holds at every height. */
  lemma OneRoundPerBlock(
    w: map<Address, int>, deploy: nat, me: Address, vs: seq<Address>, current: nat,
    before: seq<ManagerStep>, h: nat, run: seq<ManagerStep>)
    requires ValidPowers(w) && deploy < current && Legal(w, NewManager(w, me, vs, deploy, current), before)
    requires var m := Exec(w, NewManager(w, me, vs, deploy, current), before);
             Enabled(w, m, BlockSeen(h)) && Legal(w, Stepped(w, m, BlockSeen(h)), run) && NoBlocks(run)
    ensures var m := Exec(w, NewManager(w, me, vs, deploy, current), before);
            var k := Exec(w, Stepped(w, m, BlockSeen(h)), run);
            && deploy < h && k.height == h
            && var r := ApplyAll(ConsensusRound.Fresh(me, vs, h, LeaderAt(w, h - deploy)), RoundSteps(run, h));
               && k.round == Behind(m.round.messages, r)
               && k.builtAt == m.builtAt + if r.built != [] then {h} else {}
  {
    hide ValidPowers, State, LeaderAt, SignedOnce, QueuedOnce, Exec, Legal, Enabled, ApplyAll, Stepped, Inv, NewManager, RoundSteps;
    var m0 := NewManager(w, me, vs, deploy, current);
    NewManagerInv(w, me, vs, deploy, current);
    ExecKeepsInv(w, deploy, m0, before);
    var m := Exec(w, m0, before);
    TipStartsRound(w, deploy, m, h);
    var blank := ConsensusRound.Fresh(me, vs, h, LeaderAt(w, h - deploy));
    FreshOnce(me, vs, h, LeaderAt(w, h - deploy));
    ManagerFollows(w, Stepped(w, m, BlockSeen(h)), run, m.round.messages, blank);
  }

  class ConsensusManager {
    const leaderSelection: WeightedRoundRobin
    const round: RoundStateMachine
    var currentHeight: nat
    ghost var builtAt: set<nat>

    ghost function Value(): Manager
      reads this, leaderSelection, round
    {
      Manager(leaderSelection.Value(), currentHeight, round.Value(), builtAt)
    }

    ghost predicate Valid()
      reads this, leaderSelection
    {
      leaderSelection.Valid() && leaderSelection.blockNumber == currentHeight
    }

    constructor (me: Address, vs: seq<AngstromValidator>, deploy: nat, current: nat)
      requires forall v :: v in vs ==> IsNew(v)
      requires ValidPowers(Powers(FirstEntries(vs))) && FitsI64(Powers(FirstEntries(vs))) && deploy <= current
      ensures Valid() && fresh(leaderSelection) && fresh(round)
      ensures leaderSelection.W() == Powers(FirstEntries(vs))
      ensures Value() == NewManager(leaderSelection.W(), me, Names(vs), deploy, current)
    {
      hide State, Choose, Serviceable, Powers, FirstEntries;
      var selection := new WeightedRoundRobin(vs, deploy);
      var leader := selection.ChooseProposer(current);
      var machine := new RoundStateMachine(me, Names(vs), current, leader.value);
      leaderSelection, round, currentHeight, builtAt := selection, machine, current, {};
    }

    /** `on_blockchain_state`; without a leader, for a tip below the last one, it panics. */
    method OnBlockchainState(tip: nat) returns (panicked: bool)
      requires Valid()
      modifies this, leaderSelection, round
      ensures panicked == (tip < old(currentHeight)) && leaderSelection.W() == old(leaderSelection.W())
      ensures panicked ==> Value() == old(Value()).(height := tip)
      ensures !panicked ==> Valid() && Value() == Stepped(leaderSelection.W(), old(Value()), BlockSeen(tip))
    {
      hide Choose, Tame, Powers, Priorities, Zero;
      currentHeight := tip;
      var leader := leaderSelection.ChooseProposer(tip);
      if leader.None? {
        return true;
      }
      round.ResetRound(tip, leader.value);
      panicked := false;
    }

    method OnNetworkEvent(e: ConsensusEvent)
      requires Valid()
      modifies round
      ensures Valid() && Value() == Stepped(leaderSelection.W(), old(Value()), EventSeen(e))
    {
      hide Choose, Tame, Powers, Priorities, Zero, Handled;
      if currentHeight == EventHeight(e) {
        round.HandleMessage(e);
      }
    }

    method PollRound(i: PollInput) returns (ghost j: PollInput)
      requires Valid()
      modifies this`builtAt, round
      ensures Valid() && j == i.(pres := j.pres, aggs := j.aggs)
      ensures Enabled(leaderSelection.W(), old(Value()), RoundPolled(j))
      ensures Value() == Stepped(leaderSelection.W(), old(Value()), RoundPolled(j))
    {
      hide Choose, Tame, Powers, Priorities, Zero, Polled, Walks;
      j := round.PollTransition(i);
      builtAt := if |round.built| > |old(round.built)| then builtAt + {currentHeight} else builtAt;
    }
  }

  function Names(vs: seq<AngstromValidator>): seq<Address> {
    seq(|vs|, i requires 0 <= i < |vs| => vs[i].peerId)
  }
}
