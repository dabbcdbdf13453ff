/**
 From signed pre-proposals to the proposal that the other nodes check, over every run of the network: what
 a leader hands to its solver, and that whoever checks its proposal recomputes from the same aggregations.
 */
module ConsensusProposals {
  import opened FiniteSums
  import opened Options
  import opened Quorum
  import opened Sequences
  import opened ConsensusRound
  import opened ConsensusNetwork

  /** All pre-proposals signed in this round. */
  ghost function Known(net: Net): set<PreProposal> {
    set n, p | n in net.nodes && p in net.nodes[n].signedPres :: p
  }

  /** An aggregation of enough distinct pre-proposals, each signed by its source. */
  ghost predicate SoundAgg(net: Net, a: Aggregation, quorum: nat) {
    && Distinct(a.preProposals) && |a.preProposals| >= quorum
    && forall p :: p in a.preProposals ==> SignedPre(net, p)
  }

  /** What a node signed as aggregations is sound, and a node that proposes holds enough signed ones. */
  ghost predicate Quorate(net: Net, r: Round, vs: seq<Address>) {
    && r.validators == vs
    && (forall a :: a in r.signedAggs ==> SoundAgg(net, a, TwoThirds(|vs|)))
    && (r.phase.Proposing? ==> |r.phase.held| >= TwoThirds(|vs|) && forall a :: a in r.phase.held ==> SignedAgg(net, a))
  }

  ghost predicate BuiltBy(net: Net, leader: Address, p: Proposal) {
    leader in net.nodes && p in net.nodes[leader].built
  }

  /** A builder goes on proposing; what it built lists what it holds. */
  ghost predicate BuiltFromHeld(r: Round) {
    r.built != [] ==> r.phase.Proposing? && Lists(r.built[0].preproposals, r.phase.held)
  }

  /** Whatever a node follows was built by the leader; only the leader has proposals of its own to send. */
  ghost predicate Follows(net: Net, r: Round, leader: Address) {
    && r.leader == leader && BuiltFromHeld(r)
    && (r.phase.Collecting? && r.phase.accepted.Some? ==> BuiltBy(net, leader, r.phase.accepted.value))
    && (r.phase.Finalizing? ==> BuiltBy(net, leader, r.phase.checked))
    && (r.me == leader ==> forall m :: m in r.messages && m.PropagateProposal? ==> BuiltBy(net, leader, m.proposal))
  }

  /** The leader's packets carry only what it built. */
  ghost predicate FromLeader(net: Net, leader: Address) {
    forall p :: p in net.wire && p.from == leader && p.message.PropagateProposal? ==>
      BuiltBy(net, leader, p.message.proposal)
  }

  ghost predicate ProposalInv(net: Net, vs: seq<Address>, leader: Address) {
    && (forall n :: n in net.nodes ==> Quorate(net, net.nodes[n], vs) && Follows(net, net.nodes[n], leader))
    && FromLeader(net, leader)
  }

  // ----- steps of one node

  lemma StaysSigned(net: Net, n: Address, s: Step)
    requires n in net.nodes
    ensures forall p :: SignedPre(net, p) ==> SignedPre(NodeStep(net, n, s), p)
    ensures forall a :: SignedAgg(net, a) ==> SignedAgg(NodeStep(net, n, s), a)
    ensures forall l, p :: BuiltBy(net, l, p) ==> BuiltBy(NodeStep(net, n, s), l, p)
  {
    hide Apply;
    StepSigns(net.nodes[n], s);
    StepBuilds(net.nodes[n], s);
  }

  lemma StepBuilds(r: Round, s: Step)
    ensures var q := Apply(r, s);
            && q.validators == r.validators && q.leader == r.leader && q.me == r.me
            && (q.built == r.built ||
                (r.phase.Proposing? && r.phase.matching && s.Poll? && s.input.solver.Solved? &&
                 q.built == r.built + [OwnProposal(r, s.input)]))
  {
    hide ValidAggregation, ValidPreProposal, ValidProposal, TwoThirds, SortByPool;
  }

  /** A node starts to propose with the aggregations it collected, and keeps them. */
  lemma StepHolds(r: Round, s: Step)
    ensures var q := Apply(r, s);
            && (r.phase.Proposing? ==> q.phase.Proposing? && q.phase.held == r.phase.held)
            && (!r.phase.Proposing? && q.phase.Proposing? ==>
                  Rank(r.phase) == 2 && q.phase.held == r.phase.aggs && |r.phase.aggs| >= QuorumSize(r))
  {
    hide ValidAggregation, ValidPreProposal, ValidProposal, SortByPool;
  }

  lemma StepQuorate(net: Net, n: Address, s: Step, vs: seq<Address>)
    requires Inv(net) && n in net.nodes && Quorate(net, net.nodes[n], vs) && (s.Poll? ==> Walks(net.nodes[n], s.input))
    ensures Quorate(NodeStep(net, n, s), Apply(net.nodes[n], s), vs)
  {
    hide Apply, QueuedOnce, SignedOnce, OwnSource, TwoThirds, Distinct, SignedPre, SignedAgg;
    var r, net' := net.nodes[n], NodeStep(net, n, s);
    assert NodeInv(net, n);
    CollectedIsSigned(net, n);
    StaysSigned(net, n, s);
    StepSigns(r, s);
    StepBuilds(r, s);
    StepHolds(r, s);
    if SignsAgg(r, s) {
      ListsSize(s.input.pres, r.phase.pres);
    }
  }

  /** The event, if it is a proposal from the leader, was built by the leader. */
  ghost predicate TrueProposal(net: Net, s: Step, leader: Address) {
    s.Receive? && s.event.ProposalReceived? && s.event.from == leader ==> BuiltBy(net, leader, s.event.proposal)
  }

  lemma StepAccepts(r: Round, s: Step)
    ensures var q := Apply(r, s);
            && (q.phase.Collecting? && q.phase.accepted.Some? ==>
                  || (r.phase.Collecting? && r.phase.accepted == q.phase.accepted)
                  || s == Receive(ProposalReceived(r.leader, q.phase.accepted.value)))
            && (q.phase.Finalizing? ==>
                  || (r.phase.Finalizing? && r.phase.checked == q.phase.checked)
                  || (r.phase.Collecting? && r.phase.accepted == Some(q.phase.checked)))
  {
    hide ValidAggregation, ValidPreProposal, ValidProposal, TwoThirds, SortByPool;
  }

  /** A proposal is queued because the leader's arrived or because the node submits its own. */
  lemma StepProposes(r: Round, s: Step)
    requires SignedOnce(r)
    ensures forall m :: m in Apply(r, s).messages && m.PropagateProposal? && m !in r.messages ==>
              s == Receive(ProposalReceived(r.leader, m.proposal)) || m.proposal in Apply(r, s).built
  {
    hide ValidAggregation, ValidPreProposal, ValidProposal, TwoThirds, SortByPool;
    if s.Poll? && r.phase.Proposing? {
      ProposingProposes(r, s.input);
    }
  }

  lemma ProposingProposes(r: Round, i: PollInput)
    requires SignedOnce(r) && r.phase.Proposing?
    ensures forall m :: m in Polled(r, i).messages && m.PropagateProposal? && m !in r.messages ==>
              m.proposal in Polled(r, i).built
  {
    hide SortByPool;
    var b := Build(r, i);
    assert b.phase.submitting && b.phase.own.Some? ==> b.phase.own.value in b.built;
    assert Submit(b, i).built == b.built;
  }

  lemma StepFollows(net: Net, n: Address, s: Step, leader: Address)
    requires Inv(net) && n in net.nodes && Follows(net, net.nodes[n], leader) && TrueProposal(net, s, leader)
    requires s.Poll? ==> Walks(net.nodes[n], s.input)
    ensures Follows(NodeStep(net, n, s), Apply(net.nodes[n], s), leader)
  {
    hide Apply, QueuedOnce, SignedOnce, OwnSource, Lists, AllSigned;
    var r := net.nodes[n];
    assert NodeInv(net, n);
    StaysSigned(net, n, s);
    StepBuilds(r, s);
    StepHolds(r, s);
    StepAccepts(r, s);
    StepProposes(r, s);
    OneBuild(r);
  }

  lemma OneBuild(r: Round)
    requires SignedOnce(r)
    ensures r.phase.Proposing? && r.phase.matching ==> r.built == []
    ensures r.built != [] ==> r.me == r.leader
  {
  }

  lemma NodeStepKeeps(net: Net, n: Address, s: Step, vs: seq<Address>, leader: Address)
    requires Inv(net) && ProposalInv(net, vs, leader) && n in net.nodes && TrueProposal(net, s, leader)
    requires s.Poll? ==> Walks(net.nodes[n], s.input)
    ensures ProposalInv(NodeStep(net, n, s), vs, leader)
  {
    hide Apply, Inv, SignedPre, SignedAgg, BuiltBy, Walks, TwoThirds;
    StaysSigned(net, n, s);
    StepQuorate(net, n, s, vs);
    StepFollows(net, n, s, leader);
  }

  lemma BroadcastKeeps(net: Net, n: Address, vs: seq<Address>, leader: Address)
    requires Inv(net) && ProposalInv(net, vs, leader) && Enabled(net, Broadcast(n))
    ensures ProposalInv(Next(net, Broadcast(n)), vs, leader)
  {
    hide Inv, TwoThirds, Distinct, Lists, SignedPre, SignedAgg, BuiltBy, Quorate, Follows;
    var net', r := Next(net, Broadcast(n)), net.nodes[n];
    SameAround(net, net');
    forall k | k in net'.nodes
      ensures Quorate(net', net'.nodes[k], vs) && Follows(net', net'.nodes[k], leader)
    {
      PopFollows(net, net', net.nodes[k], net'.nodes[k], vs, leader);
    }
    HeadIsBuilt(net, n, leader);
  }

  lemma HeadIsBuilt(net: Net, n: Address, leader: Address)
    requires Inv(net) && n in net.nodes && Follows(net, net.nodes[n], leader) && net.nodes[n].messages != []
    ensures var m := net.nodes[n].messages[0];
            n == leader && m.PropagateProposal? ==> BuiltBy(net, leader, m.proposal)
  {
    hide QueuedOnce, SignedOnce, OwnSource, AllSigned, BuiltFromHeld;
    assert NodeInv(net, n);
  }

  lemma PopFollows(net: Net, net': Net, r: Round, q: Round, vs: seq<Address>, leader: Address)
    requires Quorate(net, r, vs) && Follows(net, r, leader)
    requires q == r || (r.messages != [] && q == r.(messages := r.messages[1..]))
    requires forall p :: SignedPre(net, p) ==> SignedPre(net', p)
    requires forall a :: SignedAgg(net, a) ==> SignedAgg(net', a)
    requires forall l, p :: BuiltBy(net, l, p) ==> BuiltBy(net', l, p)
    ensures Quorate(net', q, vs) && Follows(net', q, leader)
  {
    hide TwoThirds, Distinct, Lists, SignedPre, SignedAgg, BuiltBy;
    assert forall m :: m in q.messages ==> m in r.messages;
  }

  lemma SameAround(net: Net, net': Net)
    requires net.nodes.Keys == net'.nodes.Keys
    requires forall k :: k in net.nodes ==>
               var a, b := net.nodes[k], net'.nodes[k];
               a.signedPres == b.signedPres && a.signedAggs == b.signedAggs && a.built == b.built
    ensures forall p :: SignedPre(net, p) ==> SignedPre(net', p)
    ensures forall a :: SignedAgg(net, a) ==> SignedAgg(net', a)
    ensures forall l, p :: BuiltBy(net, l, p) ==> BuiltBy(net', l, p)
  {
  }

  lemma NextKeeps(net: Net, s: NetStep, vs: seq<Address>, leader: Address)
    requires Inv(net) && ProposalInv(net, vs, leader) && Enabled(net, s)
    ensures ProposalInv(Next(net, s), vs, leader)
  {
    hide Inv, Quorate, Follows, Apply, Walks;
    match s
    case Broadcast(n) => BroadcastKeeps(net, n, vs, leader);
    case Deliver(to, p) => NodeStepKeeps(net, to, Receive(AsEvent(p)), vs, leader);
    case PollNode(n, i) => NodeStepKeeps(net, n, Poll(i), vs, leader);
  }

  lemma {:induction false} ExecKeeps(net: Net, run: seq<NetStep>, vs: seq<Address>, leader: Address)
    requires Inv(net) && ProposalInv(net, vs, leader) && Legal(net, run)
    ensures Inv(Exec(net, run)) && ProposalInv(Exec(net, run), vs, leader)
    decreases run
  {
    hide Inv, ProposalInv, Enabled, Next;
    if run != [] {
      NextKeepsInv(net, run[0]);
      NextKeeps(net, run[0], vs, leader);
      ExecKeeps(Next(net, run[0]), run[1..], vs, leader);
    }
  }

  lemma StartKeeps(vs: seq<Address>, height: nat, leader: Address)
    ensures ProposalInv(Start(vs, height, leader), vs, leader)
  {
  }

  // ----- what the solver gets

  lemma HeldIsQuorum(net: Net, n: Address, vs: seq<Address>)
    requires Inv(net) && (forall k :: k in net.nodes ==> Quorate(net, net.nodes[k], vs))
    requires n in net.nodes && net.nodes[n].phase.Proposing?
    ensures QuorumHeld(net.nodes[n].phase.held, Known(net), |vs|)
  {
    hide Inv, TwoThirds, Members, Known;
    forall a | a in net.nodes[n].phase.held
      ensures Members(a) <= Known(net) && |Members(a)| >= TwoThirds(|vs|)
    {
      assert SoundAgg(net, a, TwoThirds(|vs|)) by { assert Quorate(net, net.nodes[a.source], vs); }
      SoundMembers(net, a, TwoThirds(|vs|));
    }
  }

  lemma SoundMembers(net: Net, a: Aggregation, quorum: nat)
    requires SoundAgg(net, a, quorum)
    ensures Members(a) <= Known(net) && |Members(a)| >= quorum
  {
    forall p | p in a.preProposals
      ensures p in Known(net)
    {
      assert p in net.nodes[p.source].signedPres;
    }
    ListsSize(a.preProposals, Members(a));
  }

  /** In every run: when a node has started to propose, every order that fewer than a quorum of the signed
      pre-proposals omit, limit or searcher, is given to its solver exactly once. */
  lemma SolverTheorem(
    vs: seq<Address>, height: nat, leader: Address, run: seq<NetStep>, n: Address,
    o: StoredOrder, k: Side, kept: seq<StoredOrder>)
    requires Legal(Start(vs, height, leader), run)
    requires var net := Exec(Start(vs, height, leader), run);
             && n in net.nodes && net.nodes[n].phase.Proposing?
             && SolverInput(net.nodes[n].phase.held, |vs|, k, kept)
             && |Omitting(Known(net), o, k)| < TwoThirds(|vs|)
    ensures multiset(kept)[o] == 1
  {
    hide Inv, Legal, Exec, Start, SolverInput, Omitting, Known, TwoThirds, Follows, QuorumHeld;
    StartInv(vs, height, leader);
    StartKeeps(vs, height, leader);
    ExecKeeps(Start(vs, height, leader), run, vs, leader);
    var net := Exec(Start(vs, height, leader), run);
    HeldIsQuorum(net, n, vs);
    OrderReachesSolver(net.nodes[n].phase.held, Known(net), o, k, |vs|, kept);
  }

  /** In every run: a node that checks a proposal checks the one proposal its leader built, and the
      aggregations listed in it are exactly those the leader handed to its own solver, a quorum of sound
      ones. So both solvers are given the same orders. */
  lemma CheckedTheorem(vs: seq<Address>, height: nat, leader: Address, run: seq<NetStep>, n: Address)
    requires Legal(Start(vs, height, leader), run)
    requires var net := Exec(Start(vs, height, leader), run); n in net.nodes && net.nodes[n].phase.Finalizing?
    ensures var net := Exec(Start(vs, height, leader), run);
            && leader in net.nodes && net.nodes[leader].phase.Proposing?
            && net.nodes[leader].built == [net.nodes[n].phase.checked]
            && Lists(net.nodes[n].phase.checked.preproposals, net.nodes[leader].phase.held)
            && QuorumHeld(net.nodes[leader].phase.held, Known(net), |vs|)
  {
    hide Legal, Exec, Start, Known, TwoThirds, QuorumHeld, Lists, QueuedOnce, OwnSource, AllSigned;
    StartInv(vs, height, leader);
    StartKeeps(vs, height, leader);
    ExecKeeps(Start(vs, height, leader), run, vs, leader);
    var net := Exec(Start(vs, height, leader), run);
    assert Follows(net, net.nodes[n], leader) && Follows(net, net.nodes[leader], leader);
    assert NodeInv(net, leader);
    HeldIsQuorum(net, leader, vs);
  }

  // ----- counting the proposals that are forwarded

  function ProposalCount(ms: seq<ConsensusMessage>): nat {
    if ms == [] then 0 else ProposalCount(ms[..|ms| - 1]) + if ms[|ms| - 1].PropagateProposal? then 1 else 0
  }

  lemma {:induction false} CountConcat(a: seq<ConsensusMessage>, b: seq<ConsensusMessage>)
    ensures ProposalCount(a + b) == ProposalCount(a) + ProposalCount(b)
  {
    if b == [] {
      assert a + b == a;
    } else {
      var n := |b| - 1;
      CountConcat(a, b[..n]);
      assert (a + b)[..|a + b| - 1] == a + b[..n];
    }
  }

  /** The leader may still send a proposal of its own. */
  function Left(r: Round): nat {
    if r.me == r.leader && (r.phase.Collecting? || (r.phase.Proposing? && (r.phase.matching || r.phase.submitting)))
    then 1 else 0
  }

  predicate HearsLeader(r: Round, s: Step) {
    r.phase.Collecting? && s.Receive? && s.event.ProposalReceived? && s.event.from == r.leader
  }

  lemma StepCount(r: Round, s: Step)
    requires SignedOnce(r)
    ensures ProposalCount(Apply(r, s).log) + Left(Apply(r, s))
            <= ProposalCount(r.log) + Left(r) + if HearsLeader(r, s) then 1 else 0
  {
    hide ValidAggregation, ValidPreProposal, ValidProposal, TwoThirds, SortByPool, ProposalCount;
    var q := Apply(r, s);
    if s.Poll? && r.phase.Proposing? {
      ProposingCount(r, s.input);
    } else if q.log != r.log {
      CountOneMore(r.log, q.log[|r.log|]);
    }
  }

  lemma ProposingCount(r: Round, i: PollInput)
    requires SignedOnce(r) && r.phase.Proposing?
    ensures ProposalCount(Polled(r, i).log) + Left(Polled(r, i)) <= ProposalCount(r.log) + Left(r)
  {
    hide SortByPool, ProposalCount;
    var b := Build(r, i);
    BuildCount(r, i);
    if b.phase.submitting && i.landed.Some? && i.landed.value && b.phase.own.Some? {
      CountOneMore(b.log, PropagateProposal(b.phase.own.value));
    }
  }

  lemma BuildCount(r: Round, i: PollInput)
    requires r.phase.Proposing?
    ensures ProposalCount(Build(r, i).log) == ProposalCount(r.log) && Left(Build(r, i)) <= Left(r)
    ensures Build(r, i).me == r.me && Build(r, i).leader == r.leader
  {
    hide SortByPool, ProposalCount;
    CountOneMore(r.log, PropagateEmptyBlockAttestation(r.height + 1));
  }

  lemma CountOneMore(ms: seq<ConsensusMessage>, m: ConsensusMessage)
    ensures ProposalCount(ms + [m]) == ProposalCount(ms) + if m.PropagateProposal? then 1 else 0
  {
    assert (ms + [m])[..|ms|] == ms && (ms + [m])[|ms|] == m;
  }

  /** The step brings the leader's proposal to node `n`. */
  predicate BringsProposal(s: NetStep, n: Address, leader: Address) {
    s.Deliver? && s.to == n && s.packet.from == leader && s.packet.message.PropagateProposal?
  }

  function Brought(run: seq<NetStep>, n: Address, leader: Address): nat
    decreases run
  {
    if run == [] then 0 else (if BringsProposal(run[0], n, leader) then 1 else 0) + Brought(run[1..], n, leader)
  }

  lemma NextCount(net: Net, s: NetStep, vs: seq<Address>, leader: Address, n: Address)
    requires Inv(net) && ProposalInv(net, vs, leader) && Enabled(net, s) && n in net.nodes
    ensures n in Next(net, s).nodes
    ensures var r, q := net.nodes[n], Next(net, s).nodes[n];
            ProposalCount(q.log) + Left(q)
            <= ProposalCount(r.log) + Left(r) + if n != leader && BringsProposal(s, n, leader) then 1 else 0
  {
    hide Apply, QueuedOnce, SignedOnce, OwnSource, AllSigned, Quorate, Lists, Walks;
    var r := net.nodes[n];
    assert NodeInv(net, n);
    assert Follows(net, r, leader);
    match s
    case Broadcast(_) =>
    case Deliver(to, p) =>
      StepCount(r, Receive(AsEvent(p)));
    case PollNode(_, i) =>
      StepCount(r, Poll(i));
  }

  lemma {:induction false} RunCount(net: Net, run: seq<NetStep>, vs: seq<Address>, leader: Address, n: Address)
    requires Inv(net) && ProposalInv(net, vs, leader) && Legal(net, run) && n in net.nodes
    ensures n in Exec(net, run).nodes
    ensures ProposalCount(Exec(net, run).nodes[n].log)
            <= ProposalCount(net.nodes[n].log) + Left(net.nodes[n]) + if n != leader then Brought(run, n, leader) else 0
    decreases run
  {
    hide Inv, ProposalInv, Enabled, Next, ProposalCount, Left, BringsProposal;
    if run != [] {
      NextKeepsInv(net, run[0]);
      NextKeeps(net, run[0], vs, leader);
      NextCount(net, run[0], vs, leader, n);
      RunCount(Next(net, run[0]), run[1..], vs, leader, n);
    }
  }

  lemma BuiltStays(net: Net, s: NetStep, leader: Address, p: Proposal)
    requires Enabled(net, s) && BuiltBy(net, leader, p)
    ensures BuiltBy(Next(net, s), leader, p)
  {
    hide Apply, Walks;
    match s
    case Broadcast(n) =>
    case Deliver(to, k) => StaysSigned(net, to, Receive(AsEvent(k)));
    case PollNode(n, i) => StaysSigned(net, n, Poll(i));
  }

  lemma {:induction false} BuiltStaysOn(net: Net, run: seq<NetStep>, leader: Address, p: Proposal)
    requires Legal(net, run) && BuiltBy(net, leader, p)
    ensures BuiltBy(Exec(net, run), leader, p)
    decreases run
  {
    hide Enabled, Next, BuiltBy;
    if run != [] {
      BuiltStays(net, run[0], leader, p);
      BuiltStaysOn(Next(net, run[0]), run[1..], leader, p);
    }
  }

  /** The proposals brought to a node are all the one the leader built, so if no packet is delivered twice
      to the same node, there is one at most. */
  lemma {:induction false} BroughtOnce(
    net: Net, run: seq<NetStep>, vs: seq<Address>, leader: Address, n: Address, p: Proposal)
    requires Inv(net) && ProposalInv(net, vs, leader) && Legal(net, run)
    requires forall x :: BuiltBy(Exec(net, run), leader, x) ==> x == p
    ensures Brought(run, n, leader) == multiset(run)[Deliver(n, Packet(leader, PropagateProposal(p)))]
    decreases run
  {
    hide Inv, Quorate, Follows, Next, BuiltBy, Walks;
    if run != [] {
      var s := run[0];
      NextKeepsInv(net, s);
      NextKeeps(net, s, vs, leader);
      assert run == [s] + run[1..];
      assert Exec(net, run) == Exec(Next(net, s), run[1..]);
      BroughtOnce(Next(net, s), run[1..], vs, leader, n, p);
      if BringsProposal(s, n, leader) {
        BuiltStaysOn(net, run, leader, s.packet.message.proposal);
      }
    }
  }

  ghost predicate DeliversOnce(run: seq<NetStep>) {
    forall s: NetStep :: s.Deliver? ==> multiset(run)[s] <= 1
  }

  /** If no packet reaches the same node twice, each node broadcasts one proposal at most, in any run. */
  lemma ProposalsTheorem(vs: seq<Address>, height: nat, leader: Address, run: seq<NetStep>, n: Address)
    requires Legal(Start(vs, height, leader), run) && DeliversOnce(run) && n in vs
    ensures var net := Exec(Start(vs, height, leader), run);
            n in net.nodes && n in net.sent && ProposalCount(net.sent[n]) <= 1
  {
    hide Legal, Exec, QueuedOnce, OwnSource, AllSigned, Quorate, ProposalCount;
    var start := Start(vs, height, leader);
    StartInv(vs, height, leader);
    StartKeeps(vs, height, leader);
    ExecKeeps(start, run, vs, leader);
    assert n in start.nodes;
    RunCount(start, run, vs, leader, n);
    var net := Exec(start, run);
    assert NodeInv(net, n);
    CountConcat(net.sent[n], net.nodes[n].messages);
    NothingLogged(vs, height, leader, n);
    if n != leader {
      var p := TheProposal(net, leader);
      BroughtOnce(start, run, vs, leader, n, p);
      assert DeliversOnce(run) && Deliver(n, Packet(leader, PropagateProposal(p))).Deliver?;
    }
  }

  lemma NothingLogged(vs: seq<Address>, height: nat, leader: Address, n: Address)
    requires n in vs
    ensures ProposalCount(Start(vs, height, leader).nodes[n].log) == 0
    ensures Left(Start(vs, height, leader).nodes[n]) == if n == leader then 1 else 0
  {
  }

  lemma TheProposal(net: Net, leader: Address) returns (p: Proposal)
    requires Inv(net)
    ensures forall x :: BuiltBy(net, leader, x) ==> x == p
  {
    hide QueuedOnce, OwnSource, AllSigned;
    p := Proposal(0, 0, [], [], false);
    if leader in net.nodes && net.nodes[leader].built != [] {
      assert NodeInv(net, leader);
      p := net.nodes[leader].built[0];
    }
  }

  /** The condition matters: there is no duplicate check for proposals, so a repeated packet is forwarded
      again as long as the node has not moved on. */
  lemma RepeatIsForwardedAgain(r: Round, p: Proposal)
    requires r.phase.Collecting? && Accepts(r, r.leader, p)
    ensures var e := ProposalReceived(r.leader, p);
            ProposalCount(Handled(Handled(r, e), e).log) == ProposalCount(r.log) + 2
  {
    hide ValidProposal, ProposalCount;
    var m := PropagateProposal(p);
    CountOneMore(r.log, m);
    CountOneMore(r.log + [m], m);
  }
}
