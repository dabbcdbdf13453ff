/**
 n nodes running the same round and flooding their messages. The network may delay, reorder,
 duplicate and lose packets; a node signs what it builds itself, with its own key.
 */
module ConsensusNetwork {
  import opened FiniteSums
  import opened Options
  import opened Quorum
  import opened Sequences
  import opened ConsensusRound

  datatype Packet = Packet(from: Address, message: ConsensusMessage)

  /** `wire` is everything ever broadcast, `sent` the same per node and in order. */
  datatype Net = Net(nodes: map<Address, Round>, wire: set<Packet>, sent: map<Address, seq<ConsensusMessage>>)

  datatype NetStep =
    | Broadcast(node: Address)
    | Deliver(to: Address, packet: Packet)
    | PollNode(at: Address, input: PollInput)

  function AsEvent(p: Packet): ConsensusEvent {
    match p.message
    case PropagatePreProposal(pre) => PreProposalReceived(p.from, pre)
    case PropagateAggregation(agg) => AggregationReceived(p.from, agg)
    case PropagateProposal(proposal) => ProposalReceived(p.from, proposal)
    case PropagateEmptyBlockAttestation(target) => AttestationReceived(p.from, target)
  }

  ghost predicate Enabled(net: Net, s: NetStep) {
    match s
    case Broadcast(n) => n in net.nodes && n in net.sent && net.nodes[n].messages != []
    case Deliver(to, p) => to in net.nodes && p in net.wire
    case PollNode(n, i) => n in net.nodes && Walks(net.nodes[n], i)
  }

  function NodeStep(net: Net, n: Address, s: Step): Net
    requires n in net.nodes
  {
    net.(nodes := net.nodes[n := Apply(net.nodes[n], s)])
  }

  ghost function Next(net: Net, s: NetStep): Net
    requires Enabled(net, s)
  {
    match s
    case Broadcast(n) =>
      var r := net.nodes[n];
      var m := r.messages[0];
      Net(net.nodes[n := r.(messages := r.messages[1..])], net.wire + {Packet(n, m)}, net.sent[n := net.sent[n] + [m]])
    case Deliver(to, p) => NodeStep(net, to, Receive(AsEvent(p)))
    case PollNode(n, i) => NodeStep(net, n, Poll(i))
  }

  ghost predicate SignedPre(net: Net, p: PreProposal) {
    p.source in net.nodes && p in net.nodes[p.source].signedPres
  }

  ghost predicate SignedAgg(net: Net, a: Aggregation) {
    a.source in net.nodes && a in net.nodes[a.source].signedAggs
  }

  ghost predicate Signed(net: Net, m: ConsensusMessage) {
    (m.PropagatePreProposal? ==> SignedPre(net, m.pre)) && (m.PropagateAggregation? ==> SignedAgg(net, m.agg))
  }

  ghost predicate AllSigned(net: Net, ms: seq<ConsensusMessage>) {
    forall i :: 0 <= i < |ms| ==> Signed(net, ms[i])
  }

  /** Everything in a node's own signature lists carries the node as source. */
  ghost predicate OwnSource(r: Round) {
    (forall p :: p in r.signedPres ==> p.source == r.me) && forall a :: a in r.signedAggs ==> a.source == r.me
  }

  ghost predicate NodeInv(net: Net, n: Address)
    requires n in net.nodes
  {
    var r := net.nodes[n];
    && r.me == n && QueuedOnce(r) && SignedOnce(r) && OwnSource(r) && AllSigned(net, r.log)
    && n in net.sent && net.sent[n] + r.messages == r.log
  }

  /** Every pre-proposal and aggregation around was signed by its source. */
  ghost predicate Inv(net: Net) {
    && (forall n :: n in net.nodes ==> NodeInv(net, n))
    && forall p :: p in net.wire ==> Signed(net, p.message)
  }

  /** Where a newly queued message comes from: it was just received, or just signed. */
  predicate Origin(q: Round, s: Step, m: ConsensusMessage) {
    && (m.PropagatePreProposal? ==> m.pre in q.signedPres || s == Receive(PreProposalReceived(SenderOf(s), m.pre)))
    && (m.PropagateAggregation? ==> m.agg in q.signedAggs || s == Receive(AggregationReceived(SenderOf(s), m.agg)))
  }

  function SenderOf(s: Step): Address {
    if s.Receive? then s.event.from else 0
  }

  lemma StepQueues(r: Round, s: Step) returns (added: seq<ConsensusMessage>)
    ensures var q := Apply(r, s);
            && q.me == r.me && q.log == r.log + added && q.messages == r.messages + added
            && forall i :: 0 <= i < |added| ==> Origin(q, s, added[i])
  {
    hide ValidAggregation, ValidPreProposal, ValidProposal, TwoThirds;
    var q := Apply(r, s);
    match s
    case Receive(e) =>
      added := if q == r then [] else [q.log[|r.log|]];
    case Poll(i) =>
      added := BuildQueues(r, i);
  }

  lemma BuildQueues(r: Round, i: PollInput) returns (added: seq<ConsensusMessage>)
    ensures var q := Polled(r, i);
            && q.me == r.me && q.log == r.log + added && q.messages == r.messages + added
            && forall k :: 0 <= k < |added| ==> Origin(q, Poll(i), added[k])
  {
    hide TwoThirds;
    if r.phase.Proposing? {
      hide Polled;
      added := ProposingQueues(r, i);
    } else {
      var q := Polled(r, i);
      added := if q.log == r.log then [] else [q.log[|r.log|]];
    }
  }

  lemma ProposingQueues(r: Round, i: PollInput) returns (added: seq<ConsensusMessage>)
    requires r.phase.Proposing?
    ensures var q := Polled(r, i);
            && q.me == r.me && q.log == r.log + added && q.messages == r.messages + added
            && forall k :: 0 <= k < |added| ==> !Floods(added[k])
  {
    var b := Build(r, i);
    var q := Submit(b, i);
    var x := if b.log == r.log then [] else [PropagateEmptyBlockAttestation(r.height + 1)];
    var y := if q.log == b.log then [] else [q.log[|b.log|]];
    assert b.log == r.log + x && b.messages == r.messages + x;
    assert q.log == b.log + y && q.messages == b.messages + y;
    added := x + y;
  }

  lemma StepSigns(r: Round, s: Step)
    ensures var q := Apply(r, s);
            && (q.signedPres == r.signedPres || (SignsPre(r, s) && q.signedPres == r.signedPres + [OwnPre(r, s.input)]))
            && (q.signedAggs == r.signedAggs || (SignsAgg(r, s) && q.signedAggs == r.signedAggs + [OwnAgg(r, s.input)]))
  {
    hide ValidAggregation, ValidPreProposal, ValidProposal, TwoThirds;
  }

  /** What a node has collected was signed by its source. */
  lemma CollectedIsSigned(net: Net, n: Address)
    requires n in net.nodes && NodeInv(net, n)
    ensures var r := net.nodes[n];
            && (Rank(r.phase) <= 1 ==> forall p :: p in r.phase.pres ==> SignedPre(net, p))
            && (Rank(r.phase) <= 2 ==> forall a :: a in r.phase.aggs ==> SignedAgg(net, a))
  {
    var r := net.nodes[n];
    if Rank(r.phase) <= 1 {
      forall p | p in r.phase.pres
        ensures SignedPre(net, p)
      {
        InLog(net, r, PropagatePreProposal(p));
      }
    }
    if Rank(r.phase) <= 2 {
      forall a | a in r.phase.aggs
        ensures SignedAgg(net, a)
      {
        InLog(net, r, PropagateAggregation(a));
      }
    }
  }

  lemma InLog(net: Net, r: Round, m: ConsensusMessage)
    requires AllSigned(net, r.log) && 0 < multiset(r.log)[m]
    ensures Signed(net, m)
  {
    assert m in r.log;
  }

  /** Among honest nodes nobody can echo a message before its signer produced it. */
  lemma OwnIsUnseen(net: Net, n: Address, s: Step)
    requires Inv(net) && n in net.nodes
    ensures OwnUnseen(net.nodes[n], s)
  {
    hide QueuedOnce, AllSigned;
    assert NodeInv(net, n);
    CollectedIsSigned(net, n);
  }

  lemma SignedStays(net: Net, n: Address, s: Step, m: ConsensusMessage)
    requires n in net.nodes && Signed(net, m)
    ensures Signed(NodeStep(net, n, s), m)
  {
    hide Apply;
    StepSigns(net.nodes[n], s);
  }

  /** What the step hands to the node is signed. */
  ghost predicate Genuine(net: Net, s: Step) {
    match s
    case Poll(i) => true
    case Receive(PreProposalReceived(_, p)) => SignedPre(net, p)
    case Receive(AggregationReceived(_, a)) => SignedAgg(net, a)
    case _ => true
  }

  lemma StepOwnSource(r: Round, s: Step)
    requires OwnSource(r)
    ensures OwnSource(Apply(r, s)) && Apply(r, s).me == r.me
  {
    hide Apply;
    StepSigns(r, s);
    var added := StepQueues(r, s);
  }

  lemma AddedIsSigned(net: Net, n: Address, s: Step, m: ConsensusMessage)
    requires Inv(net) && n in net.nodes && Genuine(net, s) && Origin(Apply(net.nodes[n], s), s, m)
    ensures Signed(NodeStep(net, n, s), m)
  {
    hide Apply, SignsPre, SignsAgg, QueuedOnce, SignedOnce;
    assert NodeInv(net, n);
    StepOwnSource(net.nodes[n], s);
    SignedStays(net, n, s, PropagateEmptyBlockAttestation(0));
    StepSigns(net.nodes[n], s);
  }

  lemma StepperKeeps(net: Net, n: Address, s: Step)
    requires Inv(net) && n in net.nodes && Genuine(net, s)
    ensures NodeInv(NodeStep(net, n, s), n)
  {
    hide Apply, QueuedOnce, SignedOnce, OwnSource, Origin, Signed;
    var r, net' := net.nodes[n], NodeStep(net, n, s);
    assert NodeInv(net, n);
    OwnIsUnseen(net, n, s);
    StepKeepsQueued(r, s);
    StepKeepsSigned(r, s);
    StepOwnSource(r, s);
    var added := StepQueues(r, s);
    var q := Apply(r, s);
    forall i | 0 <= i < |q.log|
      ensures Signed(net', q.log[i])
    {
      if i < |r.log| {
        SignedStays(net, n, s, r.log[i]);
      } else {
        AddedIsSigned(net, n, s, added[i - |r.log|]);
      }
    }
  }

  lemma NodeStepKeepsInv(net: Net, n: Address, s: Step)
    requires Inv(net) && n in net.nodes && Genuine(net, s)
    ensures Inv(NodeStep(net, n, s))
  {
    hide Apply, QueuedOnce, SignedOnce, OwnSource, Origin, Signed;
    var net' := NodeStep(net, n, s);
    forall k | k in net'.nodes
      ensures NodeInv(net', k)
    {
      assert NodeInv(net, k);
      if k == n {
        StepperKeeps(net, n, s);
      } else {
        forall i | 0 <= i < |net.nodes[k].log|
          ensures Signed(net', net.nodes[k].log[i])
        {
          SignedStays(net, n, s, net.nodes[k].log[i]);
        }
      }
    }
    forall p | p in net'.wire
      ensures Signed(net', p.message)
    {
      SignedStays(net, n, s, p.message);
    }
  }

  lemma BroadcastKeepsInv(net: Net, n: Address)
    requires Inv(net) && Enabled(net, Broadcast(n))
    ensures Inv(Next(net, Broadcast(n)))
  {
    hide QueuedOnce, SignedOnce, OwnSource, Signed;
    var net' := Next(net, Broadcast(n));
    var r := net.nodes[n];
    assert NodeInv(net, n);
    assert r.log[|net.sent[n]|] == r.messages[0];
    SameSigned(net, net');
    PopKeeps(r);
    forall k | k in net'.nodes
      ensures NodeInv(net', k)
    {
      assert NodeInv(net, k);
    }
  }

  lemma PopKeeps(r: Round)
    requires QueuedOnce(r) && SignedOnce(r) && OwnSource(r) && r.messages != []
    ensures var q := r.(messages := r.messages[1..]); QueuedOnce(q) && SignedOnce(q) && OwnSource(q)
  {
    SameLog(r, r.(messages := r.messages[1..]));
  }

  lemma SameSigned(net: Net, net': Net)
    requires net.nodes.Keys == net'.nodes.Keys
    requires forall k :: k in net.nodes ==>
               net.nodes[k].signedPres == net'.nodes[k].signedPres && net.nodes[k].signedAggs == net'.nodes[k].signedAggs
    ensures forall m :: Signed(net, m) ==> Signed(net', m)
  {
  }

  lemma NextKeepsInv(net: Net, s: NetStep)
    requires Inv(net) && Enabled(net, s)
    ensures Inv(Next(net, s)) && Next(net, s).nodes.Keys == net.nodes.Keys
  {
    hide NodeInv, Apply;
    match s
    case Broadcast(n) => BroadcastKeepsInv(net, n);
    case Deliver(to, p) => NodeStepKeepsInv(net, to, Receive(AsEvent(p)));
    case PollNode(n, i) => NodeStepKeepsInv(net, n, Poll(i));
  }

  // ----- runs

  ghost predicate Legal(net: Net, run: seq<NetStep>)
    decreases run
  {
    run != [] ==> Enabled(net, run[0]) && Legal(Next(net, run[0]), run[1..])
  }

  ghost function Exec(net: Net, run: seq<NetStep>): Net
    requires Legal(net, run)
    decreases run
  {
    if run == [] then net else Exec(Next(net, run[0]), run[1..])
  }

  /** All validators start the round for the same height and leader. */
  function Start(validators: seq<Address>, height: nat, leader: Address): Net {
    Net(map n | n in validators :: Fresh(n, validators, height, leader), {}, map n | n in validators :: [])
  }

  lemma {:induction false} ExecKeepsInv(net: Net, run: seq<NetStep>)
    requires Inv(net) && Legal(net, run)
    ensures Inv(Exec(net, run)) && Exec(net, run).nodes.Keys == net.nodes.Keys
    decreases run
  {
    hide Inv, Enabled, Next;
    if run != [] {
      NextKeepsInv(net, run[0]);
      ExecKeepsInv(Next(net, run[0]), run[1..]);
    }
  }

  // ----- counting broadcasts

  predicate Floods(m: ConsensusMessage) {
    m.PropagatePreProposal? || m.PropagateAggregation?
  }

  /** How many pre-proposals and aggregations a list of messages contains. */
  function FloodCount(ms: seq<ConsensusMessage>): nat {
    if ms == [] then 0 else FloodCount(ms[..|ms| - 1]) + if Floods(ms[|ms| - 1]) then 1 else 0
  }

  ghost function Flooded(ms: seq<ConsensusMessage>): set<ConsensusMessage> {
    set i | 0 <= i < |ms| && Floods(ms[i]) :: ms[i]
  }

  lemma FloodedGrows(init: seq<ConsensusMessage>, last: ConsensusMessage)
    ensures Flooded(init + [last]) == Flooded(init) + if Floods(last) then {last} else {}
  {
    var ms := init + [last];
    assert forall i :: 0 <= i < |init| ==> ms[i] == init[i];
    assert ms[|init|] == last;
  }

  lemma {:induction false} CountFlooded(ms: seq<ConsensusMessage>)
    requires forall m :: Floods(m) ==> multiset(ms)[m] <= 1
    ensures FloodCount(ms) == |Flooded(ms)|
  {
    hide Floods, Flooded;
    if ms == [] {
      assert Flooded([]) == {} by { FloodedEmpty(); }
    } else {
      var n := |ms| - 1;
      var init, last := ms[..n], ms[n];
      assert ms == init + [last];
      assert multiset(ms) == multiset(init) + multiset{last};
      CountFlooded(init);
      FloodedGrows(init, last);
      FloodedInside(init, last);
    }
  }

  lemma FloodedEmpty()
    ensures Flooded([]) == {}
  {
  }

  lemma FloodedInside(ms: seq<ConsensusMessage>, m: ConsensusMessage)
    ensures m in Flooded(ms) ==> multiset(ms)[m] >= 1
  {
    if m in Flooded(ms) {
      assert m in ms;
    }
  }

  /** The node that signed the message. */
  function Signer(m: ConsensusMessage): Address {
    match m
    case PropagatePreProposal(p) => p.source
    case PropagateAggregation(a) => a.source
    case _ => 0
  }

  /** Messages of one kind are as many as their signers at most, since each signs one. */
  lemma {:induction false} OnePerSigner(ms: set<ConsensusMessage>, nodes: set<Address>)
    requires forall m :: m in ms ==> Signer(m) in nodes
    requires forall m, m' :: m in ms && m' in ms && Signer(m) == Signer(m') ==> m == m'
    ensures |ms| <= |nodes|
    decreases ms
  {
    if ms != {} {
      var m :| m in ms;
      OnePerSigner(ms - {m}, nodes - {Signer(m)});
    }
  }

  lemma SignedOncePerKind(net: Net, m: ConsensusMessage, m': ConsensusMessage)
    requires Inv(net) && Signed(net, m) && Signed(net, m') && Signer(m) == Signer(m')
    requires (m.PropagatePreProposal? && m'.PropagatePreProposal?) || (m.PropagateAggregation? && m'.PropagateAggregation?)
    ensures m == m'
  {
    hide QueuedOnce;
    assert NodeInv(net, Signer(m));
  }

  /** A node's whole log holds at most 2n pre-proposals and aggregations. */
  lemma LogIsBounded(net: Net, n: Address)
    requires Inv(net) && n in net.nodes
    ensures FloodCount(net.nodes[n].log) <= 2 * |net.nodes|
  {
    hide SignedOnce, OwnSource, Signed;
    var r := net.nodes[n];
    assert NodeInv(net, n);
    FloodsOnce(r);
    CountFlooded(r.log);
    var all := Flooded(r.log);
    var pres, aggs := set m | m in all && m.PropagatePreProposal?, set m | m in all && m.PropagateAggregation?;
    assert all == pres + aggs && pres !! aggs;
    KindIsBounded(net, pres);
    KindIsBounded(net, aggs);
    assert |net.nodes| == |net.nodes.Keys|;
  }

  lemma FloodsOnce(r: Round)
    requires QueuedOnce(r)
    ensures forall m :: Floods(m) ==> multiset(r.log)[m] <= 1
  {
    forall m | Floods(m)
      ensures multiset(r.log)[m] <= 1
    {
      match m
      case PropagatePreProposal(p) => assert PreCount(r, p) <= 1;
      case PropagateAggregation(a) => assert AggCount(r, a) <= 1;
      case _ =>
    }
  }

  lemma KindIsBounded(net: Net, ms: set<ConsensusMessage>)
    requires Inv(net) && forall m :: m in ms ==> Signed(net, m)
    requires (forall m :: m in ms ==> m.PropagatePreProposal?) || forall m :: m in ms ==> m.PropagateAggregation?
    ensures |ms| <= |net.nodes.Keys|
  {
    hide Inv;
    forall m, m' | m in ms && m' in ms && Signer(m) == Signer(m')
      ensures m == m'
    {
      SignedOncePerKind(net, m, m');
    }
    OnePerSigner(ms, net.nodes.Keys);
  }

  ghost function Floodings(net: Net): map<Address, int> {
    map n | n in net.sent :: FloodCount(net.sent[n])
  }

  lemma {:induction false} FloodCountPrefix(a: seq<ConsensusMessage>, b: seq<ConsensusMessage>)
    ensures FloodCount(a) <= FloodCount(a + b)
  {
    if b == [] {
      assert a + b == a;
    } else {
      var n := |b| - 1;
      FloodCountPrefix(a, b[..n]);
      assert (a + b)[..|a + b| - 1] == a + b[..n];
    }
  }

  lemma StartInv(validators: seq<Address>, height: nat, leader: Address)
    ensures Inv(Start(validators, height, leader))
  {
    hide QueuedOnce, SignedOnce;
    var net := Start(validators, height, leader);
    forall n | n in net.nodes
      ensures NodeInv(net, n)
    {
      FreshOnce(n, validators, height, leader);
    }
  }

  lemma TotalIsBounded(net: Net)
    requires Inv(net)
    ensures net.nodes.Keys <= net.sent.Keys
    ensures Sum(Floodings(net), net.nodes.Keys) <= 2 * |net.nodes| * |net.nodes|
  {
    hide Inv, FloodCount, Sum;
    forall a | a in net.nodes
      ensures a in net.sent && FloodCount(net.sent[a]) <= 2 * |net.nodes|
    {
      SentIsBounded(net, a);
    }
    SumAtMost(Floodings(net), net.nodes.Keys, 2 * |net.nodes|);
    assert |net.nodes.Keys| == |net.nodes|;
  }

  /** Flooding stops: in every run of n nodes, over any network, each node broadcasts at most 2n
      pre-proposals and aggregations, so there are at most 2n*n such broadcasts altogether. */
  lemma FloodingTheorem(validators: seq<Address>, height: nat, leader: Address, run: seq<NetStep>)
    requires Legal(Start(validators, height, leader), run)
    ensures var net := Exec(Start(validators, height, leader), run);
            && net.nodes.Keys == Start(validators, height, leader).nodes.Keys
            && (forall a :: a in net.nodes ==> a in net.sent && FloodCount(net.sent[a]) <= 2 * |net.nodes|)
            && Sum(Floodings(net), net.nodes.Keys) <= 2 * |net.nodes| * |net.nodes|
  {
    hide Inv, Next, Enabled, FloodCount, Sum, Start, Legal, Exec, Floodings;
    var start := Start(validators, height, leader);
    StartInv(validators, height, leader);
    ExecKeepsInv(start, run);
    var net := Exec(start, run);
    forall a | a in net.nodes
      ensures a in net.sent && FloodCount(net.sent[a]) <= 2 * |net.nodes|
    {
      SentIsBounded(net, a);
    }
    TotalIsBounded(net);
  }

  lemma SentIsBounded(net: Net, n: Address)
    requires Inv(net) && n in net.nodes
    ensures n in net.sent && FloodCount(net.sent[n]) <= 2 * |net.nodes|
  {
    hide FloodCount, QueuedOnce, SignedOnce;
    assert NodeInv(net, n);
    LogIsBounded(net, n);
    FloodCountPrefix(net.sent[n], net.nodes[n].messages);
  }
}
