/**
 What a round can still come to, even if some validators never say another word. Every other theorem about
 rounds says what never happens; this one says when the good end remains within reach: in every reachable
 state of the network two thirds of the validators, the leader among them, can bring one of them to check a
 proposal if and only if neither the leader's solver nor its submission has failed.
 */
module ConsensusProgress {
  import opened FiniteSums
  import opened Options
  import opened Quorum
  import opened Sequences
  import opened ConsensusRound
  import opened ConsensusNetwork
  import opened ConsensusProposals

  /** `active` are the validators that still do something. */
  datatype Setup = Setup(vs: seq<Address>, height: nat, leader: Address, active: set<Address>)

  /** Two thirds of the validators. */
  predicate Enough(u: Setup) {
    2 * |u.vs| <= 3 * |u.active|
  }

  ghost predicate Roles(u: Setup) {
    Distinct(u.vs) && u.leader in u.active && forall n :: n in u.active ==> n in u.vs
  }

  /** A step of the nodes `q` among themselves. */
  predicate By(s: NetStep, q: set<Address>) {
    match s
    case Broadcast(n) => n in q
    case Deliver(to, p) => to in q && p.from in q
    case PollNode(n, _) => n in q
  }

  ghost predicate AllBy(run: seq<NetStep>, q: set<Address>) {
    forall i :: 0 <= i < |run| ==> By(run[i], q)
  }

  /** Some run of the nodes `q` among themselves leads from `x` to `y`. */
  ghost predicate CanReach(x: Net, y: Net, q: set<Address>) {
    exists run :: Legal(x, run) && AllBy(run, q) && Exec(x, run) == y
  }

  lemma Stay(x: Net, q: set<Address>)
    ensures CanReach(x, x, q)
  {
    assert Legal(x, []) && AllBy([], q) && Exec(x, []) == x;
  }

  lemma {:induction false} Joined(x: Net, a: seq<NetStep>, b: seq<NetStep>)
    requires Legal(x, a) && Legal(Exec(x, a), b)
    ensures Legal(x, a + b) && Exec(x, a + b) == Exec(Exec(x, a), b)
    decreases a
  {
    hide Enabled, Next;
    if a == [] {
      assert a + b == b;
    } else {
      Joined(Next(x, a[0]), a[1..], b);
      assert (a + b)[0] == a[0] && (a + b)[1..] == a[1..] + b;
    }
  }

  lemma Onward(x: Net, y: Net, z: Net, q: set<Address>)
    requires CanReach(x, y, q) && CanReach(y, z, q)
    ensures CanReach(x, z, q)
  {
    hide Legal, Exec, By;
    var a :| Legal(x, a) && AllBy(a, q) && Exec(x, a) == y;
    var b :| Legal(y, b) && AllBy(b, q) && Exec(y, b) == z;
    Joined(x, a, b);
    assert AllBy(a + b, q);
  }

  lemma OneStep(x: Net, s: NetStep, q: set<Address>)
    requires Enabled(x, s) && By(s, q)
    ensures CanReach(x, Next(x, s), q)
  {
    hide Enabled, Next, By;
    assert [s][1..] == [];
    assert Legal(x, [s]) && AllBy([s], q) && Exec(x, [s]) == Next(x, s);
  }

  // ----- what holds in every reachable state

  /** What a node has signed fits the height and was queued; its phase tells what it has signed. */
  ghost predicate Staged(r: Round, height: nat) {
    && r.height == height
    && (1 <= Rank(r.phase) <= 3 ==> r.signedPres != [])
    && (2 <= Rank(r.phase) <= 3 ==> r.signedAggs != [])
    && (forall p :: p in r.signedPres ==> ValidPreProposal(p, height) && PropagatePreProposal(p) in r.log)
    && (forall a :: a in r.signedAggs ==> a.signed && PropagateAggregation(a) in r.log)
    && forall p :: p in r.built ==> p.signed
  }

  /** What a node follows came from the leader over the wire. */
  ghost predicate Heard(net: Net, r: Round, leader: Address) {
    && (r.phase.Collecting? && r.phase.accepted.Some? ==>
          Packet(leader, PropagateProposal(r.phase.accepted.value)) in net.wire)
    && (r.phase.Finalizing? ==> Packet(leader, PropagateProposal(r.phase.checked)) in net.wire)
  }

  /** The wire holds exactly what was sent. */
  ghost predicate Wired(net: Net) {
    && (forall n, m :: n in net.sent && m in net.sent[n] ==> Packet(n, m) in net.wire)
    && forall p :: p in net.wire ==> p.from in net.sent && p.message in net.sent[p.from]
  }

  ghost predicate Roster(net: Net, u: Setup) {
    && Distinct(u.vs) && u.leader in u.active && u.active <= net.nodes.Keys
    && forall n :: n in net.nodes <==> n in u.vs
  }

  ghost predicate Good(net: Net, u: Setup) {
    && Inv(net) && ProposalInv(net, u.vs, u.leader) && Roster(net, u) && Wired(net)
    && forall n :: n in net.nodes ==> Staged(net.nodes[n], u.height) && Heard(net, net.nodes[n], u.leader)
  }

  lemma StepStaged(r: Round, s: Step, height: nat)
    requires Staged(r, height) && SignedOnce(r)
    ensures Staged(Apply(r, s), height)
  {
    hide ValidAggregation, ValidProposal, TwoThirds, SortByPool;
    if s.Poll? && r.phase.Proposing? {
      ProposingStaged(r, s.input, height);
    } else {
      var q := Apply(r, s);
      assert q.log == r.log || (|q.log| == |r.log| + 1 && q.log == r.log + [q.log[|r.log|]]);
    }
  }

  lemma ProposingStaged(r: Round, i: PollInput, height: nat)
    requires Staged(r, height) && r.phase.Proposing?
    ensures Staged(Polled(r, i), height)
  {
    hide SortByPool, ValidPreProposal;
    var b := Build(r, i);
    assert Staged(b, height);
    assert forall m :: m in b.log ==> m in Submit(b, i).log;
  }

  lemma NodeStepGood(net: Net, n: Address, s: Step, u: Setup)
    requires Good(net, u) && n in net.nodes
    requires s.Receive? && s.event.ProposalReceived? && s.event.from == u.leader ==>
               Packet(u.leader, PropagateProposal(s.event.proposal)) in net.wire
    ensures var y := NodeStep(net, n, s);
            && Roster(y, u) && Wired(y)
            && forall k :: k in y.nodes ==> Staged(y.nodes[k], u.height) && Heard(y, y.nodes[k], u.leader)
  {
    hide Apply, Staged, QueuedOnce, SignedOnce, OwnSource, AllSigned, Quorate, Signed;
    assert NodeInv(net, n) && Follows(net, net.nodes[n], u.leader);
    StepStaged(net.nodes[n], s, u.height);
    StepAccepts(net.nodes[n], s);
  }

  lemma BroadcastGood(net: Net, n: Address, u: Setup)
    requires Good(net, u) && Enabled(net, Broadcast(n))
    ensures var y := Next(net, Broadcast(n));
            && Roster(y, u) && Wired(y)
            && forall k :: k in y.nodes ==> Staged(y.nodes[k], u.height) && Heard(y, y.nodes[k], u.leader)
  {
    hide Inv, ProposalInv, ValidPreProposal;
    var y := Next(net, Broadcast(n));
    forall k, m | k in y.sent && m in y.sent[k]
      ensures Packet(k, m) in y.wire
    {
      assert m in net.sent[k] || (k == n && m == net.nodes[n].messages[0]);
    }
  }

  lemma NextGood(net: Net, s: NetStep, u: Setup)
    requires Good(net, u) && Enabled(net, s)
    ensures Good(Next(net, s), u)
  {
    hide Inv, ProposalInv, Roster, Wired, Staged, Heard, Apply, Walks;
    NextKeepsInv(net, s);
    NextKeeps(net, s, u.vs, u.leader);
    match s
    case Broadcast(n) => BroadcastGood(net, n, u);
    case Deliver(to, p) => NodeStepGood(net, to, Receive(AsEvent(p)), u);
    case PollNode(n, i) => NodeStepGood(net, n, Poll(i), u);
  }

  lemma {:induction false} ExecGood(net: Net, run: seq<NetStep>, u: Setup)
    requires Good(net, u) && Legal(net, run)
    ensures Good(Exec(net, run), u)
    decreases run
  {
    hide Good, Enabled, Next;
    if run != [] {
      NextGood(net, run[0], u);
      ExecGood(Next(net, run[0]), run[1..], u);
    }
  }

  lemma StartGood(u: Setup)
    requires Roles(u)
    ensures Good(Start(u.vs, u.height, u.leader), u)
  {
    hide Inv, ProposalInv;
    StartInv(u.vs, u.height, u.leader);
    StartKeeps(u.vs, u.height, u.leader);
  }

  // ----- emptying the queues

  lemma {:induction false} DrainNode(x: Net, n: Address, u: Setup) returns (y: Net)
    requires Good(x, u) && n in x.nodes && n in u.active
    ensures Good(y, u) && CanReach(x, y, u.active) && x.wire <= y.wire && y.nodes.Keys == x.nodes.Keys
    ensures y.nodes[n] == x.nodes[n].(messages := [])
    ensures forall k :: k in x.nodes && k != n ==> y.nodes[k] == x.nodes[k]
    decreases |x.nodes[n].messages|
  {
    hide Good, CanReach;
    if x.nodes[n].messages == [] {
      y := x;
      Stay(x, u.active);
    } else {
      InSent(x, n, u);
      var z := Next(x, Broadcast(n));
      OneStep(x, Broadcast(n), u.active);
      NextGood(x, Broadcast(n), u);
      y := DrainNode(z, n, u);
      Onward(x, z, y, u.active);
    }
  }

  lemma InSent(x: Net, n: Address, u: Setup)
    requires Good(x, u) && n in x.nodes
    ensures n in x.sent && x.sent[n] + x.nodes[n].messages == x.nodes[n].log
  {
    hide QueuedOnce, SignedOnce, OwnSource, AllSigned, ProposalInv, Wired, Staged;
    assert NodeInv(x, n);
  }

  /** Everything queued goes out; nothing else changes. */
  lemma {:induction false} Drain(x: Net, u: Setup, todo: set<Address>) returns (y: Net)
    requires Good(x, u) && todo <= u.active && u.active <= x.nodes.Keys
    ensures Good(y, u) && CanReach(x, y, u.active) && x.wire <= y.wire && y.nodes.Keys == x.nodes.Keys
    ensures forall k :: k in x.nodes ==> y.nodes[k] == if k in todo then x.nodes[k].(messages := []) else x.nodes[k]
    decreases todo
  {
    hide Good, CanReach;
    if todo == {} {
      y := x;
      Stay(x, u.active);
    } else {
      var n :| n in todo;
      var z := DrainNode(x, n, u);
      y := Drain(z, u, todo - {n});
      Onward(x, z, y, u.active);
    }
  }

  lemma DrainedIsOut(x: Net, n: Address, u: Setup, m: ConsensusMessage)
    requires Good(x, u) && n in x.nodes && x.nodes[n].messages == [] && m in x.nodes[n].log
    ensures Packet(n, m) in x.wire
  {
    hide Inv, ProposalInv, Staged, Heard;
    InSent(x, n, u);
    assert x.sent[n] + [] == x.sent[n];
  }

  // ----- before the leader has built

  /** The solver answered without a solution: there is no proposal at this height. */
  predicate SolverFailed(r: Round) {
    r.phase.Proposing? && !r.phase.matching && r.built == []
  }

  ghost predicate Open(x: Net, u: Setup) {
    && Good(x, u) && Enough(u) && u.leader in u.active && u.active <= x.nodes.Keys
    && x.nodes[u.leader].built == [] && !SolverFailed(x.nodes[u.leader])
  }

  /** As long as nothing is built nobody follows anything, and only the leader may be past collecting. */
  lemma OpenCollects(x: Net, u: Setup, n: Address)
    requires Open(x, u) && n in x.nodes
    ensures var r := x.nodes[n];
            && r.me == n && r.validators == u.vs && r.leader == u.leader
            && ((r.phase.Collecting? && r.phase.accepted.None?) || (n == u.leader && r.phase.Proposing? && r.phase.matching))
  {
    hide QueuedOnce, OwnSource, AllSigned, Wired, Staged, Heard, TwoThirds, BuiltFromHeld;
    assert NodeInv(x, n) && Quorate(x, x.nodes[n], u.vs) && Follows(x, x.nodes[n], u.leader);
  }

  /** A poll with nothing in it but the timer. */
  const TIMEOUT := PollInput(true, [], [], [], [], Unsolved, None, false)

  lemma TimeOut(x: Net, u: Setup, n: Address) returns (y: Net)
    requires Open(x, u) && n in u.active && Rank(x.nodes[n].phase) == 0
    ensures Open(y, u) && CanReach(x, y, u.active) && y.nodes.Keys == x.nodes.Keys
    ensures Rank(y.nodes[n].phase) == 1 && forall k :: k in x.nodes && k != n ==> y.nodes[k] == x.nodes[k]
  {
    hide Good, CanReach;
    OpenCollects(x, u, n);
    OneStep(x, PollNode(n, TIMEOUT), u.active);
    NextGood(x, PollNode(n, TIMEOUT), u);
    y := Next(x, PollNode(n, TIMEOUT));
  }

  ghost function AtRank(x: Net, u: Setup, rank: nat): set<Address> {
    set k | k in u.active && k in x.nodes && Rank(x.nodes[k].phase) == rank
  }

  ghost predicate AllPast(x: Net, u: Setup, rank: nat) {
    forall k :: k in u.active ==> k in x.nodes && Rank(x.nodes[k].phase) >= rank
  }

  /** Everybody active comes to sign a pre-proposal. */
  lemma {:induction false} AllTimeOut(x: Net, u: Setup) returns (y: Net)
    requires Open(x, u)
    ensures Open(y, u) && CanReach(x, y, u.active) && y.nodes.Keys == x.nodes.Keys
    ensures AllPast(y, u, 1)
    decreases AtRank(x, u, 0)
  {
    hide Good, CanReach, Rank;
    if n :| n in u.active && Rank(x.nodes[n].phase) == 0 {
      var z := TimeOut(x, u, n);
      assert n in AtRank(x, u, 0) && n !in AtRank(z, u, 0);
      y := AllTimeOut(z, u);
      Onward(x, z, y, u.active);
    } else {
      y := x;
      Stay(x, u.active);
    }
  }

  // ----- collecting pre-proposals

  /** The pre-proposals of all the active nodes are on the wire. */
  ghost predicate PresOut(x: Net, u: Setup) {
    forall k :: k in u.active ==>
      && k in x.nodes
      && x.nodes[k].signedPres != [] && x.nodes[k].signedPres[0].source == k
      && ValidPreProposal(x.nodes[k].signedPres[0], u.height)
      && Packet(k, PropagatePreProposal(x.nodes[k].signedPres[0])) in x.wire
  }

  lemma DrainedPresOut(x: Net, u: Setup)
    requires Open(x, u) && AllPast(x, u, 1) && forall k :: k in u.active ==> x.nodes[k].messages == []
    ensures PresOut(x, u)
  {
    hide ProposalInv, Wired, Heard, QueuedOnce, SignedOnce, AllSigned, ValidPreProposal;
    forall k | k in u.active
      ensures x.nodes[k].signedPres != [] && x.nodes[k].signedPres[0].source == k
      ensures ValidPreProposal(x.nodes[k].signedPres[0], u.height)
      ensures Packet(k, PropagatePreProposal(x.nodes[k].signedPres[0])) in x.wire
    {
      OpenCollects(x, u, k);
      assert NodeInv(x, k) && Staged(x.nodes[k], u.height);
      DrainedIsOut(x, k, u, PropagatePreProposal(x.nodes[k].signedPres[0]));
    }
  }

  /** Only node `n` moved, and what it had signed it still has. */
  ghost predicate OnlyMoved(x: Net, y: Net, n: Address) {
    && n in x.nodes && y.nodes.Keys == x.nodes.Keys && x.wire <= y.wire
    && y.nodes[n].signedPres == x.nodes[n].signedPres && x.nodes[n].signedAggs <= y.nodes[n].signedAggs
    && forall k :: k in x.nodes && k != n ==> y.nodes[k] == x.nodes[k]
  }

  /** The node's pre-proposals after hearing everybody in `todo`. */
  lemma {:induction false} HearPres(x: Net, u: Setup, n: Address, todo: set<Address>) returns (y: Net)
    requires Open(x, u) && PresOut(x, u) && n in u.active && Rank(x.nodes[n].phase) == 1 && todo <= u.active
    ensures Open(y, u) && CanReach(x, y, u.active) && OnlyMoved(x, y, n) && Rank(y.nodes[n].phase) == 1
    ensures x.nodes[n].phase.pres <= y.nodes[n].phase.pres
    ensures forall k :: k in todo ==> x.nodes[k].signedPres[0] in y.nodes[n].phase.pres
    decreases todo
  {
    hide Good, CanReach, ValidPreProposal;
    if todo == {} {
      y := x;
      Stay(x, u.active);
    } else {
      var k :| k in todo;
      var z := HearPre(x, u, n, k);
      y := HearPres(z, u, n, todo - {k});
      Onward(x, z, y, u.active);
    }
  }

  lemma HearPre(x: Net, u: Setup, n: Address, k: Address) returns (y: Net)
    requires Open(x, u) && PresOut(x, u) && n in u.active && k in u.active && Rank(x.nodes[n].phase) == 1
    ensures Open(y, u) && PresOut(y, u) && CanReach(x, y, u.active) && OnlyMoved(x, y, n) && Rank(y.nodes[n].phase) == 1
    ensures y.nodes[n].phase.pres == x.nodes[n].phase.pres + {x.nodes[k].signedPres[0]}
  {
    hide Good, CanReach, ValidPreProposal;
    var p := x.nodes[k].signedPres[0];
    var s := Deliver(n, Packet(k, PropagatePreProposal(p)));
    OpenCollects(x, u, n);
    Known(x, u, k);
    OneStep(x, s, u.active);
    NextGood(x, s, u);
    HeightOf(x, u, n);
    y := Next(x, s);
  }

  lemma Known(x: Net, u: Setup, k: Address)
    requires Good(x, u) && k in x.nodes
    ensures k in u.vs
  {
  }

  lemma HeightOf(x: Net, u: Setup, n: Address)
    requires Good(x, u) && n in x.nodes
    ensures x.nodes[n].height == u.height
  {
  }

  /** A set as a list, in some order. */
  lemma {:induction false} Listing<T(!new)>(s: set<T>) returns (q: seq<T>)
    ensures Lists(q, s)
    decreases s
  {
    if s == {} {
      q := [];
    } else {
      var x :| x in s;
      var rest := Listing(s - {x});
      q := rest + [x];
    }
  }

  /** A set that holds a member for each key, and different ones for different keys, is as large. */
  lemma {:induction false} AsManyAsKeys<K(!new), T(!new)>(f: map<K, T>, keys: set<K>, s: set<T>)
    requires keys <= f.Keys && forall k :: k in keys ==> f[k] in s
    requires forall j, k :: j in keys && k in keys && f[j] == f[k] ==> j == k
    ensures |keys| <= |s|
    decreases keys
  {
    if keys != {} {
      var k :| k in keys;
      AsManyAsKeys(f, keys - {k}, s - {f[k]});
    }
  }

  /** One pre-proposal of each active node is a quorum. */
  lemma EnoughPres(x: Net, u: Setup, pres: set<PreProposal>)
    requires Enough(u) && PresOut(x, u) && forall k :: k in u.active ==> x.nodes[k].signedPres[0] in pres
    ensures |pres| >= TwoThirds(|u.vs|)
  {
    hide ValidPreProposal, TwoThirds;
    var first := map k | k in u.active :: x.nodes[k].signedPres[0];
    AsManyAsKeys(first, u.active, pres);
    QuorumIff(|u.active|, |u.vs|);
  }

  lemma PresStayOut(x: Net, y: Net, u: Setup, n: Address)
    requires PresOut(x, u) && OnlyMoved(x, y, n)
    ensures PresOut(y, u)
  {
    hide ValidPreProposal;
  }

  /** A node with a quorum of pre-proposals signs an aggregation. */
  lemma PollAggregates(x: Net, u: Setup, n: Address) returns (y: Net)
    requires Open(x, u) && n in u.active && Rank(x.nodes[n].phase) == 1
    requires |x.nodes[n].phase.pres| >= TwoThirds(|u.vs|)
    ensures Open(y, u) && CanReach(x, y, u.active) && OnlyMoved(x, y, n) && Rank(y.nodes[n].phase) == 2
  {
    hide Good, CanReach, TwoThirds, Lists;
    OpenCollects(x, u, n);
    var q := Listing(x.nodes[n].phase.pres);
    var s := PollNode(n, TIMEOUT.(pres := q));
    OneStep(x, s, u.active);
    NextGood(x, s, u);
    y := Next(x, s);
  }

  lemma Aggregate(x: Net, u: Setup, n: Address) returns (y: Net)
    requires Open(x, u) && PresOut(x, u) && n in u.active && Rank(x.nodes[n].phase) == 1
    ensures Open(y, u) && PresOut(y, u) && CanReach(x, y, u.active) && y.nodes.Keys == x.nodes.Keys
    ensures Rank(y.nodes[n].phase) == 2 && forall k :: k in x.nodes && k != n ==> y.nodes[k] == x.nodes[k]
  {
    hide Good, CanReach, PresOut, TwoThirds;
    var z := HearPres(x, u, n, u.active);
    OpenCollects(z, u, n);
    EnoughPres(x, u, z.nodes[n].phase.pres);
    y := PollAggregates(z, u, n);
    PresStayOut(x, z, u, n);
    PresStayOut(z, y, u, n);
    Onward(x, z, y, u.active);
  }

  lemma {:induction false} AllAggregate(x: Net, u: Setup) returns (y: Net)
    requires Open(x, u) && PresOut(x, u) && AllPast(x, u, 1)
    ensures Open(y, u) && CanReach(x, y, u.active) && y.nodes.Keys == x.nodes.Keys
    ensures AllPast(y, u, 2)
    decreases AtRank(x, u, 1)
  {
    hide Good, CanReach, Rank, PresOut;
    if n :| n in u.active && Rank(x.nodes[n].phase) == 1 {
      var z := Aggregate(x, u, n);
      assert n in AtRank(x, u, 1) && n !in AtRank(z, u, 1);
      y := AllAggregate(z, u);
      Onward(x, z, y, u.active);
    } else {
      y := x;
      Stay(x, u.active);
    }
  }

  // ----- collecting aggregations

  ghost predicate AggsOut(x: Net, u: Setup) {
    forall k :: k in u.active ==>
      && k in x.nodes
      && x.nodes[k].signedAggs != [] && x.nodes[k].signedAggs[0].source == k
      && ValidAggregation(x.nodes[k].signedAggs[0], u.height, TwoThirds(|u.vs|))
      && Packet(k, PropagateAggregation(x.nodes[k].signedAggs[0])) in x.wire
  }

  /** What a node signed as an aggregation is valid. */
  lemma AggIsValid(x: Net, u: Setup, a: Aggregation)
    requires Good(x, u) && SignedAgg(x, a)
    ensures ValidAggregation(a, u.height, TwoThirds(|u.vs|))
  {
    hide Inv, Follows, Wired, Heard, TwoThirds, ValidPreProposal;
    assert Quorate(x, x.nodes[a.source], u.vs) && Staged(x.nodes[a.source], u.height);
    forall i | 0 <= i < |a.preProposals|
      ensures ValidPreProposal(a.preProposals[i], u.height)
    {
      var p := a.preProposals[i];
      assert SignedPre(x, p);
      assert Staged(x.nodes[p.source], u.height);
    }
  }

  lemma DrainedAggsOut(x: Net, u: Setup)
    requires Open(x, u) && AllPast(x, u, 2) && forall k :: k in u.active ==> x.nodes[k].messages == []
    ensures AggsOut(x, u)
  {
    hide ProposalInv, Wired, Heard, QueuedOnce, SignedOnce, AllSigned, ValidPreProposal, ValidAggregation, TwoThirds;
    forall k | k in u.active
      ensures x.nodes[k].signedAggs != [] && x.nodes[k].signedAggs[0].source == k
      ensures ValidAggregation(x.nodes[k].signedAggs[0], u.height, TwoThirds(|u.vs|))
      ensures Packet(k, PropagateAggregation(x.nodes[k].signedAggs[0])) in x.wire
    {
      OpenCollects(x, u, k);
      assert NodeInv(x, k) && Staged(x.nodes[k], u.height);
      DrainedIsOut(x, k, u, PropagateAggregation(x.nodes[k].signedAggs[0]));
      AggIsValid(x, u, x.nodes[k].signedAggs[0]);
    }
  }

  lemma HearAgg(x: Net, u: Setup, n: Address, k: Address) returns (y: Net)
    requires Open(x, u) && AggsOut(x, u) && n in u.active && k in u.active && Rank(x.nodes[n].phase) == 2
    ensures Open(y, u) && AggsOut(y, u) && CanReach(x, y, u.active) && OnlyMoved(x, y, n) && Rank(y.nodes[n].phase) == 2
    ensures y.nodes[n].phase.aggs == x.nodes[n].phase.aggs + {x.nodes[k].signedAggs[0]}
    ensures y.nodes[n].signedAggs == x.nodes[n].signedAggs
  {
    hide Good, CanReach, ValidAggregation, TwoThirds;
    var s := Deliver(n, Packet(k, PropagateAggregation(x.nodes[k].signedAggs[0])));
    OpenCollects(x, u, n);
    Known(x, u, k);
    HeightOf(x, u, n);
    OneStep(x, s, u.active);
    NextGood(x, s, u);
    y := Next(x, s);
  }

  lemma {:induction false} HearAggs(x: Net, u: Setup, n: Address, todo: set<Address>) returns (y: Net)
    requires Open(x, u) && AggsOut(x, u) && n in u.active && Rank(x.nodes[n].phase) == 2 && todo <= u.active
    ensures Open(y, u) && CanReach(x, y, u.active) && OnlyMoved(x, y, n) && Rank(y.nodes[n].phase) == 2
    ensures x.nodes[n].phase.aggs <= y.nodes[n].phase.aggs
    ensures forall k :: k in todo ==> x.nodes[k].signedAggs[0] in y.nodes[n].phase.aggs
    decreases todo
  {
    hide Good, CanReach, ValidAggregation, TwoThirds;
    if todo == {} {
      y := x;
      Stay(x, u.active);
    } else {
      var k :| k in todo;
      var z := HearAgg(x, u, n, k);
      y := HearAggs(z, u, n, todo - {k});
      Onward(x, z, y, u.active);
    }
  }

  /** The leader, having heard everybody, starts to propose. */
  lemma Propose(x: Net, u: Setup) returns (y: Net)
    requires Open(x, u) && AggsOut(x, u) && Rank(x.nodes[u.leader].phase) == 2
    ensures Open(y, u) && CanReach(x, y, u.active) && y.nodes[u.leader].phase.Proposing?
  {
    hide Good, CanReach, ValidAggregation, TwoThirds;
    var z := HearAggs(x, u, u.leader, u.active);
    OpenCollects(z, u, u.leader);
    var first := map k | k in u.active :: x.nodes[k].signedAggs[0];
    AsManyAsKeys(first, u.active, z.nodes[u.leader].phase.aggs);
    QuorumIff(|u.active|, |u.vs|);
    var s := PollNode(u.leader, TIMEOUT);
    OneStep(z, s, u.active);
    NextGood(z, s, u);
    y := Next(z, s);
    Onward(x, z, y, u.active);
  }

  /** The solver answers, and the leader builds. */
  lemma Solve(x: Net, u: Setup) returns (y: Net)
    requires Open(x, u) && x.nodes[u.leader].phase.Proposing?
    ensures Good(y, u) && CanReach(x, y, u.active) && u.leader in y.nodes && y.nodes[u.leader].phase.Proposing?
    ensures y.nodes[u.leader].built != [] && y.nodes[u.leader].phase.submitting
  {
    hide Good, CanReach, Lists;
    OpenCollects(x, u, u.leader);
    var q := Listing(x.nodes[u.leader].phase.held);
    var s := PollNode(u.leader, TIMEOUT.(aggs := q, solver := Solved([], true)));
    OneStep(x, s, u.active);
    NextGood(x, s, u);
    y := Next(x, s);
  }

  /** From every open state the leader can still build its proposal. */
  lemma OpenBuilds(x: Net, u: Setup) returns (y: Net)
    requires Open(x, u)
    ensures Good(y, u) && CanReach(x, y, u.active) && u.leader in y.nodes && y.nodes[u.leader].phase.Proposing?
    ensures y.nodes[u.leader].built != [] && y.nodes[u.leader].phase.submitting
  {
    hide Good, CanReach, PresOut, AggsOut;
    var a := AllTimeOut(x, u);
    var b := Drain(a, u, u.active);
    DrainedPresOut(b, u);
    var c := AllAggregate(b, u);
    var d := Drain(c, u, u.active);
    DrainedAggsOut(d, u);
    Onward(x, a, b, u.active);
    Onward(x, b, c, u.active);
    Onward(x, c, d, u.active);
    OpenCollects(d, u, u.leader);
    var e := d;
    if d.nodes[u.leader].phase.Collecting? {
      e := Propose(d, u);
      Onward(x, d, e, u.active);
    }
    y := Solve(e, u);
    Onward(x, e, y, u.active);
  }

  // ----- sending the proposal around

  /** The leader built a proposal and gave up on it, because the transaction did not land. */
  predicate Dropped(r: Round) {
    && r.built != [] && !(r.phase.Proposing? && r.phase.submitting)
    && PropagateProposal(r.built[0]) !in r.log
  }

  /** What the leader built is accepted by everybody. */
  lemma BuiltIsValid(x: Net, u: Setup)
    requires Good(x, u) && u.leader in x.nodes && x.nodes[u.leader].built != []
    ensures var r := x.nodes[u.leader];
            && r.phase.Proposing? && !r.phase.matching && |r.built| == 1
            && (r.phase.submitting ==> r.phase.own == Some(r.built[0]))
            && ValidProposal(r.built[0], u.height, TwoThirds(|u.vs|))
  {
    hide QueuedOnce, OwnSource, AllSigned, Wired, Heard, TwoThirds, ValidAggregation;
    var r := x.nodes[u.leader];
    assert NodeInv(x, u.leader) && Quorate(x, r, u.vs) && Follows(x, r, u.leader) && Staged(r, u.height);
    forall i | 0 <= i < |r.built[0].preproposals|
      ensures ValidAggregation(r.built[0].preproposals[i], u.height, TwoThirds(|u.vs|))
    {
      assert r.built[0].preproposals[i] in r.phase.held;
      AggIsValid(x, u, r.built[0].preproposals[i]);
    }
  }

  /** The transaction lands, and the proposal goes out. */
  lemma Announce(x: Net, u: Setup) returns (y: Net)
    requires Good(x, u) && u.leader in u.active && u.active <= x.nodes.Keys
    requires x.nodes[u.leader].built != [] && !Dropped(x.nodes[u.leader])
    ensures Good(y, u) && CanReach(x, y, u.active) && u.leader in y.nodes && y.nodes[u.leader].built == x.nodes[u.leader].built
    ensures Packet(u.leader, PropagateProposal(x.nodes[u.leader].built[0])) in y.wire
    ensures y.nodes.Keys == x.nodes.Keys && forall k :: k in x.nodes && k != u.leader ==> y.nodes[k] == x.nodes[k]
  {
    hide Good, CanReach, ValidProposal, SortByPool;
    BuiltIsValid(x, u);
    var r, z := x.nodes[u.leader], x;
    if r.phase.submitting {
      var s := PollNode(u.leader, TIMEOUT.(landed := Some(true)));
      OneStep(x, s, u.active);
      NextGood(x, s, u);
      z := Next(x, s);
    } else {
      Stay(x, u.active);
    }
    y := DrainNode(z, u.leader, u);
    DrainedIsOut(y, u.leader, u, PropagateProposal(r.built[0]));
    Onward(x, z, y, u.active);
  }

  /** A node that collects hears the proposal and goes on to check it. */
  lemma Check(x: Net, u: Setup, n: Address) returns (y: Net)
    requires Good(x, u) && u.leader in u.active && n in u.active && n != u.leader && u.active <= x.nodes.Keys
    requires x.nodes[u.leader].built != []
    requires Packet(u.leader, PropagateProposal(x.nodes[u.leader].built[0])) in x.wire
    ensures CanReach(x, y, u.active) && n in y.nodes && y.nodes[n].phase.Finalizing?
  {
    hide Good, CanReach, ValidProposal, TwoThirds;
    BuiltIsValid(x, u);
    Follower(x, u, n);
    HeightOf(x, u, n);
    if x.nodes[n].phase.Finalizing? {
      y := x;
      Stay(x, u.active);
    } else {
      var s := Deliver(n, Packet(u.leader, PropagateProposal(x.nodes[u.leader].built[0])));
      var z := Next(x, s);
      OneStep(x, s, u.active);
      OneStep(z, PollNode(n, TIMEOUT), u.active);
      y := Next(z, PollNode(n, TIMEOUT));
      Onward(x, z, y, u.active);
    }
  }

  lemma Follower(x: Net, u: Setup, n: Address)
    requires Good(x, u) && n in x.nodes && n != u.leader
    ensures var r := x.nodes[n]; r.leader == u.leader && r.validators == u.vs && !r.phase.Proposing?
  {
    hide QueuedOnce, OwnSource, AllSigned, Wired, Staged, Heard, TwoThirds, BuiltFromHeld;
    assert NodeInv(x, n) && Quorate(x, x.nodes[n], u.vs) && Follows(x, x.nodes[n], u.leader);
  }

  // ----- the end of a round that failed

  ghost predicate Stuck(x: Net, u: Setup) {
    u.leader in x.nodes && (SolverFailed(x.nodes[u.leader]) || Dropped(x.nodes[u.leader]))
  }

  /** A leader that failed does nothing any more. */
  lemma StuckStays(x: Net, s: NetStep, u: Setup)
    requires Good(x, u) && Stuck(x, u) && Enabled(x, s)
    ensures Stuck(Next(x, s), u) && Next(x, s).nodes[u.leader].built == x.nodes[u.leader].built
  {
    hide Good, Walks, ValidProposal, SortByPool;
    StuckProposes(x, u);
  }

  lemma StuckProposes(x: Net, u: Setup)
    requires Good(x, u) && Stuck(x, u)
    ensures var p := x.nodes[u.leader].phase; p.Proposing? && !p.matching && !p.submitting
  {
    hide QueuedOnce, OwnSource, AllSigned, Wired, Staged, Heard, TwoThirds, Quorate;
    assert NodeInv(x, u.leader) && Follows(x, x.nodes[u.leader], u.leader);
  }

  lemma {:induction false} StuckForEver(x: Net, run: seq<NetStep>, u: Setup)
    requires Good(x, u) && Stuck(x, u) && Legal(x, run)
    ensures Good(Exec(x, run), u) && Stuck(Exec(x, run), u)
    ensures Exec(x, run).nodes[u.leader].built == x.nodes[u.leader].built
    decreases run
  {
    hide Good, SolverFailed, Dropped, Enabled, Next;
    if run != [] {
      NextGood(x, run[0], u);
      StuckStays(x, run[0], u);
      StuckForEver(Next(x, run[0]), run[1..], u);
    }
  }

  /** Whoever checks a proposal heard it from the leader, which built and sent it. */
  lemma CheckedWasSent(x: Net, u: Setup, n: Address)
    requires Good(x, u) && n in x.nodes && x.nodes[n].phase.Finalizing?
    ensures u.leader in x.nodes && x.nodes[u.leader].built == [x.nodes[n].phase.checked]
    ensures PropagateProposal(x.nodes[n].phase.checked) in x.nodes[u.leader].log
  {
    hide QueuedOnce, OwnSource, AllSigned, Staged, TwoThirds, Quorate, BuiltFromHeld;
    var r := x.nodes[n];
    assert Follows(x, r, u.leader) && Heard(x, r, u.leader) && NodeInv(x, u.leader);
    assert r.phase.checked in x.nodes[u.leader].built;
    InSent(x, u.leader, u);
    assert PropagateProposal(r.phase.checked) in x.sent[u.leader];
  }

  /** In every reachable state of a network of any size, and for any two thirds of the validators that
      include the leader: if only these go on, a node among them can still come to check a proposal if and
      only if neither the leader's solver nor its submission has failed. As long as what was sent can still
      be delivered, nothing else that happens, and no silence of the others, brings the round to a
      standstill. */
  lemma CanCheckIff(u: Setup, run: seq<NetStep>, n: Address)
    requires Roles(u) && Enough(u) && n in u.active && n != u.leader
    requires Legal(Start(u.vs, u.height, u.leader), run)
    ensures var x := Exec(Start(u.vs, u.height, u.leader), run);
            && u.leader in x.nodes
            && ((exists y :: CanReach(x, y, u.active) && n in y.nodes && y.nodes[n].phase.Finalizing?)
                <==> !SolverFailed(x.nodes[u.leader]) && !Dropped(x.nodes[u.leader]))
  {
    hide Good, Legal, Exec, CanReach, Start, SolverFailed, Dropped, Enough;
    StartGood(u);
    ExecGood(Start(u.vs, u.height, u.leader), run, u);
    var x := Exec(Start(u.vs, u.height, u.leader), run);
    Present(x, u);
    if Stuck(x, u) {
      forall y | CanReach(x, y, u.active) && n in y.nodes
        ensures !y.nodes[n].phase.Finalizing?
      {
        StuckAnywhere(x, y, u, n);
      }
    } else {
      var y := Completes(x, u, n);
    }
  }

  /** In the same way the leader has built its proposal or can still come to, if and only if its solver has
      not failed. */
  lemma CanBuildIff(u: Setup, run: seq<NetStep>)
    requires Roles(u) && Enough(u) && Legal(Start(u.vs, u.height, u.leader), run)
    ensures var x := Exec(Start(u.vs, u.height, u.leader), run);
            && u.leader in x.nodes
            && ((exists y :: CanReach(x, y, u.active) && u.leader in y.nodes && y.nodes[u.leader].built != [])
                <==> !SolverFailed(x.nodes[u.leader]))
  {
    hide Good, Legal, Exec, CanReach, Start, Enough;
    StartGood(u);
    ExecGood(Start(u.vs, u.height, u.leader), run, u);
    var x := Exec(Start(u.vs, u.height, u.leader), run);
    Present(x, u);
    if SolverFailed(x.nodes[u.leader]) {
      forall y | CanReach(x, y, u.active) && u.leader in y.nodes
        ensures y.nodes[u.leader].built == []
      {
        StuckAnywhere(x, y, u, u.leader);
      }
    } else if x.nodes[u.leader].built == [] {
      var y := OpenBuilds(x, u);
    } else {
      Stay(x, u.active);
    }
  }

  lemma Present(x: Net, u: Setup)
    requires Good(x, u)
    ensures u.leader in u.active && u.active <= x.nodes.Keys
  {
  }

  lemma StuckAnywhere(x: Net, y: Net, u: Setup, n: Address)
    requires Good(x, u) && Stuck(x, u) && CanReach(x, y, u.active) && n in y.nodes
    ensures !y.nodes[n].phase.Finalizing?
    ensures u.leader in y.nodes && y.nodes[u.leader].built == x.nodes[u.leader].built
  {
    hide Good, Legal, Exec;
    var run :| Legal(x, run) && AllBy(run, u.active) && Exec(x, run) == y;
    StuckForEver(x, run, u);
    if y.nodes[n].phase.Finalizing? {
      CheckedWasSent(y, u, n);
    }
  }

  lemma Completes(x: Net, u: Setup, n: Address) returns (y: Net)
    requires Good(x, u) && !Stuck(x, u) && Enough(u) && n in u.active && n != u.leader
    ensures CanReach(x, y, u.active) && n in y.nodes && y.nodes[n].phase.Finalizing?
  {
    hide Good, CanReach, Enough;
    Present(x, u);
    var z := x;
    Stay(x, u.active);
    if x.nodes[u.leader].built == [] {
      z := OpenBuilds(x, u);
    }
    Present(z, u);
    var a := Announce(z, u);
    y := Check(a, u, n);
    Onward(x, z, a, u.active);
    Onward(x, a, y, u.active);
  }

  // ----- two thirds are needed

  /** Whoever is not active has signed nothing. */
  ghost predicate SilentElsewhere(x: Net, u: Setup) {
    forall n :: n in x.nodes && n !in u.active ==> x.nodes[n].signedAggs == []
  }

  lemma {:induction false} StaysSilent(x: Net, run: seq<NetStep>, u: Setup)
    requires Legal(x, run) && AllBy(run, u.active) && SilentElsewhere(x, u)
    ensures SilentElsewhere(Exec(x, run), u)
    decreases run
  {
    hide Apply, Walks;
    if run != [] {
      assert By(run[0], u.active);
      assert forall i :: 0 <= i < |run[1..]| ==> run[1..][i] == run[i + 1];
      StaysSilent(Next(x, run[0]), run[1..], u);
    }
  }

  /** Aggregations signed by their sources are no more than the nodes that signed any. */
  lemma {:induction false} NoMoreThanSigners(x: Net, aggs: set<Aggregation>, q: set<Address>)
    requires Inv(x) && forall a :: a in aggs ==> SignedAgg(x, a) && a.source in q
    ensures |aggs| <= |q|
    decreases aggs
  {
    hide Inv, SignedAgg;
    if aggs != {} {
      var a :| a in aggs;
      forall b | b in aggs && b.source == a.source
        ensures b == a
      {
        SignedOncePerKind(x, PropagateAggregation(a), PropagateAggregation(b));
      }
      NoMoreThanSigners(x, aggs - {a}, q - {a.source});
    }
  }

  /** From the start of a round, the leader and the nodes that go on with it can come to build a proposal if
      and only if they are two thirds of the validators. */
  lemma TwoThirdsAreNeeded(u: Setup)
    requires Roles(u)
    ensures (exists y :: CanReach(Start(u.vs, u.height, u.leader), y, u.active)
                         && u.leader in y.nodes && y.nodes[u.leader].built != [])
            <==> Enough(u)
  {
    hide Good, Legal, Exec, CanReach, Enough;
    var x := Start(u.vs, u.height, u.leader);
    StartGood(u);
    Present(x, u);
    if Enough(u) {
      var y := OpenBuilds(x, u);
    }
    if y :| CanReach(x, y, u.active) && u.leader in y.nodes && y.nodes[u.leader].built != [] {
      BuiltIsEnough(x, y, u);
    }
  }

  lemma BuiltIsEnough(x: Net, y: Net, u: Setup)
    requires Good(x, u) && SilentElsewhere(x, u) && CanReach(x, y, u.active)
    requires u.leader in y.nodes && y.nodes[u.leader].built != []
    ensures Enough(u)
  {
    hide QueuedOnce, SignedOnce, AllSigned, Wired, Staged, Heard, Legal, Exec, TwoThirds;
    var run :| Legal(x, run) && AllBy(run, u.active) && Exec(x, run) == y;
    ExecGood(x, run, u);
    StaysSilent(x, run, u);
    var r := y.nodes[u.leader];
    assert Quorate(y, r, u.vs) && Follows(y, r, u.leader);
    forall a | a in r.phase.held
      ensures a.source in u.active
    {
      assert SignedAgg(y, a);
    }
    NoMoreThanSigners(y, r.phase.held, u.active);
    QuorumIff(|u.active|, |u.vs|);
  }
}
