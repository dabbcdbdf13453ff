/**
 One node's consensus round: collect early messages, sign a pre-proposal on the timeout, sign an
 aggregation on a quorum of pre-proposals, and then build the proposal (leader) or check it (others).

 `Round` also carries, as history, everything queued for broadcast and everything signed since the
 round was reset.
 */
module ConsensusRound {
  import opened FiniteSums
  import opened Options
  import opened Quorum
  import opened Sequences

  datatype ConsensusMessage =
    | PropagatePreProposal(pre: PreProposal)
    | PropagateAggregation(agg: Aggregation)
    | PropagateProposal(proposal: Proposal)
    | PropagateEmptyBlockAttestation(target: nat)

  datatype ConsensusEvent =
    | PreProposalReceived(from: Address, pre: PreProposal)
    | AggregationReceived(from: Address, agg: Aggregation)
    | ProposalReceived(from: Address, proposal: Proposal)
    | AttestationReceived(from: Address, height: nat)

  /** The three collecting states; pre-proposals are only kept in the first two. */
  datatype Stage = BidAggregation | PreProposing | Aggregating

  datatype Phase =
    | Collecting(stage: Stage, pres: set<PreProposal>, aggs: set<Aggregation>, accepted: Option<Proposal>)
    | Proposing(held: set<Aggregation>, matching: bool, submitting: bool, own: Option<Proposal>)
    | Finalizing(checked: Proposal, completed: bool)

  datatype Round = Round(
    me: Address,
    validators: seq<Address>,
    height: nat,
    leader: Address,
    phase: Phase,
    messages: seq<ConsensusMessage>,
    log: seq<ConsensusMessage>,
    signedPres: seq<PreProposal>,
    signedAggs: seq<Aggregation>,
    built: seq<Proposal>)

  datatype SolverAnswer = Unsolved | Failed | Solved(solutions: seq<Solution>, bundled: bool)

  /** The wait timer, the stored orders, the order in which the two hash sets are walked, and the solver's,
      the chain's and the verification's answers. */
  datatype PollInput = PollInput(
    timeout: bool, limit: seq<StoredOrder>, searcher: seq<StoredOrder>,
    pres: seq<PreProposal>, aggs: seq<Aggregation>,
    solver: SolverAnswer, landed: Option<bool>, verified: bool)

  /** What the node signs if it signs now: its orders, the pre-proposals it collected, the aggregations it
      holds together with the solver's solutions. */
  function OwnPre(r: Round, i: PollInput): PreProposal {
    PreProposal(r.height, r.me, i.limit, i.searcher, true)
  }

  function OwnAgg(r: Round, i: PollInput): Aggregation {
    Aggregation(r.height, r.me, i.pres, true)
  }

  function OwnProposal(r: Round, i: PollInput): Proposal
    requires i.solver.Solved?
  {
    Proposal(r.height, r.me, i.aggs, SortByPool(i.solver.solutions), true)
  }

  function QuorumSize(r: Round): nat {
    TwoThirds(|r.validators|)
  }

  function Queue(r: Round, m: ConsensusMessage): Round {
    r.(messages := r.messages + [m], log := r.log + [m])
  }

  function Fresh(me: Address, validators: seq<Address>, height: nat, leader: Address): Round {
    Round(me, validators, height, leader, Collecting(BidAggregation, {}, {}, None), [], [], [], [], [])
  }

  /** `reset_round`: messages still queued from the previous round survive the reset. */
  function Reset(r: Round, height: nat, leader: Address): Round {
    Fresh(r.me, r.validators, height, leader).(messages := r.messages)
  }

  // ----- messages

  /** Unknown peers, invalid messages and duplicates are dropped. */
  predicate NewPreProposal(r: Round, from: Address, p: PreProposal)
    requires r.phase.Collecting?
  {
    from in r.validators && ValidPreProposal(p, r.height) && p !in r.phase.pres
  }

  predicate NewAggregation(r: Round, from: Address, a: Aggregation)
    requires r.phase.Collecting?
  {
    from in r.validators && ValidAggregation(a, r.height, QuorumSize(r)) && a !in r.phase.aggs
  }

  /** `verify_proposal` */
  predicate Accepts(r: Round, from: Address, p: Proposal) {
    from == r.leader && ValidProposal(p, r.height, QuorumSize(r))
  }

  /** `on_consensus_message` of all states: once proposing or finalizing, messages change nothing. */
  function Handled(r: Round, e: ConsensusEvent): Round {
    if !r.phase.Collecting? then r
    else match e
      case PreProposalReceived(from, p) =>
        if r.phase.stage.Aggregating? || !NewPreProposal(r, from, p) then r
        else Queue(r, PropagatePreProposal(p)).(phase := r.phase.(pres := r.phase.pres + {p}))
      case AggregationReceived(from, a) =>
        if !NewAggregation(r, from, a) then r
        else Queue(r, PropagateAggregation(a)).(phase := r.phase.(aggs := r.phase.aggs + {a}))
      case ProposalReceived(from, p) =>
        if !Accepts(r, from, p) then r
        else Queue(r, PropagateProposal(p)).(phase := r.phase.(accepted := Some(p)))
      case AttestationReceived(_, _) => r
  }

  // ----- polling

  function SignPreProposal(r: Round, own: PreProposal): Round
    requires r.phase.Collecting?
  {
    Queue(r, PropagatePreProposal(own)).(
      signedPres := r.signedPres + [own],
      phase := Collecting(PreProposing, r.phase.pres + {own}, r.phase.aggs, None))
  }

  function SignAggregation(r: Round, own: Aggregation): Round
    requires r.phase.Collecting?
  {
    Queue(r, PropagateAggregation(own)).(
      signedAggs := r.signedAggs + [own],
      phase := Collecting(Aggregating, {}, r.phase.aggs + {own}, None))
  }

  /** Take the solver's answer, if it is there, and start the submission. */
  function Build(r: Round, i: PollInput): Round
    requires r.phase.Proposing?
  {
    if !r.phase.matching then r
    else match i.solver
      case Unsolved => r
      case Failed => r.(phase := r.phase.(matching := false))
      case Solved(_, bundled) =>
        var r' := if bundled then r else Queue(r, PropagateEmptyBlockAttestation(r.height + 1));
        var p := OwnProposal(r, i);
        r'.(built := r.built + [p], phase := Proposing(r.phase.held, false, true, Some(p)))
  }

  /** Propagate the proposal once its transaction landed. */
  function Submit(r: Round, i: PollInput): Round
    requires r.phase.Proposing?
  {
    if !r.phase.submitting || i.landed.None? then r
    else if i.landed.value && r.phase.own.Some? then
      Queue(r, PropagateProposal(r.phase.own.value)).(phase := Proposing(r.phase.held, r.phase.matching, false, None))
    else r.(phase := r.phase.(submitting := false))
  }

  /** `poll_transition` of all states. */
  function Polled(r: Round, i: PollInput): Round {
    match r.phase
    case Collecting(stage, pres, aggs, accepted) =>
      if accepted.Some? then r.(phase := Finalizing(accepted.value, false))
      else (match stage
        case BidAggregation => if i.timeout then SignPreProposal(r, OwnPre(r, i)) else r
        case PreProposing => if |pres| >= QuorumSize(r) then SignAggregation(r, OwnAgg(r, i)) else r
        case Aggregating =>
          if |aggs| >= QuorumSize(r) && r.leader == r.me then r.(phase := Proposing(aggs, true, false, None)) else r)
    case Proposing(_, _, _, _) => Submit(Build(r, i), i)
    case Finalizing(p, _) => if i.verified then r.(phase := Finalizing(p, true)) else r
  }

  function Rank(p: Phase): nat {
    match p
    case Collecting(BidAggregation, _, _, _) => 0
    case Collecting(PreProposing, _, _, _) => 1
    case Collecting(Aggregating, _, _, _) => 2
    case Proposing(_, _, _, _) => 3
    case Finalizing(_, _) => 4
  }

  datatype Step = Receive(event: ConsensusEvent) | Poll(input: PollInput)

  function Apply(r: Round, s: Step): Round {
    match s
    case Receive(e) => Handled(r, e)
    case Poll(i) => Polled(r, i)
  }

  /** The node signs a pre-proposal / an aggregation in this step. */
  predicate SignsPre(r: Round, s: Step) {
    s.Poll? && Rank(r.phase) == 0 && r.phase.accepted.None? && s.input.timeout
  }

  predicate SignsAgg(r: Round, s: Step) {
    s.Poll? && Rank(r.phase) == 1 && r.phase.accepted.None? && |r.phase.pres| >= QuorumSize(r)
  }

  /** A node that signs an aggregation walks what it collected, and one that builds a proposal walks what
      it holds: each member once. */
  ghost predicate Walks(r: Round, i: PollInput) {
    && (SignsAgg(r, Poll(i)) ==> Lists(i.pres, r.phase.pres))
    && (r.phase.Proposing? && r.phase.matching && i.solver.Solved? ==> Lists(i.aggs, r.phase.held))
  }

  /** Nobody has echoed a message to its signer before the signer produced it. */
  predicate OwnUnseen(r: Round, s: Step) {
    (SignsPre(r, s) ==> OwnPre(r, s.input) !in r.phase.pres) && (SignsAgg(r, s) ==> OwnAgg(r, s.input) !in r.phase.aggs)
  }

  function PreCount(r: Round, p: PreProposal): nat {
    multiset(r.log)[PropagatePreProposal(p)]
  }

  function AggCount(r: Round, a: Aggregation): nat {
    multiset(r.log)[PropagateAggregation(a)]
  }

  /** The log holds each pre-proposal and aggregation at most once; while they are being collected it
      holds exactly the collected ones. */
  ghost predicate QueuedOnce(r: Round) {
    && (forall p :: PreCount(r, p) <= 1)
    && (forall a :: AggCount(r, a) <= 1)
    && (Rank(r.phase) <= 1 ==> forall p :: PreCount(r, p) == if p in r.phase.pres then 1 else 0)
    && (Rank(r.phase) <= 2 ==> forall a :: AggCount(r, a) == if a in r.phase.aggs then 1 else 0)
  }

  /** One signature of each kind, and a proposal only by the leader. */
  ghost predicate SignedOnce(r: Round) {
    && |r.signedPres| <= 1 && (Rank(r.phase) == 0 ==> r.signedPres == [])
    && |r.signedAggs| <= 1 && (Rank(r.phase) <= 1 ==> r.signedAggs == [])
    && |r.built| <= 1 && (r.built != [] ==> r.me == r.leader)
    && (Rank(r.phase) <= 2 || (r.phase.Proposing? && r.phase.matching) ==> r.built == [])
    && (r.phase.Proposing? ==> r.me == r.leader)
    && (r.phase.Proposing? && r.phase.submitting ==> r.built != [] && r.phase.own == Some(r.built[0]))
  }

  lemma QueueCounts(r: Round, m: ConsensusMessage)
    ensures forall p :: PreCount(Queue(r, m), p) == PreCount(r, p) + if m == PropagatePreProposal(p) then 1 else 0
    ensures forall a :: AggCount(Queue(r, m), a) == AggCount(r, a) + if m == PropagateAggregation(a) then 1 else 0
  {
    assert multiset(Queue(r, m).log) == multiset(r.log) + multiset{m};
  }

  lemma SameLog(r: Round, q: Round)
    requires r.log == q.log
    ensures (forall p :: PreCount(r, p) == PreCount(q, p)) && forall a :: AggCount(r, a) == AggCount(q, a)
  {
  }

  lemma HandledKeeps(r: Round, e: ConsensusEvent)
    requires QueuedOnce(r)
    ensures QueuedOnce(Handled(r, e))
  {
    hide PreCount, AggCount, ValidAggregation, ValidPreProposal, ValidProposal;
    var q := Handled(r, e);
    if q != r {
      var m := match e
        case PreProposalReceived(_, p) => PropagatePreProposal(p)
        case AggregationReceived(_, a) => PropagateAggregation(a)
        case ProposalReceived(_, p) => PropagateProposal(p)
        case AttestationReceived(_, h) => PropagateEmptyBlockAttestation(h);
      QueueCounts(r, m);
      SameLog(q, Queue(r, m));
    }
  }

  lemma SigningKeeps(r: Round, s: Step)
    requires QueuedOnce(r) && OwnUnseen(r, s) && (SignsPre(r, s) || SignsAgg(r, s))
    ensures QueuedOnce(Apply(r, s))
  {
    hide PreCount, AggCount;
    var m := if SignsPre(r, s) then PropagatePreProposal(OwnPre(r, s.input)) else PropagateAggregation(OwnAgg(r, s.input));
    QueueCounts(r, m);
    SameLog(Apply(r, s), Queue(r, m));
  }

  lemma ProposingKeeps(r: Round, i: PollInput)
    requires QueuedOnce(r) && r.phase.Proposing?
    ensures QueuedOnce(Polled(r, i))
  {
    hide PreCount, AggCount;
    var b := Build(r, i);
    var q := Submit(b, i);
    var m, m' := PropagateEmptyBlockAttestation(r.height + 1), PropagateProposal(if b.phase.own.Some? then b.phase.own.value else Proposal(0, 0, [], [], false));
    QueueCounts(r, m);
    QueueCounts(b, m');
    if b.log == r.log { SameLog(b, r); } else { SameLog(b, Queue(r, m)); }
    if q.log == b.log { SameLog(q, b); } else { SameLog(q, Queue(b, m')); }
  }

  lemma StepKeepsQueued(r: Round, s: Step)
    requires QueuedOnce(r) && OwnUnseen(r, s)
    ensures QueuedOnce(Apply(r, s))
  {
    hide PreCount, AggCount, Handled;
    match s
    case Receive(e) => HandledKeeps(r, e);
    case Poll(i) =>
      if SignsPre(r, s) || SignsAgg(r, s) {
        SigningKeeps(r, s);
      } else if r.phase.Proposing? {
        ProposingKeeps(r, i);
      } else {
        SameLog(r, Polled(r, i));
      }
  }

  lemma StepKeepsSigned(r: Round, s: Step)
    requires SignedOnce(r)
    ensures SignedOnce(Apply(r, s)) && Rank(r.phase) <= Rank(Apply(r, s).phase)
  {
    hide ValidAggregation, ValidPreProposal, ValidProposal;
  }

  // ----- runs of one round

  ghost predicate Unechoed(r: Round, run: seq<Step>)
    decreases run
  {
    run != [] ==> OwnUnseen(r, run[0]) && Unechoed(Apply(r, run[0]), run[1..])
  }

  function ApplyAll(r: Round, run: seq<Step>): Round
    decreases run
  {
    if run == [] then r else ApplyAll(Apply(r, run[0]), run[1..])
  }

  lemma {:induction false} RunKeeps(r: Round, run: seq<Step>)
    requires QueuedOnce(r) && SignedOnce(r) && Unechoed(r, run)
    ensures QueuedOnce(ApplyAll(r, run)) && SignedOnce(ApplyAll(r, run))
    ensures Rank(r.phase) <= Rank(ApplyAll(r, run).phase)
    decreases run
  {
    hide QueuedOnce, SignedOnce, Apply, Rank, OwnUnseen;
    if run != [] {
      StepKeepsQueued(r, run[0]);
      StepKeepsSigned(r, run[0]);
      RunKeeps(Apply(r, run[0]), run[1..]);
    }
  }

  lemma FreshOnce(me: Address, validators: seq<Address>, height: nat, leader: Address)
    ensures QueuedOnce(Fresh(me, validators, height, leader)) && SignedOnce(Fresh(me, validators, height, leader))
  {
  }

  /** Within a round the phase never goes back, a node signs at most one pre-proposal and one aggregation
      and builds at most one proposal (only as leader), and every pre-proposal and aggregation is queued
      for broadcast at most once, across all state changes. */
  lemma RoundTheorem(me: Address, validators: seq<Address>, height: nat, leader: Address, xs: seq<Step>, ys: seq<Step>)
    requires Unechoed(Fresh(me, validators, height, leader), xs)
    requires Unechoed(ApplyAll(Fresh(me, validators, height, leader), xs), ys)
    ensures var r := ApplyAll(Fresh(me, validators, height, leader), xs);
            var r' := ApplyAll(r, ys);
            && Rank(r.phase) <= Rank(r'.phase)
            && |r'.signedPres| <= 1 && |r'.signedAggs| <= 1 && |r'.built| <= 1
            && (r'.built != [] ==> r'.me == r'.leader)
            && (forall p :: PreCount(r', p) <= 1) && forall a :: AggCount(r', a) <= 1
  {
    hide Rank, PreCount, AggCount, Unechoed, ApplyAll, Fresh;
    FreshOnce(me, validators, height, leader);
    RunKeeps(Fresh(me, validators, height, leader), xs);
    RunKeeps(ApplyAll(Fresh(me, validators, height, leader), xs), ys);
  }

  /** The freshness condition is exact: signing a message that was already collected queues it twice. */
  lemma EchoQueuesTwice(r: Round, s: Step)
    requires QueuedOnce(r) && (SignsPre(r, s) || SignsAgg(r, s))
    ensures QueuedOnce(Apply(r, s)) <==> OwnUnseen(r, s)
  {
    hide PreCount, AggCount;
    if OwnUnseen(r, s) {
      SigningKeeps(r, s);
    } else {
      var m := if SignsPre(r, s) then PropagatePreProposal(OwnPre(r, s.input)) else PropagateAggregation(OwnAgg(r, s.input));
      QueueCounts(r, m);
      SameLog(Apply(r, s), Queue(r, m));
      assert SignsPre(r, s) ==> PreCount(Apply(r, s), OwnPre(r, s.input)) == 2;
      assert SignsAgg(r, s) ==> AggCount(Apply(r, s), OwnAgg(r, s.input)) == 2;
    }
  }

  lemma SameParties(r: Round, s: Step)
    ensures var q := Apply(r, s);
            q.me == r.me && q.validators == r.validators && q.leader == r.leader && q.height == r.height
  {
    hide ValidAggregation, ValidPreProposal, ValidProposal, TwoThirds;
  }

  lemma StepKeepsBuilt(r: Round, s: Step)
    ensures |r.built| <= |Apply(r, s).built|
  {
    hide ValidAggregation, ValidPreProposal, ValidProposal, TwoThirds, SortByPool;
  }

  lemma {:induction false} RunKeepsSigned(r: Round, run: seq<Step>)
    requires SignedOnce(r)
    ensures SignedOnce(ApplyAll(r, run)) && |r.built| <= |ApplyAll(r, run).built|
    decreases run
  {
    hide Apply, SignedOnce, Rank;
    if run != [] {
      StepKeepsSigned(r, run[0]);
      StepKeepsBuilt(r, run[0]);
      RunKeepsSigned(Apply(r, run[0]), run[1..]);
    }
  }

  // ----- what a poll signs, builds and says

  /** One's own pre-proposal is among those collected, and one's own aggregation too. */
  ghost predicate OwnIsIn(r: Round) {
    && (Rank(r.phase) == 1 ==> r.signedPres != [] && r.signedPres[0] in r.phase.pres)
    && (Rank(r.phase) == 2 ==> r.signedAggs != [] && r.signedAggs[0] in r.phase.aggs)
    && (r.phase.Proposing? ==> r.signedAggs != [] && r.signedAggs[0] in r.phase.held)
  }

  lemma StepKeepsOwn(r: Round, s: Step)
    requires OwnIsIn(r) && SignedOnce(r)
    ensures OwnIsIn(Apply(r, s))
  {
    hide ValidAggregation, ValidPreProposal, ValidProposal, TwoThirds, SortByPool;
  }

  lemma {:induction false} RunKeepsOwn(r: Round, run: seq<Step>)
    requires OwnIsIn(r) && SignedOnce(r)
    ensures var q := ApplyAll(r, run);
            && OwnIsIn(q) && SignedOnce(q)
            && q.me == r.me && q.validators == r.validators && q.leader == r.leader && q.height == r.height
    decreases run
  {
    hide Apply, SignedOnce, OwnIsIn, Rank;
    if run != [] {
      StepKeepsSigned(r, run[0]);
      StepKeepsOwn(r, run[0]);
      SameParties(r, run[0]);
      RunKeepsOwn(Apply(r, run[0]), run[1..]);
    }
  }

  /** The node is in this collecting state and follows no proposal. */
  predicate At(r: Round, stage: Stage) {
    r.phase.Collecting? && r.phase.stage == stage && r.phase.accepted.None?
  }

  /** After any run of a round: a poll signs a pre-proposal if and only if bids are being collected and the
      timer has fired, and it is one of the node's own orders of either kind. It signs an aggregation if and
      only if two thirds of the validators' pre-proposals are there, and it lists exactly those collected,
      the node's own among them. Each is queued for broadcast at once, and nothing else is in these states. */
  lemma SigningTheorem(
    me: Address, validators: seq<Address>, height: nat, leader: Address, run: seq<Step>, i: PollInput)
    requires var r := ApplyAll(Fresh(me, validators, height, leader), run);
             r.phase.Collecting? && Walks(r, i)
    ensures var r := ApplyAll(Fresh(me, validators, height, leader), run);
            var q := Polled(r, i);
            && (|q.signedPres| > |r.signedPres| <==> At(r, BidAggregation) && i.timeout)
            && (|q.signedAggs| > |r.signedAggs| <==> At(r, PreProposing) && 3 * |r.phase.pres| >= 2 * |validators|)
            && (|q.signedPres| > |r.signedPres| ==>
                  var p := PreProposal(height, me, i.limit, i.searcher, true);
                  && q.signedPres == [p] && q.log == r.log + [PropagatePreProposal(p)] && q.signedAggs == r.signedAggs
                  && q.phase == Collecting(PreProposing, r.phase.pres + {p}, r.phase.aggs, None))
            && (|q.signedAggs| > |r.signedAggs| ==>
                  && |q.signedAggs| == 1 && q.signedPres == r.signedPres
                  && var a := q.signedAggs[0];
                     && a == Aggregation(height, me, a.preProposals, true) && Lists(a.preProposals, r.phase.pres)
                     && r.signedPres != [] && r.signedPres[0] in a.preProposals
                     && q.log == r.log + [PropagateAggregation(a)]
                     && q.phase == Collecting(Aggregating, {}, r.phase.aggs + {a}, None))
            && (|q.signedPres| <= |r.signedPres| && |q.signedAggs| <= |r.signedAggs| ==>
                  q == r.(phase := q.phase))
  {
    hide ApplyAll, TwoThirds, Lists, QueuedOnce;
    FreshOnce(me, validators, height, leader);
    RunKeepsOwn(Fresh(me, validators, height, leader), run);
    var r := ApplyAll(Fresh(me, validators, height, leader), run);
    QuorumIff(|r.phase.pres|, |validators|);
    if At(r, PreProposing) && Lists(i.pres, r.phase.pres) {
      ListsHas(i.pres, r.phase.pres);
    }
  }

  lemma ListsHas<T(!new)>(q: seq<T>, s: set<T>)
    requires Lists(q, s)
    ensures forall x :: x in s ==> x in q
  {
  }

  /** After any run: a node goes on to check a proposal if and only if it follows one, and to propose if and
      only if it is the leader, follows none and holds the aggregations of two thirds of the validators. If it
      does neither and signs nothing, it stays as it was. */
  lemma TurningTheorem(
    me: Address, validators: seq<Address>, height: nat, leader: Address, run: seq<Step>, i: PollInput)
    requires ApplyAll(Fresh(me, validators, height, leader), run).phase.Collecting?
    ensures var r := ApplyAll(Fresh(me, validators, height, leader), run);
            var q := Polled(r, i);
            && (q.phase.Finalizing? <==> r.phase.accepted.Some?)
            && (q.phase.Finalizing? ==> q == r.(phase := Finalizing(r.phase.accepted.value, false)))
            && (q.phase.Proposing? <==> At(r, Aggregating) && me == leader && 3 * |r.phase.aggs| >= 2 * |validators|)
            && (q.phase.Proposing? ==> q == r.(phase := Proposing(r.phase.aggs, true, false, None)))
            && (q.phase.Collecting? && q.signedPres == r.signedPres && q.signedAggs == r.signedAggs ==> q == r)
  {
    hide ApplyAll, TwoThirds, QueuedOnce, SignedOnce;
    FreshOnce(me, validators, height, leader);
    RunKeepsOwn(Fresh(me, validators, height, leader), run);
    var r := ApplyAll(Fresh(me, validators, height, leader), run);
    QuorumIff(|r.phase.aggs|, |validators|);
  }

  /** Any node that computes the solutions the leader's solver computed accepts them. */
  lemma SortedPasses(solutions: seq<Solution>, computed: seq<Solution>)
    requires OnePerPool(computed) && multiset(computed) == multiset(solutions)
    ensures Verified(SortByPool(solutions), computed)
  {
    hide SortByPool, OnePerPool, Verified;
    SortFacts(solutions);
    VerifiedIffSame(SortByPool(solutions), computed);
  }

  /** After any run: a proposer builds its proposal in the poll in which the solver answers, from exactly the
      aggregations it holds, its own among them, and with the solver's solutions, so that whoever computes the
      same ones accepts it. It says that the block is empty if and only if there is no bundle. A failed solver
      ends the attempt. */
  lemma BuildingTheorem(
    me: Address, validators: seq<Address>, height: nat, leader: Address, run: seq<Step>, i: PollInput)
    requires var r := ApplyAll(Fresh(me, validators, height, leader), run); r.phase.Proposing? && Walks(r, i)
    ensures var r := ApplyAll(Fresh(me, validators, height, leader), run);
            var q := Build(r, i);
            && (q.built != r.built <==> r.phase.matching && i.solver.Solved?)
            && (r.phase.matching && i.solver.Solved? ==>
                  && |q.built| == 1
                  && var p := q.built[0];
                     && p == Proposal(height, me, p.preproposals, p.solutions, true) && Lists(p.preproposals, r.phase.held)
                     && r.signedAggs != [] && r.signedAggs[0] in p.preproposals
                     && multiset(p.solutions) == multiset(i.solver.solutions)
                     && (forall computed :: OnePerPool(computed) && multiset(computed) == multiset(i.solver.solutions) ==>
                           Verified(p.solutions, computed))
                     && q.phase == Proposing(r.phase.held, false, true, Some(p))
                     && q.log == r.log + if i.solver.bundled then [] else [PropagateEmptyBlockAttestation(height + 1)])
            && (r.phase.matching && i.solver.Failed? ==> q == r.(phase := r.phase.(matching := false)))
            && (!r.phase.matching || i.solver.Unsolved? ==> q == r)
  {
    hide ApplyAll, TwoThirds, Lists, QueuedOnce, SortByPool, Verified, OnePerPool;
    FreshOnce(me, validators, height, leader);
    RunKeepsOwn(Fresh(me, validators, height, leader), run);
    var r := ApplyAll(Fresh(me, validators, height, leader), run);
    if r.phase.matching && i.solver.Solved? {
      ListsHas(i.aggs, r.phase.held);
      SortFacts(i.solver.solutions);
      forall computed | OnePerPool(computed) && multiset(computed) == multiset(i.solver.solutions)
        ensures Verified(SortByPool(i.solver.solutions), computed)
      {
        SortedPasses(i.solver.solutions, computed);
      }
    }
  }

  /** After any run: the proposal goes out once, when its transaction has landed, and never if that failed; and
      a check ends when the verification is done. */
  lemma EndingTheorem(
    me: Address, validators: seq<Address>, height: nat, leader: Address, run: seq<Step>, i: PollInput)
    requires !ApplyAll(Fresh(me, validators, height, leader), run).phase.Collecting?
    ensures var r := ApplyAll(Fresh(me, validators, height, leader), run);
            var q := Polled(r, i);
            && (r.phase.Finalizing? ==> q == r.(phase := Finalizing(r.phase.checked, r.phase.completed || i.verified)))
            && (r.phase.Proposing? ==>
                  var b := Build(r, i);
                  if !b.phase.submitting || i.landed.None? then q == b
                  else
                    && b.built != [] && q.built == b.built && q.phase.Proposing? && !q.phase.submitting
                    && q.phase.matching == b.phase.matching && q.phase.held == b.phase.held
                    && q.log == b.log + if i.landed.value then [PropagateProposal(b.built[0])] else [])
  {
    hide ApplyAll, TwoThirds, QueuedOnce, SortByPool;
    FreshOnce(me, validators, height, leader);
    RunKeepsOwn(Fresh(me, validators, height, leader), run);
    var r := ApplyAll(Fresh(me, validators, height, leader), run);
    if r.phase.Proposing? {
      BuildKeepsSigned(r, i);
    }
  }

  lemma BuildKeepsSigned(r: Round, i: PollInput)
    requires SignedOnce(r) && r.phase.Proposing?
    ensures SignedOnce(Build(r, i))
  {
    hide SortByPool;
  }

  // ----- the state machine object

  class RoundStateMachine {
    const me: Address
    const validators: seq<Address>
    var height: nat
    var leader: Address
    var phase: Phase
    var messages: seq<ConsensusMessage>
    ghost var log: seq<ConsensusMessage>
    ghost var signedPres: seq<PreProposal>
    ghost var signedAggs: seq<Aggregation>
    ghost var built: seq<Proposal>

    ghost function Value(): Round
      reads this
    {
      Round(me, validators, height, leader, phase, messages, log, signedPres, signedAggs, built)
    }

    constructor (me: Address, validators: seq<Address>, height: nat, leader: Address)
      ensures Value() == Fresh(me, validators, height, leader)
    {
      this.me, this.validators, this.height, this.leader := me, validators, height, leader;
      phase, messages := Collecting(BidAggregation, {}, {}, None), [];
      log, signedPres, signedAggs, built := [], [], [], [];
    }

    method ResetRound(newBlock: nat, newLeader: Address)
      modifies this
      ensures Value() == Reset(old(Value()), newBlock, newLeader)
    {
      height, leader := newBlock, newLeader;
      phase := Collecting(BidAggregation, {}, {}, None);
      log, signedPres, signedAggs, built := [], [], [], [];
    }

    method PropagateMessage(m: ConsensusMessage)
      modifies this`messages, this`log
      ensures Value() == Queue(old(Value()), m)
    {
      messages := messages + [m];
      log := log + [m];
    }

    method HandleMessage(e: ConsensusEvent)
      modifies this
      ensures Value() == Handled(old(Value()), e)
    {
      if !phase.Collecting? {
        return;
      }
      match e
      case PreProposalReceived(from, p) =>
        if !phase.stage.Aggregating? && from in validators && ValidPreProposal(p, height) && p !in phase.pres {
          PropagateMessage(PropagatePreProposal(p));
          phase := phase.(pres := phase.pres + {p});
        }
      case AggregationReceived(from, a) =>
        if from in validators && ValidAggregation(a, height, TwoThirds(|validators|)) && a !in phase.aggs {
          PropagateMessage(PropagateAggregation(a));
          phase := phase.(aggs := phase.aggs + {a});
        }
      case ProposalReceived(from, p) =>
        if from == leader && ValidProposal(p, height, TwoThirds(|validators|)) {
          PropagateMessage(PropagateProposal(p));
          phase := phase.(accepted := Some(p));
        }
      case AttestationReceived(_, _) =>
    }

    method PollTransition(i: PollInput) returns (ghost j: PollInput)
      modifies this
      ensures j == i.(pres := j.pres, aggs := j.aggs) && Walks(old(Value()), j)
      ensures Value() == Polled(old(Value()), j)
    {
      hide Lists, SortByPool, TwoThirds;
      j := i;
      match phase
      case Collecting(stage, pres, aggs, accepted) =>
        if accepted.Some? {
          phase := Finalizing(accepted.value, false);
        } else if stage.BidAggregation? && i.timeout {
          var own := PreProposal(height, me, i.limit, i.searcher, true);
          PropagateMessage(PropagatePreProposal(own));
          signedPres := signedPres + [own];
          phase := Collecting(PreProposing, pres + {own}, aggs, None);
        } else if stage.PreProposing? && |pres| >= TwoThirds(|validators|) {
          var list := Collected(pres);
          j := i.(pres := list);
          var own := Aggregation(height, me, list, true);
          PropagateMessage(PropagateAggregation(own));
          signedAggs := signedAggs + [own];
          phase := Collecting(Aggregating, {}, aggs + {own}, None);
        } else if stage.Aggregating? && |aggs| >= TwoThirds(|validators|) && leader == me {
          phase := Proposing(aggs, true, false, None);
        }
      case Proposing(_, _, _, _) =>
        j := TryBuildProposal(i);
        if phase.submitting && i.landed.Some? {
          if i.landed.value && phase.own.Some? {
            PropagateMessage(PropagateProposal(phase.own.value));
            phase := Proposing(phase.held, phase.matching, false, None);
          } else {
            phase := phase.(submitting := false);
          }
        }
      case Finalizing(p, _) =>
        if i.verified {
          phase := Finalizing(p, true);
        }
    }

    method TryBuildProposal(i: PollInput) returns (ghost j: PollInput)
      requires phase.Proposing?
      modifies this
      ensures j == i.(aggs := j.aggs) && Walks(old(Value()), j)
      ensures Value() == Build(old(Value()), j) && phase.Proposing?
    {
      j := i;
      if phase.matching {
        match i.solver
        case Unsolved =>
        case Failed => phase := phase.(matching := false);
        case Solved(solutions, bundled) =>
          var list := Collected(phase.held);
          j := i.(aggs := list);
          var own := Proposal(height, me, list, SortByPool(solutions), true);
          if !bundled {
            PropagateMessage(PropagateEmptyBlockAttestation(height + 1));
          }
          built := built + [own];
          phase := Proposing(phase.held, false, true, Some(own));
      }
    }

    /** The queued message `poll_next` hands out, first in first out. */
    method NextMessage() returns (m: Option<ConsensusMessage>)
      modifies this`messages
      ensures old(messages) == [] ==> m == None && messages == []
      ensures old(messages) != [] ==> m == Some(old(messages)[0]) && messages == old(messages)[1..]
    {
      if messages == [] {
        return None;
      }
      m, messages := Some(messages[0]), messages[1..];
    }
  }
}
