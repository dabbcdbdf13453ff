/**
 The order validator: it hands orders to the validation client, holds them back while the node moves
 to a new block, and tells the pool when to clean up and when the move is complete.

 `client` is the block the validation client works at. It moves at some moment while the validator
 waits for the client's answer, which is why every job remembers the block it began at.
 */
module OrderValidators {
  import opened FiniteSums
  import opened Options
  import opened Orders

  datatype Phase = Regular | Clearing | Cleanup | Inform

  datatype Job = Job(order: Order, began: nat)

  /** `block`, `completed` and `addresses` are those of the transition under way. */
  datatype Validator = Validator(
    phase: Phase, inflight: seq<Job>, waiting: seq<Order>, client: nat,
    block: nat, completed: seq<Order>, addresses: seq<Address>)

  datatype ValidatorRes =
    | Validated(order: Order)
    | EnsureClear(block: nat, completed: seq<Order>, addresses: seq<Address>)
    | TransitionComplete

  function Idle(client: nat): Validator {
    Validator(Regular, [], [], client, 0, [], [])
  }

  function OnNewBlock(v: Validator, block: nat, completed: seq<Order>, addresses: seq<Address>): Validator
    requires v.phase.Regular?
  {
    v.(phase := Clearing, waiting := [], block := block, completed := completed, addresses := addresses)
  }

  function NotifyChanges(v: Validator, block: nat): Validator {
    if v.phase.Cleanup? then v.(phase := Inform, block := block) else v
  }

  function Submit(v: Validator, o: Order): Validator {
    if v.phase.Regular? then v.(inflight := v.inflight + [Job(o, v.client)]) else v.(waiting := v.waiting + [o])
  }

  /** The client finishes moving to the block it was told about. */
  function ClientMoves(v: Validator): Validator {
    if v.phase.Inform? then v.(client := v.block) else v
  }

  function Without(q: seq<Job>, i: nat): seq<Job>
    requires i < |q|
  {
    q[..i] + q[i + 1..]
  }

  function Jobs(q: seq<Order>, client: nat): seq<Job> {
    seq(|q|, i requires 0 <= i < |q| => Job(q[i], client))
  }

  /** `ready` is the index of a job whose future resolved; `informed` says that the client answered. */
  predicate CanPoll(v: Validator, ready: Option<nat>, informed: bool) {
    && (ready.Some? ==> ready.value < |v.inflight|)
    && (informed && v.phase.Inform? ==> v.client == v.block)
  }

  function Poll(v: Validator, ready: Option<nat>, informed: bool): (r: (Validator, Option<ValidatorRes>))
    requires CanPoll(v, ready, informed)
  {
    match v.phase
    case Regular =>
      if ready.Some? then
        (v.(inflight := Without(v.inflight, ready.value)), Some(Validated(v.inflight[ready.value].order)))
      else (v, None)
    case Clearing =>
      if ready.Some? then
        (v.(inflight := Without(v.inflight, ready.value)), Some(Validated(v.inflight[ready.value].order)))
      else if v.inflight != [] then (v, None)
      else
        (v.(phase := Cleanup, completed := [], addresses := []), Some(EnsureClear(v.block, v.completed, v.addresses)))
    case Cleanup => (v, None)
    case Inform =>
      if informed then
        (v.(phase := Regular, inflight := Jobs(v.waiting, v.client), waiting := []), Some(TransitionComplete))
      else (v, None)
  }

  // ----- traces

  /** What happened, in sequence: orders handed in, blocks announced, and what the validator said. */
  datatype Event =
    | Submitted(order: Order)
    | BlockStarted(block: nat, completed: seq<Order>, addresses: seq<Address>)
    | Said(res: ValidatorRes)

  datatype ValidatorStep =
    | DoSubmit(order: Order)
    | DoBlock(block: nat, completed: seq<Order>, addresses: seq<Address>)
    | DoNotify(block: nat)
    | DoMove
    | DoPoll(ready: Option<nat>, informed: bool)

  /** A new block is announced in regular processing only: the source panics otherwise. */
  predicate StepAllowed(v: Validator, s: ValidatorStep) {
    (s.DoBlock? ==> v.phase.Regular?) && (s.DoPoll? ==> CanPoll(v, s.ready, s.informed))
  }

  function Stepped(v: Validator, s: ValidatorStep): Validator
    requires StepAllowed(v, s)
  {
    match s
    case DoSubmit(o) => Submit(v, o)
    case DoBlock(b, c, a) => OnNewBlock(v, b, c, a)
    case DoNotify(b) => NotifyChanges(v, b)
    case DoMove => ClientMoves(v)
    case DoPoll(ready, informed) => Poll(v, ready, informed).0
  }

  function Shown(v: Validator, s: ValidatorStep): seq<Event>
    requires StepAllowed(v, s)
  {
    match s
    case DoSubmit(o) => [Submitted(o)]
    case DoBlock(b, c, a) => [BlockStarted(b, c, a)]
    case DoNotify(_) => []
    case DoMove => []
    case DoPoll(ready, informed) =>
      var r := Poll(v, ready, informed).1;
      if r.Some? then [Said(r.value)] else []
  }

  predicate IsMark(e: Event) {
    e.BlockStarted? || (e.Said? && !e.res.Validated?)
  }

  /** The last event that is neither an order nor a result. */
  function LastMark(t: seq<Event>): Option<Event> {
    if t == [] then None
    else if IsMark(t[|t| - 1]) then Some(t[|t| - 1])
    else LastMark(t[..|t| - 1])
  }

  /** Which events may come next after the mark `m`. */
  predicate MayFollow(m: Option<Event>, e: Event) {
    match e
    case Submitted(_) => true
    case BlockStarted(_, _, _) => m.None? || m == Some(Said(TransitionComplete))
    case Said(Validated(_)) => m.None? || m.value.BlockStarted? || m == Some(Said(TransitionComplete))
    case Said(EnsureClear(b, c, a)) => m == Some(BlockStarted(b, c, a))
    case Said(TransitionComplete) => m.Some? && m.value.Said? && m.value.res.EnsureClear?
  }

  /** Per block: the remaining results, one clean-up request for that very block, one completion. */
  ghost predicate WellOrdered(t: seq<Event>) {
    forall i :: 0 <= i < |t| ==> MayFollow(LastMark(t[..i]), t[i])
  }

  function Arrived(t: seq<Event>): seq<Order> {
    if t == [] then []
    else Arrived(t[..|t| - 1]) + if t[|t| - 1].Submitted? then [t[|t| - 1].order] else []
  }

  function Answered(t: seq<Event>): seq<Order> {
    if t == [] then []
    else
      var e := t[|t| - 1];
      Answered(t[..|t| - 1]) + if e.Said? && e.res.Validated? then [e.res.order] else []
  }

  /** A transition is open: its block was announced and its completion is still to come. */
  predicate Open(t: seq<Event>) {
    var m := LastMark(t);
    m.Some? && m != Some(Said(TransitionComplete))
  }

  /** The orders that may be validated: all that arrived, up to the announcement of an open transition. */
  function Admitted(t: seq<Event>): seq<Order> {
    if t == [] then []
    else
      var e, u := t[|t| - 1], t[..|t| - 1];
      if e == Said(TransitionComplete) then Arrived(u)
      else if e.Submitted? && !Open(u) then Admitted(u) + [e.order]
      else Admitted(u)
  }

  ghost predicate MatchesPhase(v: Validator, m: Option<Event>) {
    match v.phase
    case Regular => m.None? || m == Some(Said(TransitionComplete))
    case Clearing => m == Some(BlockStarted(v.block, v.completed, v.addresses))
    case Cleanup => m.Some? && m.value.Said? && m.value.res.EnsureClear?
    case Inform => m.Some? && m.value.Said? && m.value.res.EnsureClear?
  }

  function OrdersOf(q: seq<Job>): seq<Order> {
    seq(|q|, i requires 0 <= i < |q| => q[i].order)
  }

  ghost predicate Inv(v: Validator, t: seq<Event>) {
    && WellOrdered(t)
    && MatchesPhase(v, LastMark(t))
    && Arrived(t) == Admitted(t) + v.waiting
    && (v.phase.Regular? ==> v.waiting == [])
    && (v.phase.Cleanup? || v.phase.Inform? ==> v.inflight == [])
    && multiset(Admitted(t)) == multiset(OrdersOf(v.inflight)) + multiset(Answered(t))
    && (forall j :: j in v.inflight ==> j.began == v.client)
  }

  lemma Snoc(t: seq<Event>, e: Event)
    ensures (t + [e])[..|t|] == t && (t + [e])[|t|] == e && |t + [e]| == |t| + 1
  {
  }

  lemma SnocFacts(t: seq<Event>, e: Event)
    ensures LastMark(t + [e]) == if IsMark(e) then Some(e) else LastMark(t)
    ensures Arrived(t + [e]) == Arrived(t) + if e.Submitted? then [e.order] else []
    ensures Answered(t + [e]) == Answered(t) + if e.Said? && e.res.Validated? then [e.res.order] else []
    ensures Admitted(t + [e]) ==
            if e == Said(TransitionComplete) then Arrived(t)
            else if e.Submitted? && !Open(t) then Admitted(t) + [e.order]
            else Admitted(t)
  {
    hide Open;
    Snoc(t, e);
  }

  lemma SnocOrdered(t: seq<Event>, e: Event)
    requires WellOrdered(t) && MayFollow(LastMark(t), e)
    ensures WellOrdered(t + [e])
  {
    hide LastMark, MayFollow;
    Snoc(t, e);
    forall i | 0 <= i < |t + [e]|
      ensures MayFollow(LastMark((t + [e])[..i]), (t + [e])[i])
    {
      if i < |t| {
        assert (t + [e])[..i] == t[..i];
      }
    }
  }

  lemma WithoutOrders(q: seq<Job>, i: nat)
    requires i < |q|
    ensures multiset(OrdersOf(q)) == multiset(OrdersOf(Without(q, i))) + multiset{q[i].order}
    ensures forall j :: j in Without(q, i) ==> j in q
  {
    assert OrdersOf(Without(q, i)) == OrdersOf(q)[..i] + OrdersOf(q)[i + 1..];
    assert OrdersOf(q) == OrdersOf(q)[..i] + [q[i].order] + OrdersOf(q)[i + 1..];
  }

  lemma OneMoreJob(q: seq<Job>, o: Order, client: nat)
    ensures OrdersOf(q + [Job(o, client)]) == OrdersOf(q) + [o]
  {
  }

  lemma SubmitMatches(v: Validator, m: Option<Event>, o: Order)
    requires MatchesPhase(v, m)
    ensures MatchesPhase(Submit(v, o), m)
    ensures v.phase.Regular? <==> m.None? || m == Some(Said(TransitionComplete))
  {
  }

  lemma SubmitKeeps(v: Validator, t: seq<Event>, o: Order)
    requires Inv(v, t)
    ensures Inv(Submit(v, o), t + [Submitted(o)])
  {
    hide LastMark, Arrived, Answered, Admitted, WellOrdered, OrdersOf, MatchesPhase;
    SnocFacts(t, Submitted(o));
    SubmitMatches(v, LastMark(t), o);
    SnocOrdered(t, Submitted(o));
    OneMoreJob(v.inflight, o, v.client);
  }

  lemma AnswerKeeps(v: Validator, t: seq<Event>, i: nat)
    requires Inv(v, t) && i < |v.inflight|
    ensures Inv(v.(inflight := Without(v.inflight, i)), t + [Said(Validated(v.inflight[i].order))])
  {
    hide LastMark, Arrived, Answered, Admitted, WellOrdered, OrdersOf, Without;
    var e := Said(Validated(v.inflight[i].order));
    SnocFacts(t, e);
    SnocOrdered(t, e);
    WithoutOrders(v.inflight, i);
    assert multiset(Answered(t) + [v.inflight[i].order]) == multiset(Answered(t)) + multiset{v.inflight[i].order};
  }

  lemma ClearKeeps(v: Validator, t: seq<Event>)
    requires Inv(v, t) && v.phase.Clearing? && v.inflight == []
    ensures Inv(v.(phase := Cleanup, completed := [], addresses := []), t + [Said(EnsureClear(v.block, v.completed, v.addresses))])
  {
    hide LastMark, Arrived, Answered, Admitted, WellOrdered, OrdersOf;
    var e := Said(EnsureClear(v.block, v.completed, v.addresses));
    SnocFacts(t, e);
    SnocOrdered(t, e);
  }

  lemma CompleteKeeps(v: Validator, t: seq<Event>)
    requires Inv(v, t) && v.phase.Inform?
    ensures Inv(v.(phase := Regular, inflight := Jobs(v.waiting, v.client), waiting := []), t + [Said(TransitionComplete)])
  {
    hide LastMark, Arrived, Answered, Admitted, WellOrdered;
    var e := Said(TransitionComplete);
    SnocFacts(t, e);
    SnocOrdered(t, e);
    assert OrdersOf(Jobs(v.waiting, v.client)) == v.waiting && OrdersOf(v.inflight) == [];
    assert multiset(Admitted(t) + v.waiting) == multiset(Admitted(t)) + multiset(v.waiting);
  }

  lemma PollKeeps(v: Validator, t: seq<Event>, ready: Option<nat>, informed: bool)
    requires Inv(v, t) && CanPoll(v, ready, informed) && Poll(v, ready, informed).1.Some?
    ensures Inv(Poll(v, ready, informed).0, t + [Said(Poll(v, ready, informed).1.value)])
  {
    hide Inv, Without, Jobs;
    match Poll(v, ready, informed).1.value
    case Validated(_) => AnswerKeeps(v, t, ready.value);
    case EnsureClear(_, _, _) => ClearKeeps(v, t);
    case TransitionComplete => CompleteKeeps(v, t);
  }

  lemma StepKeepsInv(v: Validator, t: seq<Event>, s: ValidatorStep)
    requires Inv(v, t) && StepAllowed(v, s)
    ensures Inv(Stepped(v, s), t + Shown(v, s))
  {
    hide LastMark, Arrived, Answered, Admitted, WellOrdered;
    assert t + [] == t;
    match s
    case DoSubmit(o) => SubmitKeeps(v, t, o);
    case DoBlock(b, c, a) =>
      SnocFacts(t, BlockStarted(b, c, a));
      SnocOrdered(t, BlockStarted(b, c, a));
    case DoNotify(_) =>
    case DoMove =>
    case DoPoll(ready, informed) =>
      if Poll(v, ready, informed).1.Some? {
        PollKeeps(v, t, ready, informed);
      }
  }

  ghost predicate LegalRun(v: Validator, run: seq<ValidatorStep>)
    decreases run
  {
    run != [] ==> StepAllowed(v, run[0]) && LegalRun(Stepped(v, run[0]), run[1..])
  }

  function RunFrom(v: Validator, run: seq<ValidatorStep>): Validator
    requires LegalRun(v, run)
    decreases run
  {
    if run == [] then v else RunFrom(Stepped(v, run[0]), run[1..])
  }

  function Trace(v: Validator, run: seq<ValidatorStep>): seq<Event>
    requires LegalRun(v, run)
    decreases run
  {
    if run == [] then [] else Shown(v, run[0]) + Trace(Stepped(v, run[0]), run[1..])
  }

  lemma {:induction false} RunKeepsInv(v: Validator, t: seq<Event>, run: seq<ValidatorStep>)
    requires Inv(v, t) && LegalRun(v, run)
    ensures Inv(RunFrom(v, run), t + Trace(v, run))
    decreases run
  {
    hide Inv, Stepped, Shown, StepAllowed;
    if run == [] {
      assert t + [] == t;
    } else {
      StepKeepsInv(v, t, run[0]);
      RunKeepsInv(Stepped(v, run[0]), t + Shown(v, run[0]), run[1..]);
      assert t + (Shown(v, run[0]) + Trace(Stepped(v, run[0]), run[1..])) == t + Shown(v, run[0]) + Trace(Stepped(v, run[0]), run[1..]);
    }
  }

  /** Over every run: events come in the order the protocol asks for; every order that arrived is
      answered, being validated or held back, and none twice; orders are handed to the client in arrival
      order; results are only ever for orders admitted; all work in flight began at the client's block. */
  lemma ValidatorTheorem(client: nat, run: seq<ValidatorStep>)
    requires LegalRun(Idle(client), run)
    ensures var v, t := RunFrom(Idle(client), run), Trace(Idle(client), run);
            && WellOrdered(t)
            && multiset(Arrived(t)) == multiset(Answered(t)) + multiset(OrdersOf(v.inflight)) + multiset(v.waiting)
            && Arrived(t) == Admitted(t) + v.waiting
            && multiset(Answered(t)) <= multiset(Admitted(t))
            && (forall j :: j in v.inflight ==> j.began == v.client)
  {
    hide RunFrom, Trace, WellOrdered, Arrived, Answered, Admitted, LastMark, LegalRun;
    StartInv(client);
    RunKeepsInv(Idle(client), [], run);
    assert [] + Trace(Idle(client), run) == Trace(Idle(client), run);
  }

  lemma StartInv(client: nat)
    ensures Inv(Idle(client), [])
  {
  }

  /** In every run, when the pool is told to clean up, the orders answered so far are exactly those that
      arrived before the block was announced; the later ones are held back. */
  lemma BarrierIsExact(client: nat, run: seq<ValidatorStep>, ready: Option<nat>, informed: bool)
    requires LegalRun(Idle(client), run) && CanPoll(RunFrom(Idle(client), run), ready, informed)
    requires var r := Poll(RunFrom(Idle(client), run), ready, informed).1; r.Some? && r.value.EnsureClear?
    ensures var v, t := RunFrom(Idle(client), run), Trace(Idle(client), run);
            multiset(Answered(t)) == multiset(Admitted(t)) && Arrived(t) == Admitted(t) + v.waiting && Open(t)
  {
    hide RunFrom, Trace, WellOrdered, Arrived, Answered, Admitted, LastMark, LegalRun;
    StartInv(client);
    RunKeepsInv(Idle(client), [], run);
    assert [] + Trace(Idle(client), run) == Trace(Idle(client), run);
    assert OrdersOf(RunFrom(Idle(client), run).inflight) == [];
  }

  // ----- every order can come to be answered

  predicate Quiet(s: ValidatorStep) {
    s.DoPoll? || s.DoMove? || s.DoNotify?
  }

  lemma {:induction false} AnswersInFlight(v: Validator) returns (run: seq<ValidatorStep>)
    requires v.phase.Regular? || v.phase.Clearing?
    ensures LegalRun(v, run) && RunFrom(v, run) == v.(inflight := []) && forall s :: s in run ==> Quiet(s)
    decreases |v.inflight|
  {
    if v.inflight == [] {
      run := [];
    } else {
      var s := DoPoll(Some(0), false);
      var rest := AnswersInFlight(Stepped(v, s));
      run := [s] + rest;
      assert run[1..] == rest;
    }
  }

  lemma {:induction false} RunConcat(v: Validator, a: seq<ValidatorStep>, b: seq<ValidatorStep>)
    requires LegalRun(v, a) && LegalRun(RunFrom(v, a), b)
    ensures LegalRun(v, a + b) && RunFrom(v, a + b) == RunFrom(RunFrom(v, a), b)
    ensures Trace(v, a + b) == Trace(v, a) + Trace(RunFrom(v, a), b)
    decreases a
  {
    hide Stepped, Shown, StepAllowed;
    if a == [] {
      assert a + b == b;
    } else {
      assert (a + b)[0] == a[0] && (a + b)[1..] == a[1..] + b;
      RunConcat(Stepped(v, a[0]), a[1..], b);
    }
  }

  lemma OneStep(v: Validator, s: ValidatorStep)
    requires StepAllowed(v, s)
    ensures LegalRun(v, [s]) && RunFrom(v, [s]) == Stepped(v, s)
  {
    assert [s][1..] == [];
  }

  /** From a clean-up request that was made, the move can be completed, to the block the pool names. */
  lemma CompletesMove(v: Validator, block: nat) returns (run: seq<ValidatorStep>)
    requires v.phase.Cleanup? || v.phase.Inform?
    ensures LegalRun(v, run) && RunFrom(v, run).phase.Regular? && RunFrom(v, run).waiting == []
    ensures v.phase.Cleanup? ==> RunFrom(v, run).client == block
    ensures forall s :: s in run ==> Quiet(s)
  {
    hide LegalRun, RunFrom;
    var a, b, c := DoNotify(block), DoMove, DoPoll(None, true);
    OneStep(v, a);
    OneStep(Stepped(v, a), b);
    OneStep(Stepped(Stepped(v, a), b), c);
    RunConcat(v, [a], [b]);
    RunConcat(v, [a] + [b], [c]);
    run := [a] + [b] + [c];
  }

  lemma QuietShows(v: Validator, t: seq<Event>, s: ValidatorStep)
    requires StepAllowed(v, s) && Quiet(s)
    ensures Arrived(t + Shown(v, s)) == Arrived(t)
  {
    hide Poll, Arrived;
    var e := Shown(v, s);
    if e == [] {
      assert t + e == t;
    } else {
      SnocFacts(t, e[0]);
      assert e == [e[0]];
    }
  }

  lemma {:induction false} QuietArrivals(v: Validator, t: seq<Event>, run: seq<ValidatorStep>)
    requires LegalRun(v, run) && forall s :: s in run ==> Quiet(s)
    ensures Arrived(t + Trace(v, run)) == Arrived(t)
    decreases run
  {
    hide Stepped, Shown, Arrived;
    if run == [] {
      assert t + [] == t;
    } else {
      var e := Shown(v, run[0]);
      var rest := Trace(Stepped(v, run[0]), run[1..]);
      assert run[0] in run && forall s :: s in run[1..] ==> s in run;
      QuietShows(v, t, run[0]);
      QuietArrivals(Stepped(v, run[0]), t + e, run[1..]);
      assert t + (e + rest) == t + e + rest;
    }
  }

  /** From every reachable state, if the client answers, the pool cleans up when told to and nothing new comes
      in, everything that arrived can be answered, once each, whatever transition is under way. */
  lemma EverythingAnswered(client: nat, run: seq<ValidatorStep>) returns (more: seq<ValidatorStep>)
    requires LegalRun(Idle(client), run)
    ensures var v := RunFrom(Idle(client), run);
            && LegalRun(v, more) && (forall s :: s in more ==> Quiet(s))
            && RunFrom(v, more).phase.Regular? && RunFrom(v, more).inflight == []
            && var t := Trace(Idle(client), run);
               multiset(Answered(t + Trace(v, more))) == multiset(Arrived(t))
  {
    hide LegalRun, RunFrom, Trace, Stepped, Poll, Arrived, Answered, Admitted, WellOrdered, LastMark;
    var v := RunFrom(Idle(client), run);
    more := Settles(v);
    RunConcat(Idle(client), run, more);
    ValidatorTheorem(client, run + more);
    QuietArrivals(v, Trace(Idle(client), run), more);
    assert OrdersOf(RunFrom(v, more).inflight) == [];
    var t := Trace(Idle(client), run);
    StartInv(client);
    RunKeepsInv(Idle(client), [], run + more);
  }

  lemma Settles(v: Validator) returns (run: seq<ValidatorStep>)
    ensures LegalRun(v, run) && (forall s :: s in run ==> Quiet(s))
    ensures RunFrom(v, run).phase.Regular? && RunFrom(v, run).inflight == []
  {
    hide LegalRun, RunFrom;
    run := [];
    var u := v;
    if v.phase.Clearing? {
      run := AnswersInFlight(v);
      var s := DoPoll(None, false);
      u := Stepped(v.(inflight := []), s);
      OneStep(v.(inflight := []), s);
      RunConcat(v, run, [s]);
      run := run + [s];
    } else {
      NoSteps(v);
    }
    if !u.phase.Regular? {
      var move := CompletesMove(u, u.block);
      RunConcat(v, run, move);
      run, u := run + move, RunFrom(u, move);
    }
    var last := AnswersInFlight(u);
    RunConcat(v, run, last);
    run := run + last;
  }

  lemma NoSteps(v: Validator)
    ensures LegalRun(v, []) && RunFrom(v, []) == v
  {
  }

  class OrderValidator {
    var phase: Phase
    var remaining: seq<Job>
    var waitingForNewBlock: seq<Order>
    var client: nat
    var blockNumber: nat
    var completedOrders: seq<Order>
    var revalidationAddresses: seq<Address>

    ghost function Value(): Validator
      reads this
    {
      Validator(phase, remaining, waitingForNewBlock, client, blockNumber, completedOrders, revalidationAddresses)
    }

    constructor (client: nat)
      ensures Value() == Idle(client)
    {
      phase, remaining, waitingForNewBlock, this.client := Regular, [], [], client;
      blockNumber, completedOrders, revalidationAddresses := 0, [], [];
    }

    method StartBlock(block: nat, completed: seq<Order>, addresses: seq<Address>)
      requires phase.Regular?
      modifies this
      ensures Value() == OnNewBlock(old(Value()), block, completed, addresses)
    {
      phase, waitingForNewBlock := Clearing, [];
      blockNumber, completedOrders, revalidationAddresses := block, completed, addresses;
    }

    method NotifyValidationOnChanges(block: nat)
      modifies this
      ensures Value() == NotifyChanges(old(Value()), block)
    {
      if phase.Cleanup? {
        phase, blockNumber := Inform, block;
      }
    }

    method ValidateOrder(order: Order)
      modifies this`remaining, this`waitingForNewBlock
      ensures Value() == Submit(old(Value()), order)
    {
      if phase.Regular? {
        remaining := remaining + [Job(order, client)];
      } else {
        waitingForNewBlock := waitingForNewBlock + [order];
      }
    }

    /** Releases the waiting orders, first in first out. */
    method HandleInform()
      requires phase.Inform?
      modifies this
      ensures Value() == old(Value()).(phase := Regular, inflight := Jobs(old(waitingForNewBlock), client), waiting := [])
    {
      var queue := waitingForNewBlock;
      phase, remaining, waitingForNewBlock := Regular, [], [];
      for i := 0 to |queue|
        invariant Value() == old(Value()).(phase := Regular, inflight := Jobs(queue[..i], client), waiting := [])
      {
        assert Jobs(queue[..i + 1], client) == Jobs(queue[..i], client) + [Job(queue[i], client)];
        ValidateOrder(queue[i]);
      }
      assert queue[..|queue|] == queue;
    }

    method PollNext(ready: Option<nat>, informed: bool) returns (res: Option<ValidatorRes>)
      requires CanPoll(Value(), ready, informed)
      modifies this
      ensures (Value(), res) == Poll(old(Value()), ready, informed)
    {
      match phase
      case Regular =>
        if ready.None? {
          return None;
        }
        res := Some(Validated(remaining[ready.value].order));
        remaining := remaining[..ready.value] + remaining[ready.value + 1..];
      case Clearing =>
        if ready.Some? {
          res := Some(Validated(remaining[ready.value].order));
          remaining := remaining[..ready.value] + remaining[ready.value + 1..];
          return;
        }
        if remaining != [] {
          return None;
        }
        res := Some(EnsureClear(blockNumber, completedOrders, revalidationAddresses));
        phase, completedOrders, revalidationAddresses := Cleanup, [], [];
      case Cleanup =>
        res := None;
      case Inform =>
        if !informed {
          return None;
        }
        HandleInform();
        res := Some(TransitionComplete);
    }
  }
}
