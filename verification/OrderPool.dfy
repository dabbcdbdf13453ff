/**
 The order indexer as a state machine: orders come in from RPC callers and peers, validation results
 come back, orders are cancelled, and each block moves orders out of the store.
 */
module OrderPools {
  import opened FiniteSums
  import opened Options
  import opened Orders
  import opened OrderStores
  import opened OrderValidators
  import FP = FinalizationPools

  datatype CancelRequest = CancelRequest(from: Address, deadline: nat)

  /** A one-shot reply channel. */
  type Reply = nat

  datatype Message = CancelledOrder | DuplicateOrder | WrongBlock | NotExecutable | Accepted | Rejected

  datatype Answer = Answer(reply: Reply, order: Order, message: Message)

  /** `answers` is history: every message sent on a reply channel. */
  datatype Indexer = Indexer(
    block: nat, validator: Validator, store: Storage, pool: FP.Pool,
    byHash: set<Order>, byAddress: map<Address, set<Order>>,
    seenInvalid: set<Order>, cancelled: map<Order, CancelRequest>, validating: set<Order>,
    subs: map<Order, seq<Reply>>, answers: seq<Answer>)

  function NewIndexer(block: nat): Indexer {
    Indexer(block, Idle(block), EMPTY_STORE, FP.EMPTY, {}, map[], {}, map[], {}, map[], [])
  }

  // ----- reply channels

  function Waiting(x: Indexer, o: Order): seq<Reply> {
    if o in x.subs then x.subs[o] else []
  }

  function Subscribe(x: Indexer, o: Order, reply: Option<Reply>): Indexer {
    if reply.None? then x else x.(subs := x.subs[o := Waiting(x, o) + [reply.value]])
  }

  function AnswerAll(q: seq<Reply>, o: Order, m: Message): seq<Answer> {
    seq(|q|, i requires 0 <= i < |q| => Answer(q[i], o, m))
  }

  function Notify(x: Indexer, o: Order, m: Message): Indexer {
    x.(subs := x.subs - {o}, answers := x.answers + AnswerAll(Waiting(x, o), o, m))
  }

  // ----- incoming orders and results

  predicate CancelledByOwner(x: Indexer, o: Order) {
    o in x.cancelled && x.cancelled[o].from == o.from
  }

  function NewOrder(x: Indexer, o: Order, reply: Option<Reply>): Indexer {
    var y := Subscribe(x, o, reply);
    if CancelledByOwner(x, o) then Notify(y, o, CancelledOrder)
    else if o in x.byHash || o in x.seenInvalid then Notify(y, o, DuplicateOrder)
    else if o in x.validating then y
    else y.(validating := y.validating + {o}, validator := Submit(y.validator, o))
  }

  function OrdersFrom(x: Indexer, a: Address): set<Order> {
    if a in x.byAddress then x.byAddress[a] else {}
  }

  function Indexed(x: Indexer, o: Order): Indexer {
    x.(byHash := x.byHash + {o}, byAddress := x.byAddress[o.from := OrdersFrom(x, o.from) + {o}])
  }

  /** What the client says about an order: whether it holds and, if so, at which block, the gas it charges,
      whether the order can be executed now, which orders it displaces, and whether the store has room. */
  datatype Verdict = Verdict(holds: bool, stamp: nat, gas: Gas, executable: bool, displaces: seq<Order>, fits: bool)

  function ParkedStore(x: Indexer, o: Order, w: Verdict): Storage {
    ParkEach(x.store, x.byHash + {o}, w.displaces)
  }

  function Accept(x: Indexer, o: Order, w: Verdict): Indexer {
    var y := Indexed(Notify(x, o, if w.executable then Accepted else NotExecutable), o);
    var s := ParkedStore(x, o, w);
    y.(store := if w.fits then Add(s, o, w.gas, w.executable) else s)
  }

  function Handle(x: Indexer, o: Order, w: Verdict): Indexer {
    var y := x.(validating := x.validating - {o});
    if !w.holds then
      Notify(y, o, Rejected).(store := RemoveInvalid(y.store, o), seenInvalid := y.seenInvalid + {o})
    else if w.stamp != x.block then
      Notify(y, o, WrongBlock).(seenInvalid := y.seenInvalid + {o})
    else Accept(y, o, w)
  }

  // ----- cancelling

  function SubmitAll(v: Validator, q: seq<Order>): Validator {
    if v.phase.Regular? then v.(inflight := v.inflight + Jobs(q, v.client)) else v.(waiting := v.waiting + q)
  }

  lemma SubmitNone(v: Validator)
    ensures SubmitAll(v, []) == v
  {
    assert v.inflight + Jobs([], v.client) == v.inflight && v.waiting + [] == v.waiting;
  }

  lemma SubmitOne(v: Validator, o: Order)
    ensures Submit(v, o) == SubmitAll(v, [o])
  {
    assert Jobs([o], v.client) == [Job(o, v.client)];
  }

  const LATE_ORDER_WINDOW := 7000 * 12

  /** `now` is the clock and `q` the walk over the requesting user's ids. */
  datatype CancelInput = CancelInput(user: Address, order: Order, signed: bool, now: nat, q: seq<Order>)

  predicate CancelActs(x: Indexer, c: CancelInput) {
    c.signed && c.order !in x.seenInvalid && c.order !in x.cancelled
  }

  /** The stored order is found and taken out; then the user's parked orders are validated again. */
  predicate CancelHits(x: Indexer, c: CancelInput) {
    c.order in x.byHash && c.order !in x.pool.held && Remove(x.store, c.order).1
  }

  function Cancel(x: Indexer, c: CancelInput): (Indexer, bool) {
    if !CancelActs(x, c) then (x, c.signed)
    else
      var s := if c.order in x.byHash && c.order !in x.pool.held then Remove(x.store, c.order).0 else x.store;
      if CancelHits(x, c) then
        var until := if c.order.deadline.Some? then c.order.deadline.value else c.now;
        var (s1, again) := RemoveParkedEach(s, c.q);
        (x.(byHash := x.byHash - {c.order}, store := s1, validator := SubmitAll(x.validator, again),
            cancelled := x.cancelled[c.order := CancelRequest(c.order.from, until)]), true)
      else
        (x.(byHash := x.byHash - {c.order}, store := s,
            cancelled := x.cancelled[c.order := CancelRequest(c.user, c.now + LATE_ORDER_WINDOW)]), false)
  }

  // ----- blocks

  function ReorgOrders(x: Indexer, ids: seq<Order>): Indexer {
    x.(pool := FP.After(x.pool, FP.Reorg(ids)), validator := SubmitAll(x.validator, FP.Out(x.pool, FP.Reorg(ids))))
  }

  function IdsFrom(x: Indexer, addresses: seq<Address>): set<Order> {
    set a, o | a in addresses && a in x.byAddress && o in x.byAddress[a] :: o
  }

  function AddressSet(addresses: seq<Address>): set<Address> {
    set a | a in addresses
  }

  /** `eoa_state_change`: orders of changed addresses leave the store and go back to validation. */
  function EoaChange(x: Indexer, addresses: seq<Address>, ids: seq<Order>): Indexer {
    var (s, again) := RemoveEach(x.store, ids);
    x.(byAddress := x.byAddress - AddressSet(addresses), store := s, validator := SubmitAll(x.validator, again))
  }

  function Fill(x: Indexer, block: nat, completed: seq<Order>): Indexer
  {
    if completed == [] then x
    else
      var (s, filled) := RemoveEach(x.store, Take(x.byHash, completed));
      x.(byHash := x.byHash - Elements(completed), store := s, pool := FP.After(x.pool, FP.Enter(block, filled)))
  }

  predicate Expired(o: Order, block: nat, cutoff: nat) {
    (o.deadline.Some? && o.deadline.value <= cutoff) || (o.flashBlock.Some? && o.flashBlock.value != block + 1)
  }

  function ExpiredIds(x: Indexer, block: nat, cutoff: nat): set<Order> {
    set o | o in x.byHash && Expired(o, block, cutoff)
  }

  function Expire(x: Indexer, block: nat, cutoff: nat, ids: seq<Order>): Indexer {
    x.(cancelled := map o | o in x.cancelled && x.cancelled[o].deadline > cutoff :: x.cancelled[o],
       byHash := x.byHash - Elements(ids),
       byAddress := map a | a in x.byAddress :: x.byAddress[a] - Elements(ids),
       store := RemoveEach(x.store, ids).0)
  }

  /** The clock's cutoff, and the walks over the changed addresses' ids and over the expired ones. */
  datatype Walk = Walk(cutoff: nat, changed: seq<Order>, expired: seq<Order>)

  function Changed(x: Indexer, block: nat, addresses: seq<Address>, k: Walk): Indexer {
    EoaChange(x.(block := block, seenInvalid := {}), addresses, k.changed)
  }

  function Filled(x: Indexer, block: nat, completed: seq<Order>, addresses: seq<Address>, k: Walk): Indexer {
    Fill(Changed(x, block, addresses, k), block, completed)
  }

  /** `finish_new_block_processing` */
  function Finish(x: Indexer, block: nat, completed: seq<Order>, addresses: seq<Address>, k: Walk): Indexer {
    var y := Expire(Filled(x, block, completed, addresses, k), block, k.cutoff, k.expired);
    y.(validator := NotifyChanges(y.validator, block))
  }

  /** The walks cover what they should, and the block was not entered into the finalization pool before. */
  ghost predicate GoodWalk(x: Indexer, block: nat, completed: seq<Order>, addresses: seq<Address>, k: Walk) {
    && Enumerates(k.changed, IdsFrom(x, addresses))
    && Enumerates(k.expired, ExpiredIds(Filled(x, block, completed, addresses, k), block, k.cutoff))
    && (completed != [] ==> block !in x.pool.blocks)
  }

  // ----- steps

  datatype PollInput = PollInput(ready: Option<nat>, informed: bool, verdict: Verdict, walk: Walk)

  datatype IndexerStep =
    | OrderIn(order: Order, reply: Option<Reply>)
    | CancelIn(cancel: CancelInput)
    | ReorgIn(ids: seq<Order>)
    | FinalizedIn(block: nat)
    | BlockIn(block: nat, completed: seq<Order>, addresses: seq<Address>)
    | ClientMove
    | PollIn(poll: PollInput)

  /** A result carries a block at which the client was between the start and the end of the job. */
  predicate Between(n: nat, a: nat, b: nat) {
    a <= n <= b || b <= n <= a
  }

  ghost predicate GoodPoll(x: Indexer, i: PollInput) {
    && CanPoll(x.validator, i.ready, i.informed)
    && (i.ready.Some? ==> Between(i.verdict.stamp, x.validator.inflight[i.ready.value].began, x.validator.client))
    && var r := Poll(x.validator, i.ready, i.informed).1;
      r.Some? && r.value.EnsureClear? ==>
        GoodWalk(Polled(x, i), r.value.block, r.value.completed, r.value.addresses, i.walk)
  }

  function Polled(x: Indexer, i: PollInput): Indexer
    requires CanPoll(x.validator, i.ready, i.informed)
  {
    x.(validator := Poll(x.validator, i.ready, i.informed).0)
  }

  /** One turn of the loop in `poll_next`. */
  function PollOnce(x: Indexer, i: PollInput): Indexer
    requires CanPoll(x.validator, i.ready, i.informed)
  {
    match Poll(x.validator, i.ready, i.informed).1
    case None => Polled(x, i)
    case Some(Validated(o)) => Handle(Polled(x, i), o, i.verdict)
    case Some(EnsureClear(b, c, a)) => Finish(Polled(x, i), b, c, a, i.walk)
    case Some(TransitionComplete) => Polled(x, i)
  }

  /** Channels are used for one request each, and blocks are announced between transitions. */
  ghost predicate Enabled(x: Indexer, s: IndexerStep, asked: map<Reply, Order>) {
    match s
    case OrderIn(_, reply) => reply.Some? ==> reply.value !in asked
    case CancelIn(c) => Enumerates(c.q, OrdersFrom(x, c.user))
    case ReorgIn(_) => true
    case FinalizedIn(_) => true
    case BlockIn(_, _, _) => x.validator.phase.Regular?
    case ClientMove => true
    case PollIn(i) => GoodPoll(x, i)
  }

  function After(x: Indexer, s: IndexerStep): Indexer
    requires s.BlockIn? ==> x.validator.phase.Regular?
    requires s.PollIn? ==> CanPoll(x.validator, s.poll.ready, s.poll.informed)
  {
    match s
    case OrderIn(o, reply) => NewOrder(x, o, reply)
    case CancelIn(c) => Cancel(x, c).0
    case ReorgIn(ids) => ReorgOrders(x, ids)
    case FinalizedIn(b) => x.(pool := FP.After(x.pool, FP.Finalize(b)))
    case BlockIn(b, c, a) => x.(validator := OnNewBlock(x.validator, b, c, a))
    case ClientMove => x.(validator := ClientMoves(x.validator))
    case PollIn(i) => PollOnce(x, i)
  }

  /** The channels asked for so far and the order each is about. */
  function Asked(asked: map<Reply, Order>, s: IndexerStep): map<Reply, Order> {
    if s.OrderIn? && s.reply.Some? then asked[s.reply.value := s.order] else asked
  }

  // ----- runs

  ghost predicate Legal(x: Indexer, asked: map<Reply, Order>, run: seq<IndexerStep>)
    decreases run
  {
    run != [] ==> Enabled(x, run[0], asked) && Legal(After(x, run[0]), Asked(asked, run[0]), run[1..])
  }

  function Exec(x: Indexer, asked: map<Reply, Order>, run: seq<IndexerStep>): (Indexer, map<Reply, Order>)
    requires Legal(x, asked, run)
    decreases run
  {
    if run == [] then (x, asked) else Exec(After(x, run[0]), Asked(asked, run[0]), run[1..])
  }
}
