/**
 A cancelled order stays away: once it is gone from the pool, nothing brings it back before the cancel
 itself expires, whatever peers and callers send.
 */
module OrderCancels {
  import opened FiniteSums
  import opened Options
  import opened Orders
  import opened OrderStores
  import opened OrderValidators
  import opened OrderPools
  import opened OrderReplies
  import FP = FinalizationPools

  /** Cancelled by its owner, and neither validated, held back, stored nor awaiting finalization. */
  ghost predicate Gone(x: Indexer, o: Order, c: CancelRequest) {
    && o in x.cancelled && x.cancelled[o] == c && c.from == o.from
    && o !in Outstanding(x.validator) && o !in Stored(x.store) && o !in x.pool.held
  }

  // ----- nothing is stored or reported that was not stored before

  lemma RemoveShrinks(s: Storage, o: Order)
    ensures Stored(Remove(s, o).0) <= Stored(s) && (Remove(s, o).1 ==> o in Stored(s))
    ensures Stored(RemoveParked(s, o).0) <= Stored(s) && (RemoveParked(s, o).1 ==> o in Stored(s))
    ensures Stored(Park(s, o)) <= Stored(s) && Stored(RemoveInvalid(s, o)) <= Stored(s)
  {
  }

  lemma {:induction false} RemoveEachShrinks(s: Storage, q: seq<Order>)
    ensures Stored(RemoveEach(s, q).0) <= Stored(s) && Elements(RemoveEach(s, q).1) <= Stored(s)
    decreases q
  {
    hide Remove;
    if q != [] {
      RemoveEachShrinks(s, q[..|q| - 1]);
      RemoveShrinks(RemoveEach(s, q[..|q| - 1]).0, q[|q| - 1]);
    }
  }

  lemma {:induction false} RemoveParkedEachShrinks(s: Storage, q: seq<Order>)
    ensures Stored(RemoveParkedEach(s, q).0) <= Stored(s) && Elements(RemoveParkedEach(s, q).1) <= Stored(s)
    decreases q
  {
    hide RemoveParked;
    if q != [] {
      RemoveParkedEachShrinks(s, q[..|q| - 1]);
      RemoveShrinks(RemoveParkedEach(s, q[..|q| - 1]).0, q[|q| - 1]);
    }
  }

  lemma {:induction false} ParkEachShrinks(s: Storage, indexed: set<Order>, q: seq<Order>)
    ensures Stored(ParkEach(s, indexed, q)) <= Stored(s)
    decreases q
  {
    hide Park;
    if q != [] {
      ParkEachShrinks(s, indexed, q[..|q| - 1]);
      RemoveShrinks(ParkEach(s, indexed, q[..|q| - 1]), q[|q| - 1]);
    }
  }

  lemma SubmitAllOutstanding(v: Validator, q: seq<Order>)
    ensures Outstanding(SubmitAll(v, q)) == Outstanding(v) + Elements(q)
  {
    JobsOrders(q, v.client);
    OrdersConcat(v.inflight, Jobs(q, v.client));
    ElementsConcat(OrdersOf(v.inflight), q);
    ElementsConcat(v.waiting, q);
  }

  lemma PollOutstanding(v: Validator, ready: Option<nat>, informed: bool)
    requires CanPoll(v, ready, informed)
    ensures Outstanding(Poll(v, ready, informed).0) <= Outstanding(v)
    ensures var r := Poll(v, ready, informed).1; r.Some? && r.value.Validated? ==> r.value.order in Outstanding(v)
  {
    if ready.Some? {
      FewerJobs(v.inflight, ready.value);
    }
    JobsOrders(v.waiting, v.client);
  }

  lemma FewerJobs(q: seq<Job>, i: nat)
    requires i < |q|
    ensures Elements(OrdersOf(Without(q, i))) <= Elements(OrdersOf(q)) && q[i].order in Elements(OrdersOf(q))
  {
    assert OrdersOf(q)[i] == q[i].order;
    forall o | o in OrdersOf(Without(q, i))
      ensures o in OrdersOf(q)
    {
      var k :| 0 <= k < |q| - 1 && OrdersOf(Without(q, i))[k] == o;
      assert o == OrdersOf(q)[if k < i then k else k + 1];
    }
  }

  // ----- steps

  /** Gone under whatever cancel is registered for it. */
  ghost predicate IsGone(x: Indexer, o: Order) {
    o in x.cancelled && Gone(x, o, x.cancelled[o])
  }

  /** What a request that acts leaves of the order, in every state. A parked copy beside the pending one
      survives the removal; it stays stored, or goes back to validation if the requester's ids name it. */
  lemma CancelOutcome(x: Indexer, c: CancelInput)
    requires CancelActs(x, c)
    ensures var y, o := Cancel(x, c).0, c.order;
            var copy := o in x.byHash && o !in x.pool.held && TwoCopies(x.store, o);
            && y.pool == x.pool && o in y.cancelled
            && (y.cancelled[o].from == o.from <==> CancelHits(x, c) || c.user == o.from)
            && (o in Stored(y.store) <==>
                  if copy then o !in c.q else o in Stored(x.store) && (o !in x.byHash || o in x.pool.held))
            && (o in Outstanding(y.validator) <==> o in Outstanding(x.validator) || (copy && o in c.q))
  {
    hide Remove, RemoveParkedEach, SubmitAll, Outstanding, TwoCopies;
    var s := Remove(x.store, c.order).0;
    RemoveEffect(x.store, c.order);
    UnreportedIsGone(x.store, c.order);
    ParkedEachIff(s, c.q, c.order);
    SubmitAllOutstanding(x.validator, RemoveParkedEach(s, c.q).1);
  }

  lemma UnreportedIsGone(s: Storage, o: Order)
    ensures !Remove(s, o).1 ==> o !in Stored(Remove(s, o).0) && !TwoCopies(s, o)
  {
  }

  /** Exactly when an order is gone after a request to cancel it, in every state. A request that is unsigned,
      or for an order that was found invalid or has a cancel registered by anybody, changes nothing. Any
      other one makes the order gone if no validation of it is under way, it does not await finalization,
      it is found or its owner asks, it is not left stored for want of an index entry, and it is not
      indexed with a parked copy beside its pending one. */
  lemma CancelGoneIff(x: Indexer, c: CancelInput)
    ensures IsGone(Cancel(x, c).0, c.order) <==>
            if !CancelActs(x, c) then IsGone(x, c.order)
            else
              && c.order !in Outstanding(x.validator) && c.order !in x.pool.held
              && (CancelHits(x, c) || c.user == c.order.from)
              && (c.order in x.byHash || c.order !in Stored(x.store))
              && !(c.order in x.byHash && TwoCopies(x.store, c.order))
  {
    hide CancelHits, Outstanding, Stored, SubmitAll, TwoCopies;
    if CancelActs(x, c) {
      CancelOutcome(x, c);
      CopiesAreStored(x.store, c.order);
    }
  }

  lemma CopiesAreStored(s: Storage, o: Order)
    ensures TwoCopies(s, o) ==> o in Stored(s)
  {
  }

  /** Exactly when a request takes a stored order out, in every state: it acts, the order is indexed and does
      not await finalization, and if there is a parked copy beside the pending one, the requester's ids name
      the order. Who asks matters in that last case only. */
  lemma CancelTakesOutIff(x: Indexer, c: CancelInput)
    requires c.order in Stored(x.store)
    ensures c.order !in Stored(Cancel(x, c).0.store) <==>
            && CancelActs(x, c) && c.order in x.byHash && c.order !in x.pool.held
            && (TwoCopies(x.store, c.order) ==> c.order in c.q)
  {
    hide CancelHits, Outstanding, Stored, SubmitAll, TwoCopies;
    if CancelActs(x, c) {
      CancelOutcome(x, c);
    }
  }

  lemma HandleKeepsGone(x: Indexer, o: Order, c: CancelRequest, p: Order, w: Verdict)
    requires Gone(x, o, c) && p != o
    ensures Gone(Handle(x, p, w), o, c)
  {
    hide Outstanding, RemoveInvalid, ParkEach, Remove;
    RemoveShrinks(x.store, p);
    ParkEachShrinks(x.store, x.byHash + {p}, w.displaces);
  }

  lemma ChangedKeepsGone(x: Indexer, o: Order, c: CancelRequest, block: nat, addresses: seq<Address>, k: Walk)
    requires Gone(x, o, c)
    ensures Gone(Changed(x, block, addresses, k), o, c)
  {
    hide Outstanding, RemoveEach, SubmitAll, Stored;
    RemoveEachShrinks(x.store, k.changed);
    SubmitAllOutstanding(x.validator, RemoveEach(x.store, k.changed).1);
  }

  lemma FillKeepsGone(x: Indexer, o: Order, c: CancelRequest, block: nat, completed: seq<Order>)
    requires Gone(x, o, c)
    ensures Gone(Fill(x, block, completed), o, c)
  {
    hide Outstanding, RemoveEach, Stored, Take;
    RemoveEachShrinks(x.store, Take(x.byHash, completed));
  }

  /** A block keeps a cancel if and only if its cutoff is below the cancel's deadline. */
  lemma FinishCancelIff(
    x: Indexer, o: Order, block: nat, completed: seq<Order>, addresses: seq<Address>, k: Walk)
    ensures var y := Finish(x, block, completed, addresses, k);
            && (o in y.cancelled <==> o in x.cancelled && k.cutoff < x.cancelled[o].deadline)
            && (o in y.cancelled ==> y.cancelled[o] == x.cancelled[o])
  {
    hide RemoveEach, SubmitAll, Take;
  }

  /** A gone order stays gone over a block if and only if the cutoff is below the cancel's deadline. */
  lemma FinishGoneIff(
    x: Indexer, o: Order, c: CancelRequest, block: nat, completed: seq<Order>, addresses: seq<Address>, k: Walk)
    requires Gone(x, o, c)
    ensures Gone(Finish(x, block, completed, addresses, k), o, c) <==> k.cutoff < c.deadline
  {
    hide RemoveEach, Stored, Changed, Fill;
    FinishCancelIff(x, o, block, completed, addresses, k);
    ChangedKeepsGone(x, o, c, block, addresses, k);
    FillKeepsGone(Changed(x, block, addresses, k), o, c, block, completed);
    RemoveEachShrinks(Filled(x, block, completed, addresses, k).store, k.expired);
  }

  /** How long a cancel that takes the order out lasts: to the order's deadline, and for an order without one
      to the moment of the request only, so the first block whose cutoff reaches that moment forgets it and
      the order may be handed in again. */
  lemma TakenOutUntil(
    x: Indexer, c: CancelInput, block: nat, completed: seq<Order>, addresses: seq<Address>, k: Walk)
    requires CancelActs(x, c) && CancelHits(x, c)
    ensures c.order in Finish(Cancel(x, c).0, block, completed, addresses, k).cancelled <==>
            k.cutoff < if c.order.deadline.Some? then c.order.deadline.value else c.now
  {
    hide Finish, CancelHits, RemoveParkedEach, SubmitAll;
    FinishCancelIff(Cancel(x, c).0, c.order, block, completed, addresses, k);
  }

  /** A cancel request for another order, or again for this one. */
  lemma CancelKeepsGone(x: Indexer, o: Order, c: CancelRequest, i: CancelInput)
    requires Gone(x, o, c)
    ensures Gone(Cancel(x, i).0, o, c)
  {
    hide Outstanding, Remove, RemoveParkedEach, SubmitAll, Stored;
    var s := Remove(x.store, i.order).0;
    RemoveShrinks(x.store, i.order);
    RemoveParkedEachShrinks(s, i.q);
    SubmitAllOutstanding(x.validator, RemoveParkedEach(s, i.q).1);
  }

  lemma PollKeepsGone(x: Indexer, o: Order, c: CancelRequest, i: PollInput)
    requires Gone(x, o, c) && CanPoll(x.validator, i.ready, i.informed) && i.walk.cutoff < c.deadline
    ensures Gone(PollOnce(x, i), o, c)
  {
    hide Outstanding, Stored, Poll, Handle, Finish;
    PollOutstanding(x.validator, i.ready, i.informed);
    var y := Polled(x, i);
    assert Gone(y, o, c);
    match Poll(x.validator, i.ready, i.informed).1
    case None =>
    case Some(Validated(p)) => HandleKeepsGone(y, o, c, p, i.verdict);
    case Some(EnsureClear(b, d, a)) => FinishGoneIff(y, o, c, b, d, a, i.walk);
    case Some(TransitionComplete) =>
  }

  lemma StepKeepsGone(x: Indexer, o: Order, c: CancelRequest, s: IndexerStep, asked: map<Reply, Order>)
    requires Gone(x, o, c) && Enabled(x, s, asked) && (s.PollIn? ==> s.poll.walk.cutoff < c.deadline)
    ensures Gone(After(x, s), o, c)
  {
    hide Stored, GoodWalk, Cancel, PollOnce, SubmitAll, Outstanding, Take;
    match s
    case OrderIn(p, reply) =>
      SubmitAllOutstanding(x.validator, [p]);
      SubmitOne(x.validator, p);
    case CancelIn(i) => CancelKeepsGone(x, o, c, i);
    case ReorgIn(ids) => SubmitAllOutstanding(x.validator, FP.Out(x.pool, FP.Reorg(ids)));
    case FinalizedIn(_) =>
    case BlockIn(b, d, a) => NewBlockOutstanding(x.validator, b, d, a);
    case ClientMove => MoveOutstanding(x.validator);
    case PollIn(i) => PollKeepsGone(x, o, c, i);
  }

  lemma NewBlockOutstanding(v: Validator, b: nat, d: seq<Order>, a: seq<Address>)
    requires v.phase.Regular?
    ensures Outstanding(OnNewBlock(v, b, d, a)) <= Outstanding(v)
  {
  }

  lemma MoveOutstanding(v: Validator)
    ensures Outstanding(ClientMoves(v)) == Outstanding(v)
  {
  }

  ghost predicate Before(run: seq<IndexerStep>, deadline: nat) {
    forall s :: s in run && s.PollIn? ==> s.poll.walk.cutoff < deadline
  }

  /** Whatever happens next, as long as no block's cutoff reaches the cancel's deadline, a gone order stays
      gone: it is not validated, stored or finalized, and a caller that hands it in again is told at once. */
  lemma {:induction false} CancelSticks(
    x: Indexer, o: Order, c: CancelRequest, asked: map<Reply, Order>, run: seq<IndexerStep>)
    requires Gone(x, o, c) && Legal(x, asked, run) && Before(run, c.deadline)
    ensures var y := Exec(x, asked, run).0;
            && Gone(y, o, c)
            && (forall r :: NewOrder(y, o, Some(r)).answers == y.answers + AnswerAll(Waiting(y, o) + [r], o, CancelledOrder))
    decreases run
  {
    hide Gone, GoodWalk, After, Asked;
    if run == [] {
      TellsAtOnce(x, o, c);
    } else {
      StepKeepsGone(x, o, c, run[0], asked);
      CancelSticks(After(x, run[0]), o, c, Asked(asked, run[0]), run[1..]);
    }
  }

  lemma TellsAtOnce(x: Indexer, o: Order, c: CancelRequest)
    requires Gone(x, o, c)
    ensures forall r :: NewOrder(x, o, Some(r)).answers == x.answers + AnswerAll(Waiting(x, o) + [r], o, CancelledOrder)
  {
  }
}
