/**
 What each request does to each order, in every state of the indexer: who goes to validation, who is told
 what, what is parked, what comes back after a reorg, and that nothing else changes.
 */
module OrderSteps {
  import opened FiniteSums
  import opened Options
  import opened Orders
  import opened Sequences
  import opened OrderStores
  import opened OrderValidators
  import opened OrderPools
  import opened OrderReplies
  import opened OrderCancels
  import FP = FinalizationPools

  /** How often the order is being validated or held back. */
  function Copies(v: Validator, o: Order): nat {
    multiset(OrdersOf(v.inflight))[o] + multiset(v.waiting)[o]
  }

  lemma SubmitAllCopies(v: Validator, q: seq<Order>, o: Order)
    ensures Copies(SubmitAll(v, q), o) == Copies(v, o) + multiset(q)[o]
  {
    JobsOrders(q, v.client);
    OrdersConcat(v.inflight, Jobs(q, v.client));
  }

  lemma SubmitCopies(v: Validator, o: Order, p: Order)
    ensures Copies(Submit(v, o), p) == Copies(v, p) + if p == o then 1 else 0
  {
    SubmitOne(v, o);
    SubmitAllCopies(v, [o], p);
  }

  // ----- an order that comes in

  /** What a caller is told at once. */
  function ToldAtOnce(x: Indexer, o: Order): Option<Message> {
    if CancelledByOwner(x, o) then Some(CancelledOrder)
    else if o in x.byHash || o in x.seenInvalid then Some(DuplicateOrder)
    else None
  }

  /** An incoming order goes to validation, once, if and only if its owner has not cancelled it and it is
      neither indexed, nor found invalid in this block, nor being validated already. Everybody who waits for
      it is told if and only if it is cancelled or a duplicate; the others go on waiting, the new one too. */
  lemma IncomingExactly(x: Indexer, o: Order, reply: Option<Reply>, p: Order)
    ensures var y := NewOrder(x, o, reply);
            var told, asking := ToldAtOnce(x, o), Waiting(x, o) + if reply.Some? then [reply.value] else [];
            && Copies(y.validator, p) == Copies(x.validator, p) + (if p == o && told.None? && o !in x.validating then 1 else 0)
            && y.validating == (if told.None? then x.validating + {o} else x.validating)
            && y.answers == x.answers + (if told.Some? then AnswerAll(asking, o, told.value) else [])
            && Waiting(y, o) == (if told.Some? then [] else asking) && (p != o ==> Waiting(y, p) == Waiting(x, p))
            && y == x.(validator := y.validator, validating := y.validating, answers := y.answers, subs := y.subs)
  {
    hide Copies, AnswerAll, Submit;
    SubmitCopies(x.validator, o, p);
    var y := Subscribe(x, o, reply);
    assert Waiting(y, o) == Waiting(x, o) + if reply.Some? then [reply.value] else [];
    if ToldAtOnce(x, o).Some? {
      assert NewOrder(x, o, reply) == Notify(y, o, ToldAtOnce(x, o).value);
    } else if o in x.validating {
      assert x.validating + {o} == x.validating;
    }
  }

  // ----- a result

  /** Apart from messages, a rejection marks the order invalid and takes it out of the store, and an acceptance
      indexes it and concerns the store; neither touches anything else. */
  lemma ResultFrame(x: Indexer, o: Order, w: Verdict)
    requires w.stamp == x.block
    ensures var y := Handle(x, o, w);
            && y == x.(validating := x.validating - {o}, subs := x.subs - {o}, answers := y.answers, store := y.store,
                       seenInvalid := if w.holds then x.seenInvalid else x.seenInvalid + {o},
                       byHash := if w.holds then x.byHash + {o} else x.byHash,
                       byAddress := y.byAddress)
            && (forall a :: OrdersFrom(y, a) == OrdersFrom(x, a) + if w.holds && a == o.from then {o} else {})
            && (!w.holds ==> y.store.pending == x.store.pending - {o} && y.store.parked == x.store.parked - {o})
  {
    hide ParkEach, Add;
  }

  /** What an acceptance does to the other orders: those it displaces are parked if they can be and their
      entry is left, and all others stay where they were. */
  lemma DisplacedIff(x: Indexer, o: Order, w: Verdict, p: Order)
    requires w.holds && w.stamp == x.block && p != o
    ensures var y, q := Handle(x, o, w), Parkable(x.byHash + {o}, w.displaces);
            && (p in y.store.parked <==> p in x.store.parked || (p in q && EntryLeft(x.store, q, p)))
            && (p in y.store.pending <==> p in x.store.pending && p !in q)
            && (p in y.store.pending ==> y.store.pending[p] == x.store.pending[p])
  {
    hide ParkEach, Parkable, EntryLeft;
    ParkEachState(x.store, x.byHash + {o}, w.displaces);
    ParkedIff(x.store, x.byHash + {o}, w.displaces, p);
  }

  // ----- a cancel request

  /** A request reports success if and only if it is signed and the order was dealt with before or is found
      now. */
  lemma CancelSaysIff(x: Indexer, c: CancelInput)
    ensures Cancel(x, c).1 <==>
            c.signed && (c.order in x.seenInvalid || c.order in x.cancelled || CancelHits(x, c))
  {
    hide CancelHits, RemoveParkedEach, SubmitAll, Remove;
  }

  /** The requester's other orders: if the request finds its order, the parked ones leave the store and are
      validated again, once each; whatever else is not composable stays as it was. */
  lemma CancelRevalidatesIff(x: Indexer, c: CancelInput, p: Order)
    requires Distinct(c.q) && p != c.order && p !in x.store.pending
    ensures var y, again := Cancel(x, c).0, CancelActs(x, c) && CancelHits(x, c) && p in c.q && p in x.store.parked;
            && Copies(y.validator, p) == Copies(x.validator, p) + (if again then 1 else 0)
            && (p in y.store.parked <==> p in x.store.parked && !again) && p !in y.store.pending
  {
    hide SubmitAll, Copies, RemoveParkedEach, Remove;
    var s := Remove(x.store, c.order).0;
    RemoveOthers(x.store, c.order, p);
    ParkedEachIff(s, c.q, p);
    FoundOnce(s, c.q, p);
    SubmitAllCopies(x.validator, RemoveParkedEach(s, c.q).1, p);
  }

  lemma RemoveOthers(s: Storage, o: Order, p: Order)
    requires p != o
    ensures p in Remove(s, o).0.pending <==> p in s.pending
    ensures p in Remove(s, o).0.parked <==> p in s.parked
  {
  }

  lemma {:induction false} FoundOnce(s: Storage, q: seq<Order>, o: Order)
    requires Distinct(q)
    ensures multiset(RemoveParkedEach(s, q).1)[o] == if o in RemoveParkedEach(s, q).1 then 1 else 0
    ensures o in RemoveParkedEach(s, q).1 ==> o in q
    decreases q
  {
    hide RemoveParked;
    if q != [] {
      var init, p := q[..|q| - 1], q[|q| - 1];
      assert q == init + [p] && p !in init;
      FoundOnce(s, init, o);
    }
  }

  /** In a store with unshared levels: exactly the requester's parked and composable orders are validated
      again. */
  lemma CancelRevalidatesSound(x: Indexer, c: CancelInput, p: Order)
    requires Sound(x.store) && Distinct(c.q) && CancelActs(x, c) && CancelHits(x, c) && p != c.order
    ensures var y := Cancel(x, c).0;
            var again := p in c.q && (p in x.store.parked || (p in x.store.pending && p.quote.kind.Composable?));
            && Copies(y.validator, p) == Copies(x.validator, p) + (if again then 1 else 0)
            && (p in Stored(y.store) <==> p in Stored(x.store) && !again)
  {
    hide SubmitAll, Copies, RemoveParkedEach, Remove, Sound;
    var s := Remove(x.store, c.order).0;
    RemoveSound(x.store, c.order);
    RemoveOthers(x.store, c.order, p);
    SoundApart(x.store, p);
    RemoveParkedEachSound(s, c.q, p);
    FoundOnce(s, c.q, p);
    SubmitAllCopies(x.validator, RemoveParkedEach(s, c.q).1, p);
  }

  /** How long a request for an order that is not found is kept in mind: seven thousand slots of twelve
      seconds. */
  lemma MissedUntil(
    x: Indexer, c: CancelInput, block: nat, completed: seq<Order>, addresses: seq<Address>, k: Walk)
    requires CancelActs(x, c) && !CancelHits(x, c)
    ensures c.order in Finish(Cancel(x, c).0, block, completed, addresses, k).cancelled <==> k.cutoff < c.now + 84000
  {
    hide Finish, CancelHits, RemoveParkedEach, SubmitAll;
    FinishCancelIff(Cancel(x, c).0, c.order, block, completed, addresses, k);
  }

  // ----- a block

  /** Which orders a block leaves in the two indexes, in every state: by hash those neither filled nor expired,
      by address those of the other addresses without the expired ones that were indexed and not filled. Every
      order found invalid may be handed in again. */
  lemma IndexesAfterBlock(
    x: Indexer, block: nat, completed: seq<Order>, addresses: seq<Address>, k: Walk, o: Order, a: Address)
    requires GoodWalk(x, block, completed, addresses, k)
    ensures var y, gone := Finish(x, block, completed, addresses, k), o in x.byHash && o !in completed && Expired(o, block, k.cutoff);
            && (o in y.byHash <==> o in x.byHash && o !in completed && !Expired(o, block, k.cutoff))
            && (o in OrdersFrom(y, a) <==> o in OrdersFrom(x, a) && a !in addresses && !gone)
            && y.seenInvalid == {} && y.block == block && y.validating == x.validating
  {
    hide RemoveEach, SubmitAll, Take, Expired, Enumerates;
    var z := Filled(x, block, completed, addresses, k);
    assert o in k.expired <==> o in ExpiredIds(z, block, k.cutoff) by { EnumeratesHas(k.expired, ExpiredIds(z, block, k.cutoff), o); }
    assert o in z.byHash <==> o in x.byHash && o !in completed;
  }

  lemma EnumeratesHas(q: seq<Order>, s: set<Order>, o: Order)
    requires Enumerates(q, s)
    ensures o in q <==> o in s
  {
    assert o in q <==> o in Elements(q);
  }

  // ----- reorgs and finalized blocks

  /** A reorg sends the orders it names that await finalization back to validation, once each, and nothing
      else. */
  lemma ReorgExactly(x: Indexer, ids: seq<Order>, o: Order)
    ensures var y := ReorgOrders(x, ids);
            && Copies(y.validator, o) == Copies(x.validator, o) + (if o in x.pool.held && o in ids then 1 else 0)
            && (o in y.pool.held <==> o in x.pool.held && o !in ids) && y.pool.blocks == x.pool.blocks
            && y == x.(pool := y.pool, validator := y.validator)
  {
    hide SubmitAll, Copies, Take;
    FP.TakenOnce(x.pool.held, ids, o);
    SubmitAllCopies(x.validator, FP.Out(x.pool, FP.Reorg(ids)), o);
  }

  /** A finalized block lets go of the orders on its list, and of nothing else. */
  lemma FinalizedExactly(x: Indexer, block: nat, o: Order)
    ensures var y := After(x, FinalizedIn(block));
            && (o in y.pool.held <==> o in x.pool.held && !(block in x.pool.blocks && o in x.pool.blocks[block]))
            && y.pool.blocks == x.pool.blocks - {block} && y == x.(pool := y.pool)
  {
  }
}
