/** The order indexer itself, with its store, its finalization pool and its validator. */
module OrderIndexers {
  import opened FiniteSums
  import opened Options
  import opened Orders
  import opened Sequences
  import opened OrderStores
  import opened OrderValidators
  import opened OrderPools
  import opened FP = FinalizationPools

  lemma SubmitAllConcat(v: Validator, p: seq<Order>, q: seq<Order>)
    ensures SubmitAll(SubmitAll(v, p), q) == SubmitAll(v, p + q)
  {
    assert Jobs(p + q, v.client) == Jobs(p, v.client) + Jobs(q, v.client);
    assert v.inflight + Jobs(p, v.client) + Jobs(q, v.client) == v.inflight + (Jobs(p, v.client) + Jobs(q, v.client));
    assert v.waiting + p + q == v.waiting + (p + q);
  }

  lemma RemoveParkedEachSnoc(s: Storage, q: seq<Order>, o: Order)
    ensures var (s1, found) := RemoveParkedEach(s, q);
            var (s2, hit) := RemoveParked(s1, o);
            RemoveParkedEach(s, q + [o]) == (s2, if hit then found + [o] else found)
  {
    hide RemoveParked;
    assert (q + [o])[..|q|] == q && (q + [o])[|q|] == o;
  }

  class OrderIndexer {
    const storage: OrderStorage
    const finalization: FinalizationPool
    const validator: OrderValidator
    var blockNumber: nat
    var orderHashToOrderId: set<Order>
    var addressToOrders: map<Address, set<Order>>
    var seenInvalidOrders: set<Order>
    var cancelledOrders: map<Order, CancelRequest>
    var isValidating: set<Order>
    var subscribers: map<Order, seq<Reply>>
    ghost var answers: seq<Answer>

    ghost function Value(): Indexer
      reads this, storage, finalization, validator
    {
      Indexer(blockNumber, validator.Value(), storage.Value(), finalization.Value(), orderHashToOrderId,
              addressToOrders, seenInvalidOrders, cancelledOrders, isValidating, subscribers, answers)
    }

    /** Orders are listed under their own address. */
    ghost predicate Valid()
      reads this
    {
      forall a, o :: a in addressToOrders && o in addressToOrders[a] ==> o.from == a
    }

    constructor (block: nat)
      ensures Valid() && fresh(storage) && fresh(finalization) && fresh(validator)
      ensures Value() == NewIndexer(block)
    {
      storage := new OrderStorage();
      finalization := new FinalizationPool();
      validator := new OrderValidator(block);
      blockNumber, orderHashToOrderId, addressToOrders, seenInvalidOrders := block, {}, map[], {};
      cancelledOrders, isValidating, subscribers, answers := map[], {}, map[], [];
    }

    method NotifyValidationSubscribers(o: Order, m: Message)
      modifies this`subscribers, this`answers
      ensures Value() == Notify(old(Value()), o, m)
    {
      if o !in subscribers {
        assert subscribers - {o} == subscribers;
        return;
      }
      var channels := subscribers[o];
      subscribers := subscribers - {o};
      for i := 0 to |channels|
        invariant subscribers == old(subscribers) - {o} && answers == old(answers) + AnswerAll(channels[..i], o, m)
      {
        assert AnswerAll(channels[..i + 1], o, m) == AnswerAll(channels[..i], o, m) + [Answer(channels[i], o, m)];
        answers := answers + [Answer(channels[i], o, m)];
      }
      assert channels[..|channels|] == channels;
    }

    method IncomingOrder(o: Order, reply: Option<Reply>)
      requires Valid()
      modifies this`subscribers, this`answers, this`isValidating, validator
      ensures Valid() && Value() == NewOrder(old(Value()), o, reply)
    {
      if reply.Some? {
        subscribers := subscribers[o := (if o in subscribers then subscribers[o] else []) + [reply.value]];
      }
      if o in cancelledOrders && cancelledOrders[o].from == o.from {
        NotifyValidationSubscribers(o, CancelledOrder);
        return;
      }
      if o in orderHashToOrderId || o in seenInvalidOrders {
        NotifyValidationSubscribers(o, DuplicateOrder);
        return;
      }
      if o in isValidating {
        return;
      }
      isValidating := isValidating + {o};
      validator.ValidateOrder(o);
    }

    method ParkOrders(txes: seq<Order>)
      modifies storage
      ensures storage.Value() == ParkEach(old(storage.Value()), orderHashToOrderId, txes)
    {
      for i := 0 to |txes|
        invariant storage.Value() == ParkEach(old(storage.Value()), orderHashToOrderId, txes[..i])
      {
        assert txes[..i + 1][..i] == txes[..i];
        if txes[i] in orderHashToOrderId {
          storage.ParkOrder(txes[i]);
        }
      }
      assert txes[..|txes|] == txes;
    }

    method AcceptOrder(o: Order, w: Verdict)
      requires Valid()
      modifies this`subscribers, this`answers, this`orderHashToOrderId, this`addressToOrders, storage
      ensures Valid() && Value() == Accept(old(Value()), o, w)
    {
      hide Add, ParkEach;
      NotifyValidationSubscribers(o, if w.executable then Accepted else NotExecutable);
      orderHashToOrderId := orderHashToOrderId + {o};
      addressToOrders := addressToOrders[o.from := (if o.from in addressToOrders then addressToOrders[o.from] else {}) + {o}];
      ParkOrders(w.displaces);
      if w.fits {
        storage.AddOrder(o, w.gas, w.executable);
      }
    }

    method HandleValidatedOrder(o: Order, w: Verdict)
      requires Valid()
      modifies this, storage
      ensures Valid() && Value() == Handle(old(Value()), o, w)
    {
      hide Accept, Notify, RemoveInvalid;
      isValidating := isValidating - {o};
      if !w.holds {
        NotifyValidationSubscribers(o, Rejected);
        storage.RemoveInvalidOrder(o);
        seenInvalidOrders := seenInvalidOrders + {o};
      } else if w.stamp != blockNumber {
        NotifyValidationSubscribers(o, WrongBlock);
        seenInvalidOrders := seenInvalidOrders + {o};
      } else {
        AcceptOrder(o, w);
      }
    }

    /** Takes the parked orders among `ids` out of the store and submits them again. */
    method RevalidateParked(ids: set<Order>) returns (ghost q: seq<Order>)
      modifies storage, validator
      ensures Enumerates(q, ids)
      ensures storage.Value() == RemoveParkedEach(old(storage.Value()), q).0
      ensures validator.Value() == SubmitAll(old(validator.Value()), RemoveParkedEach(old(storage.Value()), q).1)
    {
      hide RemoveParkedEach, RemoveParked, SubmitAll, Submit;
      var rest := ids;
      q := [];
      ghost var s := storage.Value();
      assert RemoveParkedEach(s, []) == (s, []) by { NoParked(s); }
      SubmitNone(validator.Value());
      while rest != {}
        invariant rest <= ids && Enumerates(q, ids - rest)
        invariant storage.Value() == RemoveParkedEach(s, q).0
        invariant validator.Value() == SubmitAll(old(validator.Value()), RemoveParkedEach(s, q).1)
        decreases rest
      {
        var o :| o in rest;
        rest := rest - {o};
        RemoveParkedEachSnoc(s, q, o);
        EnumeratesSnoc(q, ids - rest - {o}, o);
        assert ids - rest == ids - rest - {o} + {o};
        var found := storage.RemoveParkedOrder(o);
        if found {
          SubmitOne(validator.Value(), o);
          SubmitAllConcat(old(validator.Value()), RemoveParkedEach(s, q).1, [o]);
          validator.ValidateOrder(o);
        }
        q := q + [o];
      }
      assert ids - rest == ids;
    }

    /** Takes the stored orders among `ids` out of the store and submits them again. */
    method RevalidateStored(ids: set<Order>) returns (ghost q: seq<Order>)
      modifies storage, validator
      ensures Enumerates(q, ids)
      ensures storage.Value() == RemoveEach(old(storage.Value()), q).0
      ensures validator.Value() == SubmitAll(old(validator.Value()), RemoveEach(old(storage.Value()), q).1)
    {
      hide RemoveEach, Remove, SubmitAll, Submit;
      var rest := ids;
      q := [];
      ghost var s := storage.Value();
      assert RemoveEach(s, []) == (s, []) by { NoRemoval(s); }
      SubmitNone(validator.Value());
      while rest != {}
        invariant rest <= ids && Enumerates(q, ids - rest)
        invariant storage.Value() == RemoveEach(s, q).0
        invariant validator.Value() == SubmitAll(old(validator.Value()), RemoveEach(s, q).1)
        decreases rest
      {
        var o :| o in rest;
        rest := rest - {o};
        RemoveEachSnoc(s, q, o);
        EnumeratesSnoc(q, ids - rest - {o}, o);
        assert ids - rest == ids - rest - {o} + {o};
        var found := storage.RemoveOrder(o);
        if found {
          SubmitOne(validator.Value(), o);
          SubmitAllConcat(old(validator.Value()), RemoveEach(s, q).1, [o]);
          validator.ValidateOrder(o);
        }
        q := q + [o];
      }
      assert ids - rest == ids;
    }

    method CancelOrder(user: Address, order: Order, signed: bool, now: nat) returns (ok: bool, ghost q: seq<Order>)
      requires Valid()
      modifies this`orderHashToOrderId, this`cancelledOrders, storage, validator
      ensures Valid()
      ensures var c := CancelInput(user, order, signed, now, []);
              old(CancelActs(Value(), c) && CancelHits(Value(), c)) ==> Enumerates(q, old(OrdersFrom(Value(), user)))
      ensures (Value(), ok) == Cancel(old(Value()), CancelInput(user, order, signed, now, q))
    {
      hide RemoveParkedEach, Remove, SubmitAll;
      q := [];
      if !signed {
        return false, q;
      }
      if order in seenInvalidOrders || order in cancelledOrders {
        return true, q;
      }
      var indexed := order in orderHashToOrderId;
      orderHashToOrderId := orderHashToOrderId - {order};
      var found := false;
      if indexed {
        var held := finalization.HasOrder(order);
        if !held {
          found := storage.RemoveOrder(order);
        }
      }
      if !found {
        cancelledOrders := cancelledOrders[order := CancelRequest(user, now + LATE_ORDER_WINDOW)];
        return false, q;
      }
      var until := if order.deadline.Some? then order.deadline.value else now;
      cancelledOrders := cancelledOrders[order := CancelRequest(order.from, until)];
      q := RevalidateParked(if user in addressToOrders then addressToOrders[user] else {});
      ok := true;
    }

    method EoaStateChange(eoas: seq<Address>) returns (ghost ids: seq<Order>)
      requires Valid()
      modifies this`addressToOrders, storage, validator
      ensures Valid() && Enumerates(ids, IdsFrom(old(Value()), eoas))
      ensures Value() == EoaChange(old(Value()), eoas, ids)
    {
      hide EoaChange, Enumerates, IdsFrom, SubmitAll, RemoveEach;
      ids := [];
      ghost var x := Value();
      NoneChanged(x);
      for i := 0 to |eoas|
        invariant Valid() && Enumerates(ids, IdsFrom(x, eoas[..i]))
        invariant Value() == EoaChange(x, eoas[..i], ids)
      {
        assert eoas[..i + 1] == eoas[..i] + [eoas[i]];
        if eoas[i] in addressToOrders {
          var mine := addressToOrders[eoas[i]];
          addressToOrders := addressToOrders - {eoas[i]};
          ghost var q := RevalidateStored(mine);
          OneMoreChanged(x, eoas[..i], eoas[i], ids, q);
          ids := ids + q;
        } else {
          OneMoreUnknown(x, eoas[..i], eoas[i], ids);
        }
      }
      assert eoas[..|eoas|] == eoas;
    }

    /** Removes the ids from the store; returns the orders that were reported. */
    method TakeOut(ids: seq<Order>) returns (taken: seq<Order>)
      modifies storage
      ensures (storage.Value(), taken) == RemoveEach(old(storage.Value()), ids)
    {
      hide RemoveEach, Remove;
      taken := [];
      NoRemoval(storage.Value());
      for i := 0 to |ids|
        invariant (storage.Value(), taken) == RemoveEach(old(storage.Value()), ids[..i])
      {
        assert ids[..i + 1] == ids[..i] + [ids[i]];
        RemoveEachSnoc(old(storage.Value()), ids[..i], ids[i]);
        var found := storage.RemoveOrder(ids[i]);
        if found {
          taken := taken + [ids[i]];
        }
      }
      assert ids[..|ids|] == ids;
    }

    /** Drops the completed hashes from the hash index; returns the ids that were indexed. */
    method Unindex(completed: seq<Order>) returns (ids: seq<Order>)
      modifies this`orderHashToOrderId
      ensures ids == Take(old(orderHashToOrderId), completed)
      ensures orderHashToOrderId == old(orderHashToOrderId) - Elements(completed)
    {
      hide Take;
      ids := [];
      assert Take(orderHashToOrderId, []) == [] by { NoneTaken(orderHashToOrderId); }
      for i := 0 to |completed|
        invariant ids == Take(old(orderHashToOrderId), completed[..i])
        invariant orderHashToOrderId == old(orderHashToOrderId) - Elements(completed[..i])
      {
        assert completed[..i + 1] == completed[..i] + [completed[i]];
        TakeSnoc(old(orderHashToOrderId), completed[..i], completed[i]);
        ElementsConcat(completed[..i], [completed[i]]);
        if completed[i] in orderHashToOrderId {
          orderHashToOrderId := orderHashToOrderId - {completed[i]};
          ids := ids + [completed[i]];
        }
      }
      assert completed[..|completed|] == completed;
    }

    method FilledOrders(block: nat, completed: seq<Order>) returns (panicked: bool)
      modifies this`orderHashToOrderId, storage, finalization
      ensures panicked == (completed != [] && block in old(finalization.blockToIds))
      ensures Value() == Fill(old(Value()), block, completed)
    {
      hide RemoveEach, Take;
      if completed == [] {
        return false;
      }
      var ids := Unindex(completed);
      var filled := TakeOut(ids);
      panicked := finalization.NewOrders(block, filled);
    }

    method RemoveExpiredOrders(block: nat, cutoff: nat) returns (hashes: seq<Order>)
      requires Valid()
      modifies this`cancelledOrders, this`orderHashToOrderId, this`addressToOrders, storage
      ensures Valid() && Enumerates(hashes, ExpiredIds(old(Value()), block, cutoff))
      ensures Value() == Expire(old(Value()), block, cutoff, hashes)
    {
      hide RemoveEach, Enumerates, Expired;
      cancelledOrders := map o | o in cancelledOrders && cancelledOrders[o].deadline > cutoff :: cancelledOrders[o];
      hashes := Collected(set o | o in orderHashToOrderId && Expired(o, block, cutoff));
      ListsEnumerates(hashes, set o | o in orderHashToOrderId && Expired(o, block, cutoff));
      orderHashToOrderId := orderHashToOrderId - Elements(hashes);
      addressToOrders := map a | a in addressToOrders :: addressToOrders[a] - Elements(hashes);
      var _ := TakeOut(hashes);
    }

    /** Stops half-way if the block has fills and was entered into the finalization pool before. */
    method FinishNewBlockProcessing(block: nat, completed: seq<Order>, addresses: seq<Address>, cutoff: nat)
      returns (panicked: bool, ghost k: Walk)
      requires Valid()
      modifies this, storage, finalization, validator
      ensures panicked == (completed != [] && block in old(finalization.blockToIds)) && k.cutoff == cutoff
      ensures !panicked ==>
                && Valid() && GoodWalk(old(Value()), block, completed, addresses, k)
                && Value() == Finish(old(Value()), block, completed, addresses, k)
      ensures panicked ==>
                && Enumerates(k.changed, IdsFrom(old(Value()), addresses))
                && Value() == Filled(old(Value()), block, completed, addresses, k)
    {
      hide EoaChange, Fill, Expire, NotifyChanges, Enumerates, IdsFrom, ExpiredIds;
      ghost var x := Value();
      blockNumber := block;
      seenInvalidOrders := {};
      ghost var changed := EoaStateChange(addresses);
      SameIds(x, x.(block := block, seenInvalid := {}), addresses);
      SamePool(x.(block := block, seenInvalid := {}), addresses, changed);
      panicked := FilledOrders(block, completed);
      if panicked {
        k := Walk(cutoff, changed, []);
        return;
      }
      var expired := RemoveExpiredOrders(block, cutoff);
      k := Walk(cutoff, changed, expired);
      validator.NotifyValidationOnChanges(block);
    }

    method Reorg(ids: seq<Order>)
      modifies finalization, validator
      ensures Value() == ReorgOrders(old(Value()), ids)
    {
      hide SubmitAll, Submit, Out;
      var orders := finalization.ReorgOrders(ids);
      SubmitNone(validator.Value());
      for i := 0 to |orders|
        invariant finalization.Value() == FP.After(old(finalization.Value()), FP.Reorg(ids))
        invariant validator.Value() == SubmitAll(old(validator.Value()), orders[..i])
      {
        assert orders[..i + 1] == orders[..i] + [orders[i]];
        SubmitOne(validator.Value(), orders[i]);
        SubmitAllConcat(old(validator.Value()), orders[..i], [orders[i]]);
        validator.ValidateOrder(orders[i]);
      }
      assert orders[..|orders|] == orders;
    }

    method FinalizedBlock(block: nat)
      modifies finalization
      ensures Value() == OrderPools.After(old(Value()), FinalizedIn(block))
    {
      var _ := finalization.Finalized(block);
    }

    method StartNewBlockProcessing(block: nat, completed: seq<Order>, addresses: seq<Address>)
      requires validator.phase.Regular?
      modifies validator
      ensures Value() == OrderPools.After(old(Value()), BlockIn(block, completed, addresses))
    {
      validator.StartBlock(block, completed, addresses);
    }

    /** One turn of the polling loop; `w` is the client's word on the order that is ready, if one is. */
    method PollNext(ready: Option<nat>, informed: bool, w: Verdict, cutoff: nat) returns (panicked: bool, ghost k: Walk)
      requires Valid() && CanPoll(validator.Value(), ready, informed)
      modifies this, storage, finalization, validator
      ensures k.cutoff == cutoff
      ensures var r := Poll(old(validator.Value()), ready, informed).1;
              panicked == (r.Some? && r.value.EnsureClear? && r.value.completed != [] && r.value.block in old(finalization.blockToIds))
      ensures !panicked ==> Valid() && Value() == PollOnce(old(Value()), PollInput(ready, informed, w, k))
      ensures var r := Poll(old(validator.Value()), ready, informed).1;
              !panicked && r.Some? && r.value.EnsureClear? ==>
                GoodWalk(Polled(old(Value()), PollInput(ready, informed, w, k)), r.value.block, r.value.completed, r.value.addresses, k)
    {
      hide Handle, Finish, GoodWalk;
      panicked, k := false, Walk(cutoff, [], []);
      var next := validator.PollNext(ready, informed);
      match next
      case None =>
      case Some(Validated(o)) => HandleValidatedOrder(o, w);
      case Some(EnsureClear(b, c, a)) => panicked, k := FinishNewBlockProcessing(b, c, a, cutoff);
      case Some(TransitionComplete) =>
    }
  }

  lemma ListsEnumerates(q: seq<Order>, s: set<Order>)
    requires Lists(q, s)
    ensures Enumerates(q, s)
  {
  }

  lemma NoneTaken(held: set<Order>)
    ensures Take(held, []) == []
  {
  }

  lemma NoneChanged(x: Indexer)
    ensures Enumerates([], IdsFrom(x, [])) && EoaChange(x, [], []) == x
  {
    assert IdsFrom(x, []) == {} == Elements([]);
    assert AddressSet([]) == {} && x.byAddress - {} == x.byAddress;
    NoRemoval(x.store);
    SubmitNone(x.validator);
  }

  lemma OneMoreChanged(x: Indexer, done: seq<Address>, a: Address, ids: seq<Order>, q: seq<Order>)
    requires forall b, o :: b in x.byAddress && o in x.byAddress[b] ==> o.from == b
    requires Enumerates(ids, IdsFrom(x, done)) && a in EoaChange(x, done, ids).byAddress
    requires Enumerates(q, EoaChange(x, done, ids).byAddress[a])
    ensures Enumerates(ids + q, IdsFrom(x, done + [a]))
    ensures var y := EoaChange(x, done, ids);
            var (s, again) := RemoveEach(y.store, q);
            EoaChange(x, done + [a], ids + q) ==
              y.(byAddress := y.byAddress - {a}, store := s, validator := SubmitAll(y.validator, again))
  {
    hide RemoveEach, SubmitAll, Enumerates;
    AnotherAddress(x, done, a);
    forall o | o in x.byAddress[a]
      ensures o !in IdsFrom(x, done)
    {
      assert o.from == a;
    }
    EnumeratesConcat(ids, q, IdsFrom(x, done), x.byAddress[a]);
    RemoveEachConcat(x.store, ids, q);
    SubmitAllConcat(x.validator, RemoveEach(x.store, ids).1, RemoveEach(RemoveEach(x.store, ids).0, q).1);
    assert AddressSet(done + [a]) == AddressSet(done) + {a};
  }

  lemma OneMoreUnknown(x: Indexer, done: seq<Address>, a: Address, ids: seq<Order>)
    requires a !in EoaChange(x, done, ids).byAddress
    ensures IdsFrom(x, done + [a]) == IdsFrom(x, done) && EoaChange(x, done + [a], ids) == EoaChange(x, done, ids)
  {
    hide RemoveEach, SubmitAll;
    AnotherAddress(x, done, a);
    assert AddressSet(done + [a]) == AddressSet(done) + {a};
  }

  lemma SameIds(x: Indexer, y: Indexer, addresses: seq<Address>)
    requires x.byAddress == y.byAddress
    ensures IdsFrom(x, addresses) == IdsFrom(y, addresses)
  {
  }

  lemma SamePool(x: Indexer, addresses: seq<Address>, ids: seq<Order>)
    ensures EoaChange(x, addresses, ids).pool == x.pool
  {
  }

  /** One more changed address brings in that address's ids, unless it was dealt with before. */
  lemma AnotherAddress(x: Indexer, addresses: seq<Address>, a: Address)
    ensures IdsFrom(x, addresses + [a]) ==
            IdsFrom(x, addresses) + if a in x.byAddress && a !in addresses then x.byAddress[a] else {}
  {
    var more := if a in x.byAddress && a !in addresses then x.byAddress[a] else {};
    forall o | o in more
      ensures o in IdsFrom(x, addresses + [a])
    {
      assert a in addresses + [a] && a in x.byAddress && o in x.byAddress[a];
    }
    forall o | o in IdsFrom(x, addresses)
      ensures o in IdsFrom(x, addresses + [a])
    {
      var b :| b in addresses && b in x.byAddress && o in x.byAddress[b];
      assert b in addresses + [a];
    }
  }

  lemma EnumeratesConcat(p: seq<Order>, q: seq<Order>, s: set<Order>, t: set<Order>)
    requires Enumerates(p, s) && Enumerates(q, t) && s !! t
    ensures Enumerates(p + q, s + t)
  {
    ElementsConcat(p, q);
    forall i, j | 0 <= i < j < |p + q|
      ensures (p + q)[i] != (p + q)[j]
    {
      if i < |p| <= j {
        assert p[i] in Elements(p) && q[j - |p|] in Elements(q);
      }
    }
  }

  lemma NoParked(s: Storage)
    ensures RemoveParkedEach(s, []) == (s, [])
  {
  }

  lemma EnumeratesSnoc(q: seq<Order>, s: set<Order>, o: Order)
    requires Enumerates(q, s) && o !in s
    ensures Enumerates(q + [o], s + {o})
  {
    ElementsConcat(q, [o]);
    assert o !in Elements(q);
  }
}
