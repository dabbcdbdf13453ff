/**
 What a block does to the stored orders: exactly which ones it leaves in the store, in any state
 whatever, and where it sends the others. If orders are accepted under two guards, then after every block
 no stored order belongs to a changed address or has expired, and none is lost or doubled.
 */
module OrderBlocks {
  import opened FiniteSums
  import opened Options
  import opened Orders
  import opened Sequences
  import opened OrderStores
  import opened OrderValidators
  import opened OrderPools
  import FP = FinalizationPools

  /** The indexes cover the store, and no stored order awaits finalization. */
  ghost predicate Tidy(x: Indexer) {
    && Disjoint(x.store)
    && (forall a, o :: a in x.byAddress && o in x.byAddress[a] ==> o.from == a)
    && (forall o :: o in Stored(x.store) ==> o in OrdersFrom(x, o.from))
    && Stored(x.store) <= x.byHash
    && Stored(x.store) !! x.pool.held
  }

  /** Fewer stored orders, fewer held ones, the same or a larger hash index: still tidy. */
  lemma StillTidy(x: Indexer, y: Indexer)
    requires Tidy(x) && Disjoint(y.store) && Stored(y.store) <= Stored(x.store)
    requires y.byAddress == x.byAddress && Stored(y.store) <= y.byHash && y.pool.held <= x.pool.held
    ensures Tidy(y)
  {
  }

  // ----- acceptance

  /** The order does not await finalization, and it is not in the other half of the store already. */
  ghost predicate FreshAccept(x: Indexer, o: Order, w: Verdict) {
    w.fits ==> o !in x.pool.held && OneHalf(ParkedStore(x, o, w), o, w.executable)
  }

  /** An order that becomes pending shares its level with no other pending order. */
  ghost predicate LevelAccept(x: Indexer, o: Order, w: Verdict) {
    w.fits ==> OwnLevel(ParkedStore(x, o, w), o, w.gas, w.executable)
  }

  lemma AcceptTidyIff(x: Indexer, o: Order, w: Verdict)
    requires Tidy(x)
    ensures Tidy(Accept(x, o, w)) <==> FreshAccept(x, o, w)
  {
    hide Disjoint, Stored, Add, OneHalf, ParkEach;
    var s, y := ParkedStore(x, o, w), Accept(x, o, w);
    ParkEachDisjoint(x.store, x.byHash + {o}, w.displaces);
    IndexedTidy(x, o, s);
    if w.fits {
      AddDisjointIff(s, o, w.gas, w.executable);
      assert o in Stored(y.store);
    }
  }

  /** Indexing the order makes room for it in the store. */
  lemma IndexedTidy(x: Indexer, o: Order, s: Storage)
    requires Tidy(x) && Stored(s) <= Stored(x.store)
    ensures var y := Indexed(x, o);
            && (forall a, p :: a in y.byAddress && p in y.byAddress[a] ==> p.from == a)
            && (forall p :: p in Stored(s) + {o} ==> p in OrdersFrom(y, p.from) && p in y.byHash)
  {
    hide Disjoint, Stored;
  }

  lemma AcceptSoundIff(x: Indexer, o: Order, w: Verdict)
    requires Tidy(x) && Sound(x.store) && FreshAccept(x, o, w)
    ensures Sound(Accept(x, o, w).store) <==> LevelAccept(x, o, w)
  {
    hide Sound, Add, OneHalf, OwnLevel, ParkEach;
    var s := ParkedStore(x, o, w);
    ParkEachDisjoint(x.store, x.byHash + {o}, w.displaces);
    if w.fits {
      AddSoundIff(s, o, w.gas, w.executable);
    }
  }

  // ----- block processing

  lemma ChangedTidy(x: Indexer, block: nat, addresses: seq<Address>, k: Walk)
    requires Tidy(x) && Elements(k.changed) == IdsFrom(x, addresses)
    ensures Tidy(Changed(x, block, addresses, k))
    ensures Stored(Changed(x, block, addresses, k).store) == set o | o in Stored(x.store) && o.from !in addresses
  {
    hide Disjoint, RemoveEach, SubmitAll, Stored;
    RemoveEachDisjoint(x.store, k.changed);
    forall o | o in Stored(x.store)
      ensures o in IdsFrom(x, addresses) <==> o.from in addresses
    {
    }
  }

  lemma FillTidy(x: Indexer, block: nat, completed: seq<Order>)
    requires Tidy(x)
    ensures Tidy(Fill(x, block, completed))
    ensures Stored(Fill(x, block, completed).store) == Stored(x.store) - Elements(completed)
  {
    hide Disjoint, RemoveEach, Stored, Take;
    var ids := Take(x.byHash, completed);
    RemoveEachDisjoint(x.store, ids);
    ReportedWereStored(x.store, ids);
    assert Elements(ids) == x.byHash * Elements(completed);
  }

  lemma {:induction false} ReportedWereStored(s: Storage, q: seq<Order>)
    requires Disjoint(s)
    ensures Elements(RemoveEach(s, q).1) <= Stored(s) * Elements(q)
    decreases q
  {
    hide Disjoint, Remove;
    if q != [] {
      var init, o := q[..|q| - 1], q[|q| - 1];
      assert q == init + [o];
      ReportedWereStored(s, init);
      RemoveEachDisjoint(s, init);
      RemoveDisjoint(RemoveEach(s, init).0, o);
      ElementsConcat(init, [o]);
      ElementsConcat(RemoveEach(s, init).1, [o]);
    }
  }

  lemma ExpireTidy(x: Indexer, block: nat, cutoff: nat, ids: seq<Order>)
    requires Tidy(x) && Elements(ids) == ExpiredIds(x, block, cutoff)
    ensures Tidy(Expire(x, block, cutoff, ids))
    ensures Stored(Expire(x, block, cutoff, ids).store) == set o | o in Stored(x.store) && !Expired(o, block, cutoff)
  {
    hide Disjoint, RemoveEach, Stored, Expired;
    RemoveEachDisjoint(x.store, ids);
  }

  /** The orders a block leaves in the store. */
  ghost function Kept(x: Indexer, block: nat, completed: seq<Order>, addresses: seq<Address>, cutoff: nat): set<Order> {
    set o | o in Stored(x.store) && o.from !in addresses && o !in completed && !Expired(o, block, cutoff)
  }

  lemma FinishTidy(x: Indexer, block: nat, completed: seq<Order>, addresses: seq<Address>, k: Walk)
    requires Tidy(x) && GoodWalk(x, block, completed, addresses, k)
    ensures Tidy(Finish(x, block, completed, addresses, k))
    ensures Stored(Finish(x, block, completed, addresses, k).store) == Kept(x, block, completed, addresses, k.cutoff)
  {
    hide Tidy, Changed, Fill, Expire, Stored, Expired, NotifyChanges;
    ChangedTidy(x, block, addresses, k);
    FillTidy(Changed(x, block, addresses, k), block, completed);
    var z := Filled(x, block, completed, addresses, k);
    ExpireTidy(z, block, k.cutoff, k.expired);
    OnlyValidator(Expire(z, block, k.cutoff, k.expired), Finish(x, block, completed, addresses, k));
  }

  lemma OnlyValidator(x: Indexer, y: Indexer)
    requires Tidy(x) && y.store == x.store && y.byAddress == x.byAddress && y.byHash == x.byHash && y.pool == x.pool
    ensures Tidy(y)
  {
  }

  // ----- the other steps

  lemma CancelTidy(x: Indexer, c: CancelInput)
    requires Tidy(x)
    ensures Tidy(Cancel(x, c).0)
  {
    hide Disjoint, Remove, RemoveParkedEach, SubmitAll;
    RemoveDisjoint(x.store, c.order);
    RemoveParkedEachDisjoint(Remove(x.store, c.order).0, c.q);
    if CancelActs(x, c) {
      StillTidy(x, Cancel(x, c).0);
    }
  }

  lemma HandleTidyIff(x: Indexer, o: Order, w: Verdict)
    requires Tidy(x)
    ensures Tidy(Handle(x, o, w)) <==> (w.holds && w.stamp == x.block ==> FreshAccept(x, o, w))
  {
    hide Disjoint, RemoveInvalid, Accept, FreshAccept;
    var y := x.(validating := x.validating - {o});
    StillTidy(x, y);
    RemoveInvalidDisjoint(y.store, o);
    if w.holds && w.stamp == x.block {
      AcceptTidyIff(y, o, w);
      SameGuard(x, y, o, w);
    } else {
      StillTidy(x, Handle(x, o, w));
    }
  }

  lemma SameGuard(x: Indexer, y: Indexer, o: Order, w: Verdict)
    requires y.store == x.store && y.byHash == x.byHash && y.pool == x.pool
    ensures FreshAccept(x, o, w) <==> FreshAccept(y, o, w)
    ensures LevelAccept(x, o, w) <==> LevelAccept(y, o, w)
  {
  }

  /** If a poll accepts an order, the guards hold for it. */
  ghost predicate Guarded(x: Indexer, s: IndexerStep)
    requires s.PollIn? ==> CanPoll(x.validator, s.poll.ready, s.poll.informed)
  {
    s.PollIn? ==>
      var r := Poll(x.validator, s.poll.ready, s.poll.informed).1;
      r.Some? && r.value.Validated? && s.poll.verdict.holds && s.poll.verdict.stamp == x.block ==>
        FreshAccept(x, r.value.order, s.poll.verdict)
  }

  ghost predicate LevelGuarded(x: Indexer, s: IndexerStep)
    requires s.PollIn? ==> CanPoll(x.validator, s.poll.ready, s.poll.informed)
  {
    s.PollIn? ==>
      var r := Poll(x.validator, s.poll.ready, s.poll.informed).1;
      r.Some? && r.value.Validated? && s.poll.verdict.holds && s.poll.verdict.stamp == x.block ==>
        LevelAccept(x, r.value.order, s.poll.verdict)
  }

  lemma PollTidy(x: Indexer, i: PollInput)
    requires Tidy(x) && GoodPoll(x, i)
    ensures Tidy(PollOnce(x, i)) <==> Guarded(x, PollIn(i))
  {
    hide Tidy, Handle, Finish, Poll, GoodWalk, FreshAccept;
    var y := Polled(x, i);
    OnlyValidator(x, y);
    match Poll(x.validator, i.ready, i.informed).1
    case None =>
    case Some(Validated(o)) =>
      HandleTidyIff(y, o, i.verdict);
      SameGuard(x, y, o, i.verdict);
    case Some(EnsureClear(b, c, a)) => FinishTidy(y, b, c, a, i.walk);
    case Some(TransitionComplete) =>
  }

  /** Exact for every step: it keeps the indexer tidy if and only if it accepts no unguarded order. */
  lemma StepTidyIff(x: Indexer, s: IndexerStep, asked: map<Reply, Order>)
    requires Tidy(x) && Enabled(x, s, asked)
    ensures Tidy(After(x, s)) <==> Guarded(x, s)
  {
    hide Tidy, GoodWalk, Cancel, PollOnce, Guarded, SubmitAll;
    assert !s.PollIn? ==> Guarded(x, s) by { NotPolling(x, s); }
    match s
    case OrderIn(o, reply) => OnlyValidator(x, NewOrder(x, o, reply));
    case CancelIn(c) => CancelTidy(x, c);
    case ReorgIn(ids) => SmallerPool(x, After(x, s));
    case FinalizedIn(b) => SmallerPool(x, After(x, s));
    case BlockIn(_, _, _) => OnlyValidator(x, After(x, s));
    case ClientMove => OnlyValidator(x, After(x, s));
    case PollIn(i) => PollTidy(x, i);
  }

  lemma NotPolling(x: Indexer, s: IndexerStep)
    ensures !s.PollIn? ==> Guarded(x, s) && LevelGuarded(x, s)
  {
  }

  lemma SmallerPool(x: Indexer, y: Indexer)
    requires Tidy(x) && y.store == x.store && y.byAddress == x.byAddress && y.byHash == x.byHash
    requires y.pool.held <= x.pool.held
    ensures Tidy(y)
  {
  }

  // ----- soundness of the store

  lemma CancelSound(x: Indexer, c: CancelInput)
    requires Sound(x.store)
    ensures Sound(Cancel(x, c).0.store)
  {
    hide Sound, Remove, RemoveParkedEach, SubmitAll;
    RemoveSound(x.store, c.order);
    SoundIsDisjoint(Remove(x.store, c.order).0);
    RemoveParkedEachDisjoint(Remove(x.store, c.order).0, c.q);
  }

  lemma SoundIsDisjoint(s: Storage)
    ensures Sound(s) ==> Disjoint(s)
  {
  }

  lemma HandleSound(x: Indexer, o: Order, w: Verdict)
    requires Tidy(x) && Sound(x.store)
    requires w.holds && w.stamp == x.block ==> FreshAccept(x, o, w) && LevelAccept(x, o, w)
    ensures Sound(Handle(x, o, w).store)
  {
    hide Sound, RemoveInvalid, Accept, FreshAccept, LevelAccept, Disjoint;
    var y := x.(validating := x.validating - {o});
    RemoveInvalidSound(x.store, o);
    if w.holds && w.stamp == x.block {
      OnlyValidator(x, y);
      SameGuard(x, y, o, w);
      AcceptSoundIff(y, o, w);
    }
  }

  /** Where a block sends each order that was stored: back to validation if its address changed,
      otherwise to the finalization pool if it was filled, otherwise out if it expired; the rest stay.
      The expired list names the indexed orders that expired and were not filled, so an order that went
      back to validation is on it too if and only if it expired and was not filled. */
  ghost predicate Sorted(x: Indexer, y: Indexer, block: nat, completed: seq<Order>, addresses: seq<Address>, k: Walk) {
    && x.validator.waiting <= y.validator.waiting
    && Enumerates(y.validator.waiting[|x.validator.waiting|..], set o | o in Stored(x.store) && o.from in addresses)
    && y.pool.held == x.pool.held + (set o | o in Stored(x.store) && o.from !in addresses && o in completed)
    && (completed != [] ==>
          && block in y.pool.blocks
          && Enumerates(y.pool.blocks[block], set o | o in Stored(x.store) && o.from !in addresses && o in completed))
    && Stored(y.store) == Kept(x, block, completed, addresses, k.cutoff)
    && (forall o :: o in k.expired <==> o in x.byHash && o !in completed && Expired(o, block, k.cutoff))
    && (forall o :: o in Stored(x.store) ==> (o in k.expired <==> o !in completed && Expired(o, block, k.cutoff)))
  }

  lemma ChangedSorts(x: Indexer, block: nat, addresses: seq<Address>, k: Walk)
    requires Tidy(x) && Sound(x.store) && Elements(k.changed) == IdsFrom(x, addresses)
    ensures Sound(Changed(x, block, addresses, k).store)
    ensures Enumerates(RemoveEach(x.store, k.changed).1, set o | o in Stored(x.store) && o.from in addresses)
  {
    hide Sound, RemoveEach, SubmitAll, Stored, Take, Disjoint;
    RemoveEachSound(x.store, k.changed);
    forall o | o in Stored(x.store)
      ensures o in IdsFrom(x, addresses) <==> o.from in addresses
    {
    }
  }

  lemma FillSorts(x: Indexer, block: nat, completed: seq<Order>)
    requires Tidy(x) && Sound(x.store)
    ensures var y := Fill(x, block, completed);
            && Sound(y.store) && y.validator == x.validator
            && y.pool.held == x.pool.held + (Stored(x.store) * Elements(completed))
            && (completed != [] ==>
                  && block in y.pool.blocks
                  && Enumerates(y.pool.blocks[block], Stored(x.store) * Elements(completed)))
  {
    hide Sound, RemoveEach, Stored, Take, Disjoint;
    var ids := Take(x.byHash, completed);
    RemoveEachSound(x.store, ids);
    assert Elements(Take(Stored(x.store), ids)) == Stored(x.store) * Elements(completed);
  }

  lemma ExpiredList(x: Indexer, block: nat, completed: seq<Order>, addresses: seq<Address>, k: Walk)
    requires GoodWalk(x, block, completed, addresses, k)
    ensures forall o :: o in k.expired <==> o in x.byHash && o !in completed && Expired(o, block, k.cutoff)
  {
    hide RemoveEach, SubmitAll, Expired, Take;
    assert forall o :: o in Elements(k.expired) <==> o in k.expired;
  }

  lemma TidyIndexed(x: Indexer)
    requires Tidy(x)
    ensures Stored(x.store) <= x.byHash
  {
  }

  lemma FinishSorts(x: Indexer, block: nat, completed: seq<Order>, addresses: seq<Address>, k: Walk)
    requires Tidy(x) && Sound(x.store) && GoodWalk(x, block, completed, addresses, k) && x.validator.phase.Cleanup?
    ensures var y := Finish(x, block, completed, addresses, k);
            Sound(y.store) && Sorted(x, y, block, completed, addresses, k)
  {
    hide Tidy, Sound, Fill, RemoveEach, Stored, Expired, Kept;
    ChangedTidy(x, block, addresses, k);
    ChangedSorts(x, block, addresses, k);
    var y := Changed(x, block, addresses, k);
    FillTidy(y, block, completed);
    FillSorts(y, block, completed);
    var z := Filled(x, block, completed, addresses, k);
    RemoveEachSound(z.store, k.expired);
    FinishTidy(x, block, completed, addresses, k);
    ExpiredList(x, block, completed, addresses, k);
    TidyIndexed(x);
    var again := RemoveEach(x.store, k.changed).1;
    assert (x.validator.waiting + again)[|x.validator.waiting|..] == again;
    assert Stored(y.store) * Elements(completed)
        == set o | o in Stored(x.store) && o.from !in addresses && o in completed;
  }

  lemma PollSound(x: Indexer, i: PollInput)
    requires Tidy(x) && Sound(x.store) && GoodPoll(x, i) && Guarded(x, PollIn(i)) && LevelGuarded(x, PollIn(i))
    ensures Sound(PollOnce(x, i).store)
  {
    hide Tidy, Sound, Handle, Finish, GoodWalk, FreshAccept, LevelAccept, Sorted;
    var y := Polled(x, i);
    OnlyValidator(x, y);
    match Poll(x.validator, i.ready, i.informed).1
    case None =>
    case Some(Validated(o)) =>
      SameGuard(x, y, o, i.verdict);
      HandleSound(y, o, i.verdict);
    case Some(EnsureClear(b, c, a)) => FinishSorts(y, b, c, a, i.walk);
    case Some(TransitionComplete) =>
  }

  lemma StepSound(x: Indexer, s: IndexerStep, asked: map<Reply, Order>)
    requires Tidy(x) && Sound(x.store) && Enabled(x, s, asked) && Guarded(x, s) && LevelGuarded(x, s)
    ensures Sound(After(x, s).store)
  {
    hide Tidy, Sound, GoodWalk, Cancel, PollOnce, Guarded, LevelGuarded, SubmitAll;
    match s
    case OrderIn(o, reply) =>
    case CancelIn(c) => CancelSound(x, c);
    case ReorgIn(ids) =>
    case FinalizedIn(b) =>
    case BlockIn(_, _, _) =>
    case ClientMove =>
    case PollIn(i) => PollSound(x, i);
  }

  // ----- runs

  /** Every acceptance in the run is guarded; with `levels`, by both guards. */
  ghost predicate GuardedRun(x: Indexer, asked: map<Reply, Order>, run: seq<IndexerStep>, levels: bool)
    requires Legal(x, asked, run)
    decreases run
  {
    run != [] ==>
      && Guarded(x, run[0]) && (levels ==> LevelGuarded(x, run[0]))
      && GuardedRun(After(x, run[0]), Asked(asked, run[0]), run[1..], levels)
  }

  lemma {:induction false} RunTidy(x: Indexer, asked: map<Reply, Order>, run: seq<IndexerStep>, levels: bool)
    requires Tidy(x) && (levels ==> Sound(x.store)) && Legal(x, asked, run) && GuardedRun(x, asked, run, levels)
    ensures Tidy(Exec(x, asked, run).0) && (levels ==> Sound(Exec(x, asked, run).0.store))
    decreases run
  {
    hide Tidy, Sound, GoodWalk, After, Asked, Guarded, LevelGuarded;
    if run != [] {
      StepTidyIff(x, run[0], asked);
      if levels { StepSound(x, run[0], asked); }
      RunTidy(After(x, run[0]), Asked(asked, run[0]), run[1..], levels);
    }
  }

  lemma StartTidy(block: nat)
    ensures Tidy(NewIndexer(block)) && Sound(NewIndexer(block).store)
  {
  }

  /** The poll finds the barrier clear and processes the block `b`. */
  ghost predicate Processes(x: Indexer, i: PollInput, b: nat, completed: seq<Order>, addresses: seq<Address>) {
    GoodPoll(x, i) && Poll(x.validator, i.ready, i.informed).1 == Some(EnsureClear(b, completed, addresses))
  }

  /** After a block no stored order belongs to a changed address, is past the cutoff, or is for another
      block than the next, whatever happened before. */
  lemma CleanAfterBlock(
    block: nat, run: seq<IndexerStep>, i: PollInput, b: nat, completed: seq<Order>, addresses: seq<Address>, o: Order)
    requires Legal(NewIndexer(block), map[], run) && GuardedRun(NewIndexer(block), map[], run, false)
    requires Processes(Exec(NewIndexer(block), map[], run).0, i, b, completed, addresses)
    requires o in Stored(PollOnce(Exec(NewIndexer(block), map[], run).0, i).store)
    ensures o.from !in addresses
    ensures o.deadline.Some? ==> i.walk.cutoff < o.deadline.value
    ensures o.flashBlock.Some? ==> o.flashBlock.value == b + 1
  {
    hide Legal, GuardedRun, Exec, Tidy, Finish, Stored, GoodWalk;
    StartTidy(block);
    RunTidy(NewIndexer(block), map[], run, false);
    var x := Exec(NewIndexer(block), map[], run).0;
    OnlyValidator(x, Polled(x, i));
    FinishTidy(Polled(x, i), b, completed, addresses, i.walk);
  }

  /** A block neither loses nor doubles an order: each stored one goes to exactly one place, and the expired
      list names exactly the indexed orders that expired and were not filled. */
  lemma BlockSortsOrders(
    block: nat, run: seq<IndexerStep>, i: PollInput, b: nat, completed: seq<Order>, addresses: seq<Address>)
    requires Legal(NewIndexer(block), map[], run) && GuardedRun(NewIndexer(block), map[], run, true)
    requires Processes(Exec(NewIndexer(block), map[], run).0, i, b, completed, addresses)
    ensures var x := Exec(NewIndexer(block), map[], run).0;
            Sorted(x, PollOnce(x, i), b, completed, addresses, i.walk)
  {
    hide Legal, GuardedRun, Exec, Tidy, Sound, Finish, Stored, GoodWalk;
    StartTidy(block);
    RunTidy(NewIndexer(block), map[], run, true);
    var x := Exec(NewIndexer(block), map[], run).0;
    OnlyValidator(x, Polled(x, i));
    FinishSorts(Polled(x, i), b, completed, addresses, i.walk);
  }

  // ----- exactly what a block leaves, in any state

  /** All the ids a block takes out of the store, in sequence. */
  function Removals(x: Indexer, completed: seq<Order>, k: Walk): seq<Order> {
    k.changed + Take(x.byHash, completed) + k.expired
  }

  lemma FinishStore(x: Indexer, block: nat, completed: seq<Order>, addresses: seq<Address>, k: Walk)
    ensures Finish(x, block, completed, addresses, k).store == RemoveEach(x.store, Removals(x, completed, k)).0
  {
    hide RemoveEach, SubmitAll;
    RemoveEachConcat(x.store, k.changed, Take(x.byHash, completed));
    RemoveEachConcat(x.store, k.changed + Take(x.byHash, completed), k.expired);
    NoRemoval(RemoveEach(x.store, k.changed).0);
  }

  /** The hash index leads the block to this order: it was filled or has expired. */
  predicate Due(x: Indexer, block: nat, completed: seq<Order>, cutoff: nat, o: Order) {
    o in x.byHash && (o in completed || Expired(o, block, cutoff))
  }

  lemma Mentions(x: Indexer, block: nat, completed: seq<Order>, addresses: seq<Address>, k: Walk, o: Order)
    requires GoodWalk(x, block, completed, addresses, k)
    ensures multiset(Removals(x, completed, k))[o] ==
            (if o in IdsFrom(x, addresses) then 1 else 0) + if Due(x, block, completed, k.cutoff, o) then 1 else 0
  {
    hide Filled, Expired, IdsFrom, Take;
    var t := Take(x.byHash, completed);
    ExpiredList(x, block, completed, addresses, k);
    DistinctCounts(k.changed, o);
    DistinctCounts(t, o);
    DistinctCounts(k.expired, o);
    assert o in k.changed <==> o in Elements(k.changed);
    assert o in t <==> o in Elements(t);
    assert multiset(Removals(x, completed, k)) == multiset(k.changed) + multiset(t) + multiset(k.expired);
  }

  /** A stored order outlives the block: no index leads to it, or just one does while it is both pending
      and parked and its entry in the book is left when its turn comes. */
  ghost predicate Survives(x: Indexer, block: nat, completed: seq<Order>, addresses: seq<Address>, k: Walk, o: Order) {
    var listed, due := o in IdsFrom(x, addresses), Due(x, block, completed, k.cutoff, o);
    || (!listed && !due)
    || (listed != due && o in x.store.parked && EntryLeft(x.store, Removals(x, completed, k), o))
  }

  /** Exactly which orders a block leaves in the store, in every state, tidy or not. */
  lemma KeptIff(x: Indexer, block: nat, completed: seq<Order>, addresses: seq<Address>, k: Walk, o: Order)
    requires GoodWalk(x, block, completed, addresses, k)
    ensures o in Stored(Finish(x, block, completed, addresses, k).store) <==>
            o in Stored(x.store) && Survives(x, block, completed, addresses, k, o)
  {
    hide Finish, GoodWalk, Stored, RemoveEach, EntryLeft, Removals, IdsFrom, Due;
    var q := Removals(x, completed, k);
    FinishStore(x, block, completed, addresses, k);
    Mentions(x, block, completed, addresses, k, o);
    StaysIff(x.store, q, o);
    assert o in q <==> multiset(q)[o] > 0;
  }

  /** In every state: a block leaves no expired order stored if and only if none of the stored ones that
      have expired survives; for a disjoint store, if and only if an index leads to each of them. */
  lemma NoExpiredLeftIff(x: Indexer, block: nat, completed: seq<Order>, addresses: seq<Address>, k: Walk)
    requires GoodWalk(x, block, completed, addresses, k)
    ensures (forall o :: o in Stored(Finish(x, block, completed, addresses, k).store) ==> !Expired(o, block, k.cutoff))
            <==> forall o :: o in Stored(x.store) && Expired(o, block, k.cutoff) ==>
                   !Survives(x, block, completed, addresses, k, o)
    ensures Disjoint(x.store) ==>
            ((forall o :: o in Stored(Finish(x, block, completed, addresses, k).store) ==> !Expired(o, block, k.cutoff))
             <==> forall o :: o in Stored(x.store) && Expired(o, block, k.cutoff) ==>
                    o in x.byHash || o in IdsFrom(x, addresses))
  {
    hide Finish, GoodWalk, Stored, RemoveEach, Removals, IdsFrom, Expired;
    forall o
      ensures o in Stored(Finish(x, block, completed, addresses, k).store) <==>
              o in Stored(x.store) && Survives(x, block, completed, addresses, k, o)
    {
      KeptIff(x, block, completed, addresses, k, o);
    }
  }

  /** The same for orders of changed addresses: none is left if and only if none survives; for a disjoint
      store, if and only if each is listed under a changed address, or is indexed and filled or expired. */
  lemma NoChangedLeftIff(x: Indexer, block: nat, completed: seq<Order>, addresses: seq<Address>, k: Walk)
    requires GoodWalk(x, block, completed, addresses, k)
    ensures (forall o :: o in Stored(Finish(x, block, completed, addresses, k).store) ==> o.from !in addresses)
            <==> forall o :: o in Stored(x.store) && o.from in addresses ==>
                   !Survives(x, block, completed, addresses, k, o)
    ensures Disjoint(x.store) ==>
            ((forall o :: o in Stored(Finish(x, block, completed, addresses, k).store) ==> o.from !in addresses)
             <==> forall o :: o in Stored(x.store) && o.from in addresses ==>
                    o in IdsFrom(x, addresses) || Due(x, block, completed, k.cutoff, o))
  {
    hide Finish, GoodWalk, Stored, RemoveEach, Removals, IdsFrom, Due;
    forall o
      ensures o in Stored(Finish(x, block, completed, addresses, k).store) <==>
              o in Stored(x.store) && Survives(x, block, completed, addresses, k, o)
    {
      KeptIff(x, block, completed, addresses, k, o);
    }
  }

  // ----- exactly what a block passes on and what it loses, in any state

  lemma FinishPasses(x: Indexer, block: nat, completed: seq<Order>, addresses: seq<Address>, k: Walk)
    requires x.validator.phase.Cleanup?
    ensures var y := Finish(x, block, completed, addresses, k);
            var (s, again) := RemoveEach(x.store, k.changed);
            && y.validator.waiting == x.validator.waiting + again
            && y.pool.held == x.pool.held + Elements(RemoveEach(s, Take(x.byHash, completed)).1)
  {
    hide RemoveEach;
    NoRemoval(RemoveEach(x.store, k.changed).0);
  }

  /** The order is parked, or its entry in the book is left when its turn comes in the first round of
      removals. */
  ghost predicate FoundFirst(x: Indexer, k: Walk, o: Order) {
    o in x.store.parked || EntryLeft(x.store, k.changed, o)
  }

  /** The same in the second round: an order that the first round named has its parked copy left only if its
      entry was found then. */
  ghost predicate FoundSecond(x: Indexer, completed: seq<Order>, k: Walk, o: Order) {
    if o in k.changed then o in x.store.parked && EntryLeft(x.store, k.changed, o)
    else o in x.store.parked || EntryLeft(x.store, k.changed + Take(x.byHash, completed), o)
  }

  lemma SecondRound(s: Storage, p: seq<Order>, q: seq<Order>, o: Order)
    requires Distinct(p) && o in q
    ensures o in RemoveEach(RemoveEach(s, p).0, q).1 <==>
            if o in p then o in s.parked && EntryLeft(s, p, o) else o in s.parked || EntryLeft(s, p + q, o)
  {
    hide EntryLeft, RemoveEach;
    var t := RemoveEach(s, p).0;
    ReportedIff(t, q, o);
    ParkedCopyIff(s, p, o);
    RemoveEachState(s, p);
    DistinctCounts(p, o);
    if o in p {
      NoEntry(t, q, o);
    } else {
      EntryLeftLater(s, p, q, o);
    }
  }

  lemma NoEntry(s: Storage, q: seq<Order>, o: Order)
    requires o !in s.pending
    ensures !EntryLeft(s, q, o)
  {
  }

  /** The entry outlives `p` and then is left in `q`, exactly if it is left in both in sequence. */
  lemma EntryLeftLater(s: Storage, p: seq<Order>, q: seq<Order>, o: Order)
    requires o !in p
    ensures EntryLeft(RemoveEach(s, p).0, q, o) <==> EntryLeft(s, p + q, o)
  {
    hide RemoveEach;
    var t, all := RemoveEach(s, p).0, p + q;
    RemoveEachState(s, p);
    forall i | 0 <= i < |p|
      ensures all[i] == p[i] && o !in all[..i + 1]
    {
      assert all[..i + 1] == p[..i + 1];
    }
    forall i | 0 <= i < |q|
      ensures all[|p| + i] == q[i] && (o in all[..|p| + i + 1] <==> o in q[..i + 1])
    {
      assert all[..|p| + i + 1] == p + q[..i + 1];
    }
    if EntryLeft(s, all, o) {
      assert forall x :: x in p && x in s.pending ==> s.pending[x] != s.pending[o];
    }
    if EntryLeft(t, q, o) {
      forall j | 0 <= j < |all| && o !in all[..j + 1] && all[j] in s.pending
        ensures s.pending[all[j]] != s.pending[o]
      {
        if j < |p| {
          assert all[j] in p;
        } else {
          assert q[j - |p|] == all[j] && all[..|p| + (j - |p|) + 1] == all[..j + 1];
          assert all[j] in p || all[j] in t.pending;
        }
      }
    }
  }

  /** Exactly which orders a block sends back to validation and which it puts into the finalization pool, in
      every state: of those the address index lists under a changed address, and of those indexed and filled,
      the ones that are still found when their turn comes. */
  lemma PassedOnIff(x: Indexer, block: nat, completed: seq<Order>, addresses: seq<Address>, k: Walk, o: Order)
    requires x.validator.phase.Cleanup? && GoodWalk(x, block, completed, addresses, k)
    ensures var y := Finish(x, block, completed, addresses, k);
            && x.validator.waiting <= y.validator.waiting
            && (o in y.validator.waiting[|x.validator.waiting|..] <==> o in IdsFrom(x, addresses) && FoundFirst(x, k, o))
            && (o in y.pool.held <==>
                  o in x.pool.held || (o in x.byHash && o in completed && FoundSecond(x, completed, k, o)))
  {
    hide Finish, RemoveEach, EntryLeft, Take, IdsFrom;
    var y, t := Finish(x, block, completed, addresses, k), Take(x.byHash, completed);
    FinishPasses(x, block, completed, addresses, k);
    var (s, again) := RemoveEach(x.store, k.changed);
    assert y.validator.waiting[|x.validator.waiting|..] == again;
    assert o in k.changed <==> o in Elements(k.changed);
    assert o in t <==> o in Elements(t);
    ReportedIff(x.store, k.changed, o);
    if o in t {
      SecondRound(x.store, k.changed, t, o);
    }
    ReportedIff(s, t, o);
    assert o in Elements(RemoveEach(s, t).1) <==> o in RemoveEach(s, t).1;
  }

  /** A stored order is nowhere after the block: not stored, sent back, awaiting finalization or on the
      expired list. */
  ghost predicate Lost(x: Indexer, y: Indexer, k: Walk, o: Order)
    requires x.validator.waiting <= y.validator.waiting
  {
    && o in Stored(x.store) && o !in Stored(y.store)
    && o !in y.validator.waiting[|x.validator.waiting|..] && o !in y.pool.held && o !in k.expired
  }

  /** Exactly which orders a block loses, in every state: pending ones without a parked copy, listed under a
      changed address and not on the expired list either, or not so listed but indexed and filled, whose
      entry is not left when their turn comes. */
  lemma LostIff(x: Indexer, block: nat, completed: seq<Order>, addresses: seq<Address>, k: Walk, o: Order)
    requires x.validator.phase.Cleanup? && GoodWalk(x, block, completed, addresses, k)
    ensures var y := Finish(x, block, completed, addresses, k);
            && x.validator.waiting <= y.validator.waiting
            && (Lost(x, y, k, o) <==>
                  && o in x.store.pending && o !in x.store.parked && o !in x.pool.held
                  && if o in IdsFrom(x, addresses) then
                       && !EntryLeft(x.store, k.changed, o)
                       && !(o in x.byHash && o !in completed && Expired(o, block, k.cutoff))
                     else
                       && o in x.byHash && o in completed
                       && !EntryLeft(x.store, k.changed + Take(x.byHash, completed), o))
  {
    hide Finish, RemoveEach, EntryLeft, Take, IdsFrom, Expired, Removals;
    PassedOnIff(x, block, completed, addresses, k, o);
    KeptIff(x, block, completed, addresses, k, o);
    ExpiredList(x, block, completed, addresses, k);
    assert o in k.changed <==> o in Elements(k.changed);
  }

  // ----- exactness of the second guard

  lemma {:induction false} AllOrMissing(s: Storage, q: seq<Order>)
    requires Disjoint(s) && Distinct(q)
    ensures Elements(RemoveEach(s, q).1) <= Elements(q)
    ensures RemoveEach(s, q).1 == q || exists o :: o in q && o !in RemoveEach(s, q).1
    decreases q
  {
    hide Remove, Disjoint;
    if q != [] {
      var init, o := q[..|q| - 1], q[|q| - 1];
      assert q == init + [o];
      AllOrMissing(s, init);
      ElementsConcat(init, [o]);
      ElementsConcat(RemoveEach(s, init).1, [o]);
      assert o !in Elements(init);
      var found := RemoveEach(s, init).1;
      assert forall p :: p in found ==> p in Elements(found);
      if found != init {
        var p :| p in init && p !in found;
        assert p in q && p !in RemoveEach(s, q).1;
      }
    }
  }

  /** In a tidy indexer: no order of a changed address goes missing if and only if the pending ones among
      them have levels of their own. */
  lemma NoneMissingIff(x: Indexer, addresses: seq<Address>, changed: seq<Order>)
    requires Tidy(x) && Enumerates(changed, IdsFrom(x, addresses))
    ensures (forall o :: o in Stored(x.store) && o.from in addresses ==> o in RemoveEach(x.store, changed).1)
            <==> OwnLevelsIn(x.store, set o | o in Stored(x.store) && o.from in addresses)
  {
    hide Disjoint, RemoveEach, Stored, Take, OwnLevelsIn;
    var mine := set o | o in Stored(x.store) && o.from in addresses;
    var t := Take(Stored(x.store), changed);
    forall o | o in Stored(x.store)
      ensures o in IdsFrom(x, addresses) <==> o.from in addresses
    {
    }
    assert Stored(x.store) * Elements(changed) == mine;
    AllReportedIff(x.store, changed);
    RemoveEachSkips(x.store, changed);
    AllOrMissing(x.store, t);
    assert forall o :: o in t <==> o in mine by { assert Elements(t) == mine; }
  }

  /** The stored orders that a block has to pass on: to validation or to the finalization pool. */
  ghost function Moved(x: Indexer, completed: seq<Order>, addresses: seq<Address>): set<Order> {
    set o | o in Stored(x.store) && (o.from in addresses || o in completed)
  }

  /** The first two rounds of removals, as one. */
  lemma MovedIds(x: Indexer, completed: seq<Order>, addresses: seq<Address>, changed: seq<Order>)
    requires Tidy(x) && Elements(changed) == IdsFrom(x, addresses)
    ensures Stored(x.store) * Elements(changed + Take(x.byHash, completed)) == Moved(x, completed, addresses)
    ensures forall o :: o in Stored(x.store) ==> (o in changed <==> o.from in addresses)
  {
    hide Disjoint, Stored, Take;
    var t := Take(x.byHash, completed);
    ElementsConcat(changed, t);
    forall o | o in Stored(x.store)
      ensures o in IdsFrom(x, addresses) <==> o.from in addresses
      ensures o in Elements(t) <==> o in completed
    {
    }
    assert forall o :: o in changed <==> o in Elements(changed);
  }

  /** What is passed on to whom. */
  lemma PassedOn(x: Indexer, completed: seq<Order>, addresses: seq<Address>, changed: seq<Order>, o: Order)
    requires Tidy(x) && Elements(changed) == IdsFrom(x, addresses) && o in Stored(x.store)
    ensures var (s, again) := RemoveEach(x.store, changed);
            var t := Take(x.byHash, completed);
            o in RemoveEach(x.store, changed + t).1 <==>
              if o.from in addresses then o in again else o in RemoveEach(s, t).1
  {
    hide Disjoint, Stored, Take, RemoveEach;
    var (s, again) := RemoveEach(x.store, changed);
    var t := Take(x.byHash, completed);
    MovedIds(x, completed, addresses, changed);
    RemoveEachConcat(x.store, changed, t);
    RemoveEachDisjoint(x.store, changed);
    ReportedWereStored(x.store, changed);
    ReportedWereStored(s, t);
    assert forall p :: p in again ==> p in Elements(again);
    assert forall p :: p in RemoveEach(s, t).1 ==> p in Elements(RemoveEach(s, t).1);
  }

  lemma AllPassedOnIff(x: Indexer, completed: seq<Order>, addresses: seq<Address>, changed: seq<Order>)
    requires Tidy(x) && Elements(changed) == IdsFrom(x, addresses)
    ensures (forall o :: o in Moved(x, completed, addresses) ==>
               o in RemoveEach(x.store, changed + Take(x.byHash, completed)).1)
            <==> OwnLevelsIn(x.store, Moved(x, completed, addresses))
  {
    hide Disjoint, Stored, Take, RemoveEach, OwnLevelsIn, IdsFrom;
    var q := changed + Take(x.byHash, completed);
    var t := Take(Stored(x.store), q);
    MovedIds(x, completed, addresses, changed);
    AllReportedIff(x.store, q);
    RemoveEachSkips(x.store, q);
    AllOrMissing(x.store, t);
    assert forall o :: o in t <==> o in Moved(x, completed, addresses) by {
      assert Elements(t) == Moved(x, completed, addresses);
    }
  }

  /** Exact for the whole block, in a tidy indexer: every stored order of a changed address goes back to
      validation and every other filled one into the finalization pool if and only if the pending ones
      among all of them have levels of their own. */
  lemma BlockLosesNothingIff(x: Indexer, block: nat, completed: seq<Order>, addresses: seq<Address>, k: Walk)
    requires Tidy(x) && x.validator.phase.Cleanup? && GoodWalk(x, block, completed, addresses, k)
    ensures var y := Finish(x, block, completed, addresses, k);
            && x.validator.waiting <= y.validator.waiting
            && ((forall o :: o in Moved(x, completed, addresses) ==>
                   if o.from in addresses then o in y.validator.waiting[|x.validator.waiting|..] else o in y.pool.held)
                <==> OwnLevelsIn(x.store, Moved(x, completed, addresses)))
  {
    hide Finish, Stored, Take, RemoveEach, OwnLevelsIn, IdsFrom, Disjoint;
    var y := Finish(x, block, completed, addresses, k);
    var (s, again) := RemoveEach(x.store, k.changed);
    FinishPasses(x, block, completed, addresses, k);
    assert y.validator.waiting[|x.validator.waiting|..] == again;
    AllPassedOnIff(x, completed, addresses, k.changed);
    forall o | o in Moved(x, completed, addresses)
      ensures o in RemoveEach(x.store, k.changed + Take(x.byHash, completed)).1 <==>
              if o.from in addresses then o in again else o in y.pool.held
    {
      PassedOn(x, completed, addresses, k.changed, o);
    }
  }
}
