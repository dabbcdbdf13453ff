/**
 Filled orders wait here until their block is final. A reorg takes orders out by id and leaves the
 block's list as it was.
 */
module FinalizationPools {
  import opened Orders
  import opened Sequences

  datatype Pool = Pool(held: set<Order>, blocks: map<nat, seq<Order>>)

  /** What a step does to the pool, and the orders it hands back. */
  datatype PoolStep = Enter(block: nat, orders: seq<Order>) | Reorg(ids: seq<Order>) | Finalize(block: nat)

  /** The source asserts that a block is entered once. */
  predicate Enabled(p: Pool, s: PoolStep) {
    s.Enter? ==> s.block !in p.blocks
  }

  function After(p: Pool, s: PoolStep): Pool {
    match s
    case Enter(b, os) => Pool(p.held + Elements(os), p.blocks[b := os])
    case Reorg(ids) => p.(held := p.held - Elements(ids))
    case Finalize(b) => if b in p.blocks then Pool(p.held - Elements(p.blocks[b]), p.blocks - {b}) else p
  }

  function Out(p: Pool, s: PoolStep): seq<Order> {
    match s
    case Enter(_, _) => []
    case Reorg(ids) => Take(p.held, ids)
    case Finalize(b) => if b in p.blocks then Take(p.held, p.blocks[b]) else []
  }

  const EMPTY := Pool({}, map[])

  ghost predicate Legal(p: Pool, run: seq<PoolStep>)
    decreases run
  {
    run != [] ==> Enabled(p, run[0]) && Legal(After(p, run[0]), run[1..])
  }

  function Exec(p: Pool, run: seq<PoolStep>): Pool
    decreases run
  {
    if run == [] then p else Exec(After(p, run[0]), run[1..])
  }

  /** How often `o` came in while it was not held, and how often it was handed back. */
  function Arrivals(p: Pool, run: seq<PoolStep>, o: Order): nat
    decreases run
  {
    if run == [] then 0
    else (if run[0].Enter? && o in run[0].orders && o !in p.held then 1 else 0) + Arrivals(After(p, run[0]), run[1..], o)
  }

  function Departures(p: Pool, run: seq<PoolStep>, o: Order): nat
    decreases run
  {
    if run == [] then 0 else multiset(Out(p, run[0]))[o] + Departures(After(p, run[0]), run[1..], o)
  }

  function Held(p: Pool, o: Order): nat {
    if o in p.held then 1 else 0
  }

  /** Every held order is on the list of a tracked block. */
  ghost predicate Listed(p: Pool) {
    forall o :: o in p.held ==> exists b :: b in p.blocks && o in p.blocks[b]
  }

  lemma StepListed(p: Pool, s: PoolStep)
    requires Listed(p) && Enabled(p, s)
    ensures Listed(After(p, s))
  {
    var q := After(p, s);
    forall o | o in q.held
      ensures exists b :: b in q.blocks && o in q.blocks[b]
    {
      if s.Enter? && o in s.orders {
        assert o in q.blocks[s.block];
      } else {
        var b :| b in p.blocks && o in p.blocks[b];
        assert b in q.blocks && o in q.blocks[b];
      }
    }
  }

  lemma TakenOnce(held: set<Order>, ids: seq<Order>, o: Order)
    ensures multiset(Take(held, ids))[o] == if o in held && o in ids then 1 else 0
  {
    DistinctCounts(Take(held, ids), o);
    assert o in Take(held, ids) <==> o in Elements(Take(held, ids));
  }

  lemma StepBalance(p: Pool, s: PoolStep, o: Order)
    ensures Held(p, o) + (if s.Enter? && o in s.orders && o !in p.held then 1 else 0)
            == Held(After(p, s), o) + multiset(Out(p, s))[o]
  {
    match s
    case Enter(_, _) =>
    case Reorg(ids) => TakenOnce(p.held, ids, o);
    case Finalize(b) =>
      if b in p.blocks {
        TakenOnce(p.held, p.blocks[b], o);
      }
  }

  /** Exactly which orders a step makes leave, each handed back once: a reorg those it names, finalizing a
      block those on the block's list. Nothing else changes hands. */
  lemma LeavesIff(p: Pool, s: PoolStep, o: Order)
    requires o in p.held
    ensures var leaves := match s
              case Enter(_, _) => false
              case Reorg(ids) => o in ids
              case Finalize(b) => b in p.blocks && o in p.blocks[b];
            && (o in After(p, s).held <==> !leaves) && multiset(Out(p, s))[o] == if leaves then 1 else 0
  {
    StepBalance(p, s, o);
    match s
    case Enter(_, _) =>
    case Reorg(ids) => TakenOnce(p.held, ids, o);
    case Finalize(b) =>
      if b in p.blocks {
        TakenOnce(p.held, p.blocks[b], o);
      }
  }

  lemma {:induction false} RunKeeps(p: Pool, run: seq<PoolStep>, o: Order)
    requires Listed(p) && Legal(p, run)
    ensures Listed(Exec(p, run))
    ensures Held(p, o) + Arrivals(p, run, o) == Held(Exec(p, run), o) + Departures(p, run, o)
    decreases run
  {
    hide Listed, Held, After, Out, Enabled;
    if run != [] {
      StepListed(p, run[0]);
      StepBalance(p, run[0], o);
      RunKeeps(After(p, run[0]), run[1..], o);
    }
  }

  function Finalizes(bs: seq<nat>): seq<PoolStep> {
    seq(|bs|, i requires 0 <= i < |bs| => Finalize(bs[i]))
  }

  lemma {:induction false} FinalizesBlocks(p: Pool, bs: seq<nat>)
    ensures Legal(p, Finalizes(bs))
    ensures Exec(p, Finalizes(bs)).blocks.Keys == p.blocks.Keys - set b | b in bs
    decreases bs
  {
    if bs != [] {
      assert Finalizes(bs)[1..] == Finalizes(bs[1..]);
      FinalizesBlocks(After(p, Finalize(bs[0])), bs[1..]);
      assert (set b | b in bs) == {bs[0]} + set b | b in bs[1..];
    }
  }

  lemma {:induction false} ExecConcat(p: Pool, xs: seq<PoolStep>, ys: seq<PoolStep>)
    requires Legal(p, xs) && Legal(Exec(p, xs), ys)
    ensures Legal(p, xs + ys) && Exec(p, xs + ys) == Exec(Exec(p, xs), ys)
    decreases xs
  {
    if xs == [] {
      assert xs + ys == ys;
    } else {
      assert (xs + ys)[1..] == xs[1..] + ys && (xs + ys)[0] == xs[0];
      ExecConcat(After(p, xs[0]), xs[1..], ys);
    }
  }

  /** From the empty pool, after any steps: an order has left as often as it came in, except for one
      pending visit if it is held. Finalizing all the blocks still tracked, in whatever sequence, empties
      the pool, so every visit then ended exactly once. */
  lemma FinalizationTheorem(run: seq<PoolStep>, bs: seq<nat>, o: Order)
    requires Legal(EMPTY, run) && Exec(EMPTY, run).blocks.Keys <= set b | b in bs
    ensures Arrivals(EMPTY, run, o) == Held(Exec(EMPTY, run), o) + Departures(EMPTY, run, o)
    ensures Legal(EMPTY, run + Finalizes(bs)) && Exec(EMPTY, run + Finalizes(bs)) == EMPTY
    ensures Arrivals(EMPTY, run + Finalizes(bs), o) == Departures(EMPTY, run + Finalizes(bs), o)
  {
    hide Legal, Exec, Arrivals, Departures, After, Out;
    var p, all := Exec(EMPTY, run), run + Finalizes(bs);
    RunKeeps(EMPTY, run, o);
    FinalizesBlocks(p, bs);
    ExecConcat(EMPTY, run, Finalizes(bs));
    RunKeeps(EMPTY, all, o);
    var q := Exec(EMPTY, all);
    assert q.blocks.Keys == {};
    assert q.held == {};
  }

  class FinalizationPool {
    var idToOrders: set<Order>
    var blockToIds: map<nat, seq<Order>>

    ghost function Value(): Pool
      reads this
    {
      Pool(idToOrders, blockToIds)
    }

    constructor ()
      ensures Value() == EMPTY
    {
      idToOrders, blockToIds := {}, map[];
    }

    /** A block that was entered before trips the assertion, after the new list has replaced the old one. */
    method NewOrders(block: nat, orders: seq<Order>) returns (panicked: bool)
      modifies this
      ensures panicked == !Enabled(old(Value()), Enter(block, orders))
      ensures Value() == After(old(Value()), Enter(block, orders))
    {
      for i := 0 to |orders|
        invariant idToOrders == old(idToOrders) + Elements(orders[..i]) && blockToIds == old(blockToIds)
      {
        assert Elements(orders[..i + 1]) == Elements(orders[..i]) + {orders[i]};
        idToOrders := idToOrders + {orders[i]};
      }
      assert orders[..|orders|] == orders;
      panicked := block in blockToIds;
      blockToIds := blockToIds[block := orders];
    }

    method HasOrder(order: Order) returns (r: bool)
      ensures r == (order in Value().held)
    {
      r := order in idToOrders;
    }

    /** Removes the given ids that are held and returns them. */
    method RemoveAll(ids: seq<Order>) returns (removed: seq<Order>)
      modifies this`idToOrders
      ensures removed == Take(old(idToOrders), ids) && idToOrders == old(idToOrders) - Elements(ids)
    {
      removed := [];
      for i := 0 to |ids|
        invariant removed == Take(old(idToOrders), ids[..i]) && idToOrders == old(idToOrders) - Elements(ids[..i])
      {
        assert ids[..i + 1] == ids[..i] + [ids[i]];
        TakeSnoc(old(idToOrders), ids[..i], ids[i]);
        ElementsConcat(ids[..i], [ids[i]]);
        if ids[i] in idToOrders {
          removed := removed + [ids[i]];
          idToOrders := idToOrders - {ids[i]};
        }
      }
      assert ids[..|ids|] == ids;
    }

    method ReorgOrders(ids: seq<Order>) returns (removed: seq<Order>)
      modifies this`idToOrders
      ensures Value() == After(old(Value()), Reorg(ids)) && removed == Out(old(Value()), Reorg(ids))
    {
      removed := RemoveAll(ids);
    }

    method Finalized(block: nat) returns (removed: seq<Order>)
      modifies this
      ensures Value() == After(old(Value()), Finalize(block)) && removed == Out(old(Value()), Finalize(block))
    {
      if block !in blockToIds {
        return [];
      }
      var ids := blockToIds[block];
      blockToIds := blockToIds - {block};
      removed := RemoveAll(ids);
    }
  }
}
