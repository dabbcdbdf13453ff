/** Runs, spelled out, in which an unguarded acceptance makes a block go wrong or undoes a cancel. */
module OrderExamples {
  import opened FiniteSums
  import opened Options
  import opened Orders
  import opened OrderStores
  import opened OrderValidators
  import opened OrderPools
  import opened OrderReplies
  import FP = FinalizationPools

  /** For verdicts that charge nothing. */
  const NO_GAS := Gas(0, 0)

  /** The first job resolves and its order is accepted as executable at block `n`, charging `g`. */
  function AcceptFirst(n: nat, g: Gas): IndexerStep {
    PollIn(PollInput(Some(0), false, Verdict(true, n, g, true, [], true), Walk(0, [], [])))
  }

  /** The barrier is clear: process the block. */
  function Process(walk: Walk): IndexerStep {
    PollIn(PollInput(None, false, Verdict(false, 0, NO_GAS, false, [], false), walk))
  }

  function Pending(q: seq<Job>): Validator {
    Validator(Regular, q, [], 0, 0, [], [])
  }

  function Lone(o: Order, g: Gas): Indexer {
    Indexer(0, Pending([]), Storage(map[o := Level(o.quote, g)], {Level(o.quote, g)}, {}), FP.EMPTY, {o}, map[o.from := {o}], {}, map[], {}, map[], [])
  }

  /** An idle indexer takes in a new order and its validation accepts it. */
  lemma InAndAccepted(x: Indexer, o: Order, n: nat, g: Gas)
    requires x.validator.phase.Regular? && x.validator.inflight == [] && x.validator.client == n == x.block
    requires !CancelledByOwner(x, o) && o !in x.byHash && o !in x.seenInvalid && o !in x.validating && o !in x.subs
    ensures var y := After(x, OrderIn(o, None));
            && Enabled(x, OrderIn(o, None), map[]) && Enabled(y, AcceptFirst(n, g), map[])
            && After(y, AcceptFirst(n, g)) == Indexed(x, o).(store := Add(x.store, o, g, true))
  {
    hide Add, GoodWalk;
    var y := After(x, OrderIn(o, None));
    var job := Job(o, n);
    assert y.validator == x.validator.(inflight := [job]) && y.validating == x.validating + {o};
    assert Without([job], 0) == [];
    assert y.validating - {o} == x.validating;
    assert x.subs - {o} == x.subs && x.answers + [] == x.answers;
    assert ParkEach(x.store, x.byHash + {o}, []) == x.store;
  }

  lemma OneIn(o: Order, g: Gas)
    ensures var x := NewIndexer(0); var y := After(x, OrderIn(o, None));
            && Enabled(x, OrderIn(o, None), map[]) && Enabled(y, AcceptFirst(0, g), map[])
            && After(y, AcceptFirst(0, g)) == Lone(o, g)
  {
    hide After, Enabled;
    InAndAccepted(NewIndexer(0), o, 0, g);
    var e: set<Order>, l: set<Level> := {}, {};
    assert e + {o} == {o} && l + {Level(o.quote, g)} == {Level(o.quote, g)};
  }

  function Pair(a: Order, b: Order, g: Gas): Indexer {
    Indexer(0, Pending([]), Storage(map[a := Level(a.quote, g), b := Level(a.quote, g)], {Level(a.quote, g)}, {}), FP.EMPTY, {a, b}, map[a.from := {a, b}], {}, map[], {}, map[], [])
  }

  lemma SecondIn(a: Order, b: Order, g: Gas)
    requires a != b && a.from == b.from && a.quote == b.quote
    ensures var x := Lone(a, g); var y := After(x, OrderIn(b, None));
            && Enabled(x, OrderIn(b, None), map[]) && Enabled(y, AcceptFirst(0, g), map[])
            && After(y, AcceptFirst(0, g)) == Pair(a, b, g)
  {
    hide After, Enabled;
    InAndAccepted(Lone(a, g), b, 0, g);
    assert {a} + {b} == {a, b} && {Level(a.quote, g)} + {Level(b.quote, g)} == {Level(a.quote, g)};
  }

  lemma TwoRemoved(a: Order, b: Order, g: Gas)
    requires a != b && a.quote == b.quote
    ensures RemoveEach(Storage(map[a := Level(a.quote, g), b := Level(a.quote, g)], {Level(a.quote, g)}, {}), [a, b]) == (EMPTY_STORE, [a])
  {
    var s, e := Storage(map[a := Level(a.quote, g), b := Level(a.quote, g)], {Level(a.quote, g)}, {}), EMPTY_STORE;
    RemoveEachSnoc(s, [], a);
    assert Remove(s, a) == (Storage(map[b := Level(a.quote, g)], {}, {}), true) by {
      assert s.pending - {a} == map[b := Level(a.quote, g)] && s.levels - {Level(a.quote, g)} == {};
    }
    RemoveEachSnoc(s, [a], b);
    assert Remove(Storage(map[b := Level(a.quote, g)], {}, {}), b) == (e, false) by {
      assert map[b := Level(a.quote, g)] - {b} == map[] && e.levels - {Level(a.quote, g)} == {} && e.parked - {b} == {};
    }
    assert [] + [a] == [a] && [a] + [b] == [a, b];
  }

  lemma PairProcessed(a: Order, b: Order, g: Gas)
    requires a != b && a.from == b.from && a.quote == b.quote
    requires a.deadline == b.deadline == None && a.flashBlock == b.flashBlock == None
    ensures var x, s, t := Pair(a, b, g), BlockIn(1, [], [a.from]), Process(Walk(0, [a, b], []));
            && Enabled(x, s, map[]) && Enabled(After(x, s), t, map[])
            && var y := After(After(x, s), t);
              y.store == EMPTY_STORE && y.validator.waiting == [a] && y.validator.inflight == [] && y.pool == FP.EMPTY
  {
    var x := Polled(After(Pair(a, b, g), BlockIn(1, [], [a.from])), PollInput(None, false, Verdict(false, 0, NO_GAS, false, [], false), Walk(0, [a, b], [])));
    assert x.validator.phase.Cleanup?;
    forall o | o in {a, b}
      ensures o in IdsFrom(x, [a.from])
    {
      assert a.from in [a.from] && a.from in x.byAddress && o in x.byAddress[a.from];
    }
    assert IdsFrom(x, [a.from]) == {a, b} == Elements([a, b]);
    TwoRemoved(a, b, g);
    var z := Filled(x, 1, [], [a.from], Walk(0, [a, b], []));
    assert ExpiredIds(z, 1, 0) == {} == Elements([]);
  }

  lemma {:induction false} Append(x: Indexer, asked: map<Reply, Order>, run: seq<IndexerStep>, s: IndexerStep)
    requires Legal(x, asked, run)
    requires var (y, b) := Exec(x, asked, run); Enabled(y, s, b)
    ensures Legal(x, asked, run + [s])
    ensures var (y, b) := Exec(x, asked, run); Exec(x, asked, run + [s]) == (After(y, s), Asked(b, s))
    decreases run
  {
    hide GoodWalk, After, Asked;
    if run == [] {
      assert run + [s] == [s];
    } else {
      assert (run + [s])[0] == run[0] && (run + [s])[1..] == run[1..] + [s];
      Append(After(x, run[0]), Asked(asked, run[0]), run[1..], s);
    }
  }

  lemma Append2(block: nat, run: seq<IndexerStep>, s: IndexerStep, t: IndexerStep)
    requires Legal(NewIndexer(block), map[], run) && Exec(NewIndexer(block), map[], run).1 == map[]
    requires var y := Exec(NewIndexer(block), map[], run).0;
             Asked(map[], s) == Asked(map[], t) == map[] && Enabled(y, s, map[]) && Enabled(After(y, s), t, map[])
    ensures Legal(NewIndexer(block), map[], run + [s, t])
    ensures var y := Exec(NewIndexer(block), map[], run).0;
            Exec(NewIndexer(block), map[], run + [s, t]) == (After(After(y, s), t), map[])
  {
    hide Legal, Exec, GoodWalk, After, Asked;
    Append(NewIndexer(block), map[], run, s);
    Append(NewIndexer(block), map[], run + [s], t);
    assert run + [s] + [t] == run + [s, t];
  }

  /** Two orders of one address with one quote are accepted and charged the same gas, then the address
      changes: the block sends one of them back to validation and the other is nowhere any more. */
  lemma BlockLosesAnOrder(a: Order, b: Order, g: Gas)
    requires a != b && a.from == b.from && a.quote == b.quote
    requires a.deadline == b.deadline == None && a.flashBlock == b.flashBlock == None
    ensures var run := [OrderIn(a, None), AcceptFirst(0, g), OrderIn(b, None), AcceptFirst(0, g),
                        BlockIn(1, [], [a.from]), Process(Walk(0, [a, b], []))];
            && Legal(NewIndexer(0), map[], run)
            && var y := Exec(NewIndexer(0), map[], run).0;
              y.store == EMPTY_STORE && y.validator.waiting == [a] && y.validator.inflight == [] && y.pool == FP.EMPTY
  {
    hide After, GoodWalk, Enabled, Lone, Pair;
    OneIn(a, g);
    SecondIn(a, b, g);
    PairProcessed(a, b, g);
    var r0: seq<IndexerStep> := [];
    assert Legal(NewIndexer(0), map[], r0);
    var r1 := r0 + [OrderIn(a, None), AcceptFirst(0, g)];
    Append2(0, r0, OrderIn(a, None), AcceptFirst(0, g));
    var r2 := r1 + [OrderIn(b, None), AcceptFirst(0, g)];
    Append2(0, r1, OrderIn(b, None), AcceptFirst(0, g));
    Append2(0, r2, BlockIn(1, [], [a.from]), Process(Walk(0, [a, b], [])));
    assert r2 + [BlockIn(1, [], [a.from]), Process(Walk(0, [a, b], []))] ==
      [OrderIn(a, None), AcceptFirst(0, g), OrderIn(b, None), AcceptFirst(0, g), BlockIn(1, [], [a.from]), Process(Walk(0, [a, b], []))];
  }

  // ----- an order accepted again while it awaits finalization

  /** Filled at block 1 and awaiting finalization; only the address index still mentions it. */
  function Awaiting(o: Order, v: Validator): Indexer {
    Indexer(1, v, EMPTY_STORE, FP.Pool({o}, map[1 := [o]]), {}, map[o.from := {o}], {}, map[], {}, map[], [])
  }

  /** No address changed. */
  lemma NothingChanged(x: Indexer, block: nat, k: Walk)
    requires k.changed == []
    ensures Enumerates([], IdsFrom(x, [])) && Changed(x, block, [], k) == x.(block := block, seenInvalid := {})
  {
    assert IdsFrom(x, []) == {} == Elements([]);
    NoRemoval(x.store);
    SubmitNone(x.validator);
    assert x.byAddress - {} == x.byAddress;
  }

  lemma OneFilled(x: Indexer, o: Order, block: nat, g: Gas)
    requires x.store == Storage(map[o := Level(o.quote, g)], {Level(o.quote, g)}, {}) && x.byHash == {o} && x.pool == FP.EMPTY
    ensures Fill(x, block, [o]) ==
            x.(byHash := {}, store := EMPTY_STORE, pool := FP.Pool({o}, map[block := [o]]))
  {
    hide RemoveEach, Take;
    OneTaken(o);
    OneRemoved(o, g);
    assert Elements([o]) == {o};
  }

  lemma OneTaken(o: Order)
    ensures Take({o}, [o]) == [o]
  {
  }

  lemma OneRemoved(o: Order, g: Gas)
    ensures RemoveEach(Storage(map[o := Level(o.quote, g)], {Level(o.quote, g)}, {}), [o]) == (EMPTY_STORE, [o])
  {
    var s := Storage(map[o := Level(o.quote, g)], {Level(o.quote, g)}, {});
    RemoveEachSnoc(s, [], o);
    assert [] + [o] == [o];
    assert Remove(s, o) == (EMPTY_STORE, true) by {
      assert s.pending - {o} == map[] && s.levels - {Level(o.quote, g)} == {};
    }
  }

  /** Nothing is indexed, so nothing expires. */
  lemma NothingExpires(x: Indexer, block: nat, cutoff: nat)
    requires x.byHash == {}
    ensures Enumerates([], ExpiredIds(x, block, cutoff))
    ensures var y := Expire(x, block, cutoff, []);
            y.store == x.store && y.byHash == {} && y.byAddress == x.byAddress && y == x.(cancelled := y.cancelled)
  {
    assert ExpiredIds(x, block, cutoff) == {} == Elements([]);
    assert RemoveEach(x.store, []) == (x.store, []);
    assert forall a :: a in x.byAddress ==> x.byAddress[a] - {} == x.byAddress[a];
    assert (map a | a in x.byAddress :: x.byAddress[a] - Elements([])) == x.byAddress;
  }

  lemma FilledOnce(o: Order, g: Gas)
    ensures var x, s, t := Lone(o, g), BlockIn(1, [o], []), Process(Walk(0, [], []));
            && Enabled(x, s, map[]) && Enabled(After(x, s), t, map[])
            && After(After(x, s), t) == Awaiting(o, Validator(Inform, [], [], 0, 1, [], []))
  {
    hide Fill, Changed, Expire;
    var k := Walk(0, [], []);
    var x := Lone(o, g).(validator := Validator(Cleanup, [], [], 0, 1, [], []));
    assert x == Polled(After(Lone(o, g), BlockIn(1, [o], [])), PollInput(None, false, Verdict(false, 0, NO_GAS, false, [], false), k));
    NothingChanged(x, 1, k);
    OneFilled(x.(block := 1, seenInvalid := {}), o, 1, g);
    var z := Filled(x, 1, [o], [], k);
    NothingExpires(z, 1, 0);
    NoCancels(z, 1, 0);
  }

  lemma NoCancels(x: Indexer, block: nat, cutoff: nat)
    requires x.cancelled == map[]
    ensures Expire(x, block, cutoff, []).cancelled == map[]
  {
  }

  const MOVED := PollIn(PollInput(None, true, Verdict(false, 0, NO_GAS, false, [], false), Walk(0, [], [])))

  lemma BackToRegular(o: Order)
    ensures var x := Awaiting(o, Validator(Inform, [], [], 0, 1, [], []));
            && Enabled(x, ClientMove, map[]) && Enabled(After(x, ClientMove), MOVED, map[])
            && After(After(x, ClientMove), MOVED) == Awaiting(o, Validator(Regular, [], [], 1, 1, [], []))
  {
    var v := Validator(Inform, [], [], 1, 1, [], []);
    assert Jobs([], 1) == [];
    assert Poll(v, None, true) == (Validator(Regular, [], [], 1, 1, [], []), Some(TransitionComplete));
  }

  /** The order comes in, is accepted, and block 1 fills it. */
  function FillRun(o: Order, g: Gas): seq<IndexerStep> {
    [OrderIn(o, None), AcceptFirst(0, g), BlockIn(1, [o], []), Process(Walk(0, [], [])), ClientMove, MOVED]
  }

  lemma FillRuns(o: Order, g: Gas)
    ensures Legal(NewIndexer(0), map[], FillRun(o, g))
    ensures Exec(NewIndexer(0), map[], FillRun(o, g)) == (Awaiting(o, Validator(Regular, [], [], 1, 1, [], [])), map[])
  {
    hide After, GoodWalk, Enabled, Lone, Awaiting;
    OneIn(o, g);
    FilledOnce(o, g);
    BackToRegular(o);
    var r0: seq<IndexerStep> := [];
    assert Legal(NewIndexer(0), map[], r0);
    var r1 := r0 + [OrderIn(o, None), AcceptFirst(0, g)];
    Append2(0, r0, OrderIn(o, None), AcceptFirst(0, g));
    var r2 := r1 + [BlockIn(1, [o], []), Process(Walk(0, [], []))];
    Append2(0, r1, BlockIn(1, [o], []), Process(Walk(0, [], [])));
    Append2(0, r2, ClientMove, MOVED);
    assert r2 + [ClientMove, MOVED] == FillRun(o, g);
  }

  /** Accepted once more: stored and awaiting finalization at once. */
  function Both(o: Order, g: Gas): Indexer {
    Awaiting(o, Validator(Regular, [], [], 1, 1, [], [])).(store := Storage(map[o := Level(o.quote, g)], {Level(o.quote, g)}, {}), byHash := {o})
  }

  lemma AcceptedAgain(o: Order, g: Gas)
    ensures var x := Awaiting(o, Validator(Regular, [], [], 1, 1, [], [])); var y := After(x, OrderIn(o, None));
            && Enabled(x, OrderIn(o, None), map[]) && Enabled(y, AcceptFirst(1, g), map[])
            && After(y, AcceptFirst(1, g)) == Both(o, g)
  {
    hide After, Enabled;
    InAndAccepted(Awaiting(o, Validator(Regular, [], [], 1, 1, [], [])), o, 1, g);
    var e: set<Order>, l: set<Level> := {}, {};
    assert e + {o} == {o} == {o} + {o} && l + {Level(o.quote, g)} == {Level(o.quote, g)};
  }

  function CancelOwn(o: Order): IndexerStep {
    CancelIn(CancelInput(o.from, o, true, 0, [o]))
  }

  /** The cancel drops the hash index entry and leaves the order stored; the block cannot see it then. */
  lemma CancelledAndProcessed(o: Order, cutoff: nat, g: Gas)
    ensures var x, s, t := Both(o, g), CancelOwn(o), BlockIn(2, [], []);
            var y := After(After(x, s), t);
            && Enabled(x, s, map[]) && Enabled(After(x, s), t, map[])
            && Enabled(y, Process(Walk(cutoff, [], [])), map[])
            && o in Stored(After(y, Process(Walk(cutoff, [], []))).store)
  {
    hide Changed, Expire;
    var k := Walk(cutoff, [], []);
    var c := CancelRequest(o.from, LATE_ORDER_WINDOW);
    var x := After(Both(o, g), CancelOwn(o));
    assert Elements([o]) == {o};
    assert x == Both(o, g).(byHash := {}, cancelled := map[o := c]);
    var y := After(x, BlockIn(2, [], []));
    var z := y.(validator := Validator(Cleanup, [], [], 1, 2, [], []));
    assert z == Polled(y, PollInput(None, false, Verdict(false, 0, NO_GAS, false, [], false), k));
    NothingChanged(z, 2, k);
    NothingExpires(Filled(z, 2, [], [], k), 2, cutoff);
  }

  /** Filled, accepted once more, cancelled: the order is still stored after a block past its deadline. */
  lemma BlockKeepsExpired(o: Order, g: Gas)
    requires o.deadline.Some?
    ensures var run := FillRun(o, g) + [OrderIn(o, None), AcceptFirst(1, g), CancelOwn(o), BlockIn(2, [], [])];
            && Legal(NewIndexer(0), map[], run)
            && var x, last := Exec(NewIndexer(0), map[], run).0, Process(Walk(o.deadline.value, [], []));
              Enabled(x, last, map[]) && o in Stored(After(x, last).store) && Expired(o, 2, o.deadline.value)
  {
    hide After, GoodWalk, Enabled, Awaiting, Both, FillRun, Legal, Exec;
    FillRuns(o, g);
    AcceptedAgain(o, g);
    CancelledAndProcessed(o, o.deadline.value, g);
    Append2(0, FillRun(o, g), OrderIn(o, None), AcceptFirst(1, g));
    Append2(0, FillRun(o, g) + [OrderIn(o, None), AcceptFirst(1, g)], CancelOwn(o), BlockIn(2, [], []));
    assert FillRun(o, g) + [OrderIn(o, None), AcceptFirst(1, g)] + [CancelOwn(o), BlockIn(2, [], [])]
        == FillRun(o, g) + [OrderIn(o, None), AcceptFirst(1, g), CancelOwn(o), BlockIn(2, [], [])];
  }

  // ----- an order validated twice at once

  /** The first job resolves; its order holds but cannot be executed now. */
  const PARK_FIRST := PollIn(PollInput(Some(0), false, Verdict(true, 1, NO_GAS, false, [], true), Walk(0, [], [])))

  /** The order is filled, handed in again, and its fill reorged: two jobs for it, nothing held. */
  function Twice(o: Order): Indexer {
    Indexer(1, Validator(Regular, [Job(o, 1), Job(o, 1)], [], 1, 1, [], []), EMPTY_STORE,
            FP.Pool({}, map[1 := [o]]), {}, map[o.from := {o}], {}, map[], {o}, map[], [])
  }

  lemma SubmittedTwice(o: Order)
    ensures var x := Awaiting(o, Validator(Regular, [], [], 1, 1, [], []));
            && Enabled(x, OrderIn(o, None), map[]) && Enabled(After(x, OrderIn(o, None)), ReorgIn([o]), map[])
            && After(After(x, OrderIn(o, None)), ReorgIn([o])) == Twice(o)
  {
    hide Take;
    var x := Awaiting(o, Validator(Regular, [], [], 1, 1, [], []));
    var y := After(x, OrderIn(o, None));
    assert y.validator == Validator(Regular, [Job(o, 1)], [], 1, 1, [], []);
    assert y.validating == {o};
    OneTaken(o);
    assert Elements([o]) == {o} && {o} - {o} == {};
    assert Jobs([o], 1) == [Job(o, 1)];
  }

  /** Pending and parked at once. */
  function Halves(o: Order, g: Gas): Indexer {
    Indexer(1, Validator(Regular, [], [], 1, 1, [], []), Storage(map[o := Level(o.quote, g)], {Level(o.quote, g)}, {o}),
            FP.Pool({}, map[1 := [o]]), {o}, map[o.from := {o}], {}, map[], {}, map[], [])
  }

  lemma AcceptedTwice(o: Order, g: Gas)
    requires o.quote.kind.Vanilla?
    ensures var x := Twice(o); var y := After(x, AcceptFirst(1, g));
            && Enabled(x, AcceptFirst(1, g), map[]) && Enabled(y, PARK_FIRST, map[])
            && After(y, PARK_FIRST) == Halves(o, g)
  {
    hide GoodWalk;
    var x := Twice(o);
    var y := After(x, AcceptFirst(1, g));
    assert Without([Job(o, 1), Job(o, 1)], 0) == [Job(o, 1)] && Without([Job(o, 1)], 0) == [];
    assert ParkEach(x.store, {o}, []) == x.store;
    assert {o} - {o} == {} && x.subs - {o} == x.subs;
    assert y.store == Storage(map[o := Level(o.quote, g)], {Level(o.quote, g)}, {});
    assert ParkEach(y.store, {o}, []) == y.store;
    assert {o} + {o} == {o};
  }

  lemma HalvesProcessed(o: Order, g: Gas)
    requires !Expired(o, 2, 0)
    ensures var x, s, t := Halves(o, g), BlockIn(2, [], [o.from]), Process(Walk(0, [o], []));
            && Enabled(x, s, map[]) && Enabled(After(x, s), t, map[])
            && o in Stored(After(After(x, s), t).store)
  {
    hide RemoveEach, SubmitAll, Expired;
    var k := Walk(0, [o], []);
    var x := Halves(o, g).(validator := Validator(Cleanup, [], [], 1, 2, [], []));
    assert x == Polled(After(Halves(o, g), BlockIn(2, [], [o.from])), PollInput(None, false, Verdict(false, 0, NO_GAS, false, [], false), k));
    assert o.from in [o.from] && o in x.byAddress[o.from];
    assert IdsFrom(x, [o.from]) == {o} == Elements([o]);
    ParkedCopyStays(o, g);
    var z := Filled(x, 2, [], [o.from], k);
    assert z.byHash == {o};
    assert ExpiredIds(z, 2, 0) == {} == Elements([]);
    NoRemoval(z.store);
  }

  lemma ParkedCopyStays(o: Order, g: Gas)
    ensures RemoveEach(Storage(map[o := Level(o.quote, g)], {Level(o.quote, g)}, {o}), [o]) == (Storage(map[], {}, {o}), [o])
  {
    var s := Storage(map[o := Level(o.quote, g)], {Level(o.quote, g)}, {o});
    RemoveEachSnoc(s, [], o);
    assert [] + [o] == [o];
    assert Remove(s, o) == (Storage(map[], {}, {o}), true) by {
      assert s.pending - {o} == map[] && s.levels - {Level(o.quote, g)} == {};
    }
  }

  /** Filled, handed in again and reorged, an order is accepted twice with different outcomes: after its
      address changes, the block still leaves one copy of it in the store. */
  lemma BlockKeepsChangedAddress(o: Order, g: Gas)
    requires o.quote.kind.Vanilla? && !Expired(o, 2, 0)
    ensures var run := FillRun(o, g) + [OrderIn(o, None), ReorgIn([o]), AcceptFirst(1, g), PARK_FIRST,
                                     BlockIn(2, [], [o.from]), Process(Walk(0, [o], []))];
            Legal(NewIndexer(0), map[], run) && o in Stored(Exec(NewIndexer(0), map[], run).0.store)
  {
    hide After, GoodWalk, Enabled, Awaiting, Twice, Halves, Expired, FillRun, Legal, Exec;
    FillRuns(o, g);
    SubmittedTwice(o);
    AcceptedTwice(o, g);
    HalvesProcessed(o, g);
    var r1 := FillRun(o, g) + [OrderIn(o, None), ReorgIn([o])];
    Append2(0, FillRun(o, g), OrderIn(o, None), ReorgIn([o]));
    var r2 := r1 + [AcceptFirst(1, g), PARK_FIRST];
    Append2(0, r1, AcceptFirst(1, g), PARK_FIRST);
    Append2(0, r2, BlockIn(2, [], [o.from]), Process(Walk(0, [o], [])));
    assert r2 + [BlockIn(2, [], [o.from]), Process(Walk(0, [o], []))]
        == FillRun(o, g) + [OrderIn(o, None), ReorgIn([o]), AcceptFirst(1, g), PARK_FIRST,
                         BlockIn(2, [], [o.from]), Process(Walk(0, [o], []))];
  }

  /** Removing the pending copy leaves the parked one. */
  lemma HalfRemoved(o: Order, g: Gas)
    ensures Remove(Halves(o, g).store, o) == (Storage(map[], {}, {o}), true)
  {
    var s := Halves(o, g).store;
    assert s.pending - {o} == map[] && s.levels - {Level(o.quote, g)} == {};
  }

  /** The owner's cancel: the parked copy goes back to validation. */
  lemma HalvesCancelled(o: Order, g: Gas)
    ensures var x := Halves(o, g); var y := After(x, CancelOwn(o));
            && Enabled(x, CancelOwn(o), map[]) && Enabled(y, AcceptFirst(1, g), map[])
            && Cancel(x, CancelInput(o.from, o, true, 0, [o])).1
            && y.validator.inflight == [Job(o, 1)] && Stored(y.store) == {}
            && o in Stored(After(y, AcceptFirst(1, g)).store) && CancelledByOwner(After(y, AcceptFirst(1, g)), o)
  {
    hide Remove, GoodWalk;
    var x := Halves(o, g);
    var y := After(x, CancelOwn(o));
    HalfRemoved(o, g);
    assert Elements([o]) == {o} == OrdersFrom(x, o.from);
    assert [o][..0] == [] && RemoveParkedEach(Storage(map[], {}, {o}), []) == (Storage(map[], {}, {o}), []);
    assert {o} - {o} == {} && [] + [o] == [o];
    assert RemoveParkedEach(Storage(map[], {}, {o}), [o]) == (EMPTY_STORE, [o]);
    assert Jobs([o], 1) == [Job(o, 1)];
    assert y.validator.inflight == [] + [Job(o, 1)] == [Job(o, 1)];
    assert ParkEach(y.store, y.byHash + {o}, []) == y.store;
  }

  /** A stranger's cancel: the parked copy stays stored. */
  lemma HalvesCancelledBy(user: Address, o: Order, g: Gas)
    requires user != o.from
    ensures var x := Halves(o, g);
            Enabled(x, CancelBy(user, o, []), map[]) && o in Stored(After(x, CancelBy(user, o, [])).store)
  {
    hide Remove;
    var x := Halves(o, g);
    HalfRemoved(o, g);
    assert OrdersFrom(x, user) == {} == Elements([]);
    assert RemoveParkedEach(Storage(map[], {}, {o}), []) == (Storage(map[], {}, {o}), []);
  }

  /** An order that is both pending and parked, no validation of it under way: its owner's cancel reports
      success and sends the parked copy back to validation, which stores it again; a stranger's cancel
      leaves that copy stored. */
  lemma CancelMissesCopy(user: Address, o: Order, g: Gas)
    requires o.quote.kind.Vanilla? && user != o.from
    ensures var run := FillRun(o, g) + [OrderIn(o, None), ReorgIn([o]), AcceptFirst(1, g), PARK_FIRST];
            && Legal(NewIndexer(0), map[], run)
            && Legal(NewIndexer(0), map[], run + [CancelOwn(o), AcceptFirst(1, g)])
            && Legal(NewIndexer(0), map[], run + [CancelBy(user, o, [])])
            && (var x := Exec(NewIndexer(0), map[], run).0;
                Outstanding(x.validator) == {} && Cancel(x, CancelInput(o.from, o, true, 0, [o])).1)
            && (var y := Exec(NewIndexer(0), map[], run + [CancelOwn(o), AcceptFirst(1, g)]).0;
                o in Stored(y.store) && CancelledByOwner(y, o))
            && o in Stored(Exec(NewIndexer(0), map[], run + [CancelBy(user, o, [])]).0.store)
  {
    hide After, GoodWalk, Enabled, Awaiting, Twice, Halves, FillRun, Legal, Exec, Stored, Cancel, Outstanding, CancelledByOwner;
    FillRuns(o, g);
    SubmittedTwice(o);
    AcceptedTwice(o, g);
    HalvesCancelled(o, g);
    HalvesCancelledBy(user, o, g);
    HalvesIdle(o, g);
    var r1 := FillRun(o, g) + [OrderIn(o, None), ReorgIn([o])];
    Append2(0, FillRun(o, g), OrderIn(o, None), ReorgIn([o]));
    var run := FillRun(o, g) + [OrderIn(o, None), ReorgIn([o]), AcceptFirst(1, g), PARK_FIRST];
    Append2(0, r1, AcceptFirst(1, g), PARK_FIRST);
    assert r1 + [AcceptFirst(1, g), PARK_FIRST] == run;
    Append2(0, run, CancelOwn(o), AcceptFirst(1, g));
    Append(NewIndexer(0), map[], run, CancelBy(user, o, []));
  }

  lemma HalvesIdle(o: Order, g: Gas)
    ensures Outstanding(Halves(o, g).validator) == {}
  {
  }

  // ----- a cancel that comes while the order is being validated

  lemma CancelInFlight(o: Order, g: Gas)
    ensures var x := After(NewIndexer(0), OrderIn(o, None));
            var c := CancelIn(CancelInput(o.from, o, true, 0, []));
            var y := After(x, c);
            && Enabled(x, c, map[]) && Enabled(y, AcceptFirst(0, g), map[])
            && CancelledByOwner(After(y, AcceptFirst(0, g)), o) && o in Stored(After(y, AcceptFirst(0, g)).store)
  {
    hide GoodWalk;
    var x := After(NewIndexer(0), OrderIn(o, None));
    assert x.validator == Pending([Job(o, 0)]);
    var y := After(x, CancelIn(CancelInput(o.from, o, true, 0, [])));
    assert OrdersFrom(x, o.from) == {} == Elements([]);
    assert y.validator == x.validator && y.cancelled == map[o := CancelRequest(o.from, LATE_ORDER_WINDOW)];
    assert ParkEach(y.store, y.byHash + {o}, []) == y.store;
  }

  /** Nothing in the indexer stops an order that was cancelled while its validation was under way: if the
      client still accepts it, it is stored, cancelled by its owner or not. */
  lemma CancelLosesRace(o: Order, g: Gas)
    ensures var run := [OrderIn(o, None), CancelIn(CancelInput(o.from, o, true, 0, [])), AcceptFirst(0, g)];
            && Legal(NewIndexer(0), map[], run)
            && var x := Exec(NewIndexer(0), map[], run).0; CancelledByOwner(x, o) && o in Stored(x.store)
  {
    hide After, GoodWalk, Enabled, Stored, CancelledByOwner;
    CancelInFlight(o, g);
    OneIn(o, g);
    var r0: seq<IndexerStep> := [];
    assert Legal(NewIndexer(0), map[], r0);
    Append(NewIndexer(0), map[], r0, OrderIn(o, None));
    var r1 := r0 + [OrderIn(o, None)];
    var c := CancelIn(CancelInput(o.from, o, true, 0, []));
    Append2(0, r1, c, AcceptFirst(0, g));
    assert r1 + [c, AcceptFirst(0, g)] == [OrderIn(o, None), c, AcceptFirst(0, g)];
  }

  // ----- cancels by somebody else

  function CancelBy(user: Address, o: Order, q: seq<Order>): IndexerStep {
    CancelIn(CancelInput(user, o, true, 0, q))
  }

  /** A stranger's cancel is registered before the order is known. */
  function Reserved(user: Address, o: Order): Indexer {
    NewIndexer(0).(cancelled := map[o := CancelRequest(user, LATE_ORDER_WINDOW)])
  }

  lemma ReservedByStranger(user: Address, o: Order)
    ensures Enabled(NewIndexer(0), CancelBy(user, o, []), map[])
    ensures After(NewIndexer(0), CancelBy(user, o, [])) == Reserved(user, o)
  {
    var x := NewIndexer(0);
    assert OrdersFrom(x, user) == {} == Elements([]);
    assert x.byHash - {o} == {};
  }

  lemma OwnerIsIgnored(user: Address, o: Order, g: Gas)
    requires user != o.from
    ensures var x := Indexed(Reserved(user, o), o).(store := Add(EMPTY_STORE, o, g, true));
            && Enabled(x, CancelBy(o.from, o, [o]), map[]) && After(x, CancelBy(o.from, o, [o])) == x
            && Cancel(x, CancelInput(o.from, o, true, 0, [o])).1 && o in Stored(x.store) && x.validator == Idle(0)
  {
    var x := Indexed(Reserved(user, o), o).(store := Add(EMPTY_STORE, o, g, true));
    var e: set<Order> := {};
    assert OrdersFrom(x, o.from) == e + {o} == {o} == Elements([o]);
  }

  /** A stranger cancels an order that is not known yet; it comes in and is accepted; then the owner's own
      cancel reports success and does nothing: the order stays stored, no validation of it under way. */
  lemma StrangerBlocksCancel(user: Address, o: Order, g: Gas)
    requires user != o.from
    ensures var run := [CancelBy(user, o, []), OrderIn(o, None), AcceptFirst(0, g)];
            && Legal(NewIndexer(0), map[], run)
            && var x := Exec(NewIndexer(0), map[], run).0;
              && Cancel(x, CancelInput(o.from, o, true, 0, [o])) == (x, true)
              && o in Stored(x.store) && x.validator == Idle(0)
  {
    hide After, GoodWalk, Enabled, Stored;
    ReservedByStranger(user, o);
    InAndAccepted(Reserved(user, o), o, 0, g);
    OwnerIsIgnored(user, o, g);
    var r0: seq<IndexerStep> := [];
    assert Legal(NewIndexer(0), map[], r0);
    Append(NewIndexer(0), map[], r0, CancelBy(user, o, []));
    var r1 := r0 + [CancelBy(user, o, [])];
    Append2(0, r1, OrderIn(o, None), AcceptFirst(0, g));
    assert r1 + [OrderIn(o, None), AcceptFirst(0, g)] == [CancelBy(user, o, []), OrderIn(o, None), AcceptFirst(0, g)];
  }

  /** The requester is not compared with the owner: a stranger's request takes a stored order out. */
  lemma StrangerTakesOut(user: Address, o: Order, g: Gas)
    requires user != o.from
    ensures var run := [OrderIn(o, None), AcceptFirst(0, g), CancelBy(user, o, [])];
            && Legal(NewIndexer(0), map[], run)
            && var x := Exec(NewIndexer(0), map[], run).0; Stored(x.store) == {} && CancelledByOwner(x, o)
  {
    hide After, GoodWalk, Enabled, Lone;
    OneIn(o, g);
    LoneCancelled(user, o, g);
    var r0: seq<IndexerStep> := [];
    assert Legal(NewIndexer(0), map[], r0);
    var r1 := r0 + [OrderIn(o, None), AcceptFirst(0, g)];
    Append2(0, r0, OrderIn(o, None), AcceptFirst(0, g));
    Append(NewIndexer(0), map[], r1, CancelBy(user, o, []));
    assert r1 + [CancelBy(user, o, [])] == [OrderIn(o, None), AcceptFirst(0, g), CancelBy(user, o, [])];
  }

  lemma LoneCancelled(user: Address, o: Order, g: Gas)
    requires user != o.from
    ensures var x := Lone(o, g);
            && Enabled(x, CancelBy(user, o, []), map[])
            && var y := After(x, CancelBy(user, o, [])); Stored(y.store) == {} && CancelledByOwner(y, o)
  {
    var x := Lone(o, g);
    assert OrdersFrom(x, user) == {} == Elements([]);
    assert Remove(x.store, o) == (EMPTY_STORE, true) by {
      assert x.store.pending - {o} == map[] && x.store.levels - {Level(o.quote, g)} == {};
    }
    assert RemoveParkedEach(EMPTY_STORE, []) == (EMPTY_STORE, []);
  }
}
