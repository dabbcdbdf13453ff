/**
 Over every run of the indexer: validation and the indexer never disagree on the block, and every reply
 channel is answered exactly once.
 */
module OrderReplies {
  import opened FiniteSums
  import opened Options
  import opened Orders
  import opened OrderStores
  import opened OrderValidators
  import opened OrderPools
  import FP = FinalizationPools

  /** Orders being validated or held back. */
  function Outstanding(v: Validator): set<Order> {
    Elements(OrdersOf(v.inflight)) + Elements(v.waiting)
  }

  /** Work is in flight only while the client's block is the indexer's block. */
  ghost predicate BlocksAgree(x: Indexer) {
    var v := x.validator;
    && !v.phase.Cleanup?
    && (v.phase.Regular? || v.phase.Clearing? ==> v.client == x.block && forall j :: j in v.inflight ==> j.began == x.block)
    && (v.phase.Inform? ==> v.inflight == [] && v.block == x.block)
    && (v.phase.Regular? ==> v.waiting == [])
  }

  function SentTo(answers: seq<Answer>): set<Reply> {
    set a | a in answers :: a.reply
  }

  predicate Listening(subs: map<Order, seq<Reply>>, o: Order, r: Reply) {
    o in subs && r in subs[o]
  }

  /** Every channel asked for is either still listening, once, or was answered, once. */
  ghost predicate Channels(subs: map<Order, seq<Reply>>, answers: seq<Answer>, asked: map<Reply, Order>) {
    && (forall o, r :: Listening(subs, o, r) ==> r in asked && asked[r] == o && r !in SentTo(answers))
    && (forall o, i, j :: o in subs && 0 <= i < j < |subs[o]| ==> subs[o][i] != subs[o][j])
    && (forall i, j :: 0 <= i < j < |answers| ==> answers[i].reply != answers[j].reply)
    && (forall a :: a in answers ==> a.reply in asked && asked[a.reply] == a.order && !a.message.WrongBlock?)
    && (forall r :: r in asked ==> Listening(subs, asked[r], r) || r in SentTo(answers))
  }

  ghost predicate Inv(x: Indexer, asked: map<Reply, Order>) {
    && BlocksAgree(x)
    && Channels(x.subs, x.answers, asked)
    && x.subs.Keys <= x.validating <= Outstanding(x.validator)
  }

  // ----- channels

  lemma SentConcat(a: seq<Answer>, b: seq<Answer>)
    ensures SentTo(a + b) == SentTo(a) + SentTo(b)
  {
  }

  lemma SentAll(q: seq<Reply>, o: Order, m: Message)
    ensures SentTo(AnswerAll(q, o, m)) == set r | r in q
  {
    forall r | r in q
      ensures r in SentTo(AnswerAll(q, o, m))
    {
      var i :| 0 <= i < |q| && q[i] == r;
      assert AnswerAll(q, o, m)[i].reply == r;
      assert AnswerAll(q, o, m)[i] in AnswerAll(q, o, m);
    }
  }

  lemma NotifyChannels(x: Indexer, asked: map<Reply, Order>, o: Order, m: Message)
    requires Channels(x.subs, x.answers, asked) && !m.WrongBlock?
    ensures Channels(Notify(x, o, m).subs, Notify(x, o, m).answers, asked)
  {
    hide SentTo;
    var q, y := Waiting(x, o), Notify(x, o, m);
    var more := AnswerAll(q, o, m);
    SentConcat(x.answers, more);
    SentAll(q, o, m);
    assert forall r :: r in q <==> Listening(x.subs, o, r);
    assert forall p, r :: Listening(y.subs, p, r) <==> p != o && Listening(x.subs, p, r);
    forall i, j | 0 <= i < j < |y.answers|
      ensures y.answers[i].reply != y.answers[j].reply
    {
      if i < |x.answers| <= j {
        AnsweredIsSent(x.answers, i);
        assert y.answers[j].reply in q;
      } else if |x.answers| <= i {
        assert y.answers[i].reply == q[i - |x.answers|] && y.answers[j].reply == q[j - |x.answers|];
      }
    }
    forall a | a in y.answers
      ensures a.reply in asked && asked[a.reply] == a.order && !a.message.WrongBlock?
    {
      if a in more {
        assert a.reply in q;
      }
    }
  }

  lemma AnsweredIsSent(answers: seq<Answer>, i: nat)
    requires i < |answers|
    ensures answers[i].reply in SentTo(answers)
  {
    assert answers[i] in answers;
  }

  lemma SubscribeChannels(x: Indexer, asked: map<Reply, Order>, o: Order, r: Reply)
    requires Channels(x.subs, x.answers, asked) && r !in asked
    ensures Channels(Subscribe(x, o, Some(r)).subs, x.answers, asked[r := o])
  {
    hide SentTo;
    var y := Subscribe(x, o, Some(r));
    SentWasAsked(x.answers, asked);
    assert forall p, t :: Listening(y.subs, p, t) <==> Listening(x.subs, p, t) || (p == o && t == r);
    forall p, i, j | p in y.subs && 0 <= i < j < |y.subs[p]|
      ensures y.subs[p][i] != y.subs[p][j]
    {
      if p == o {
        assert Listening(x.subs, o, Waiting(x, o)[i]);
      }
    }
  }

  // ----- outstanding work

  lemma JobsOrders(q: seq<Order>, client: nat)
    ensures OrdersOf(Jobs(q, client)) == q
  {
  }

  lemma OrdersConcat(p: seq<Job>, q: seq<Job>)
    ensures OrdersOf(p + q) == OrdersOf(p) + OrdersOf(q)
  {
  }

  lemma SubmitAllFacts(x: Indexer, q: seq<Order>)
    requires BlocksAgree(x)
    ensures Outstanding(SubmitAll(x.validator, q)) == Outstanding(x.validator) + Elements(q)
    ensures BlocksAgree(x.(validator := SubmitAll(x.validator, q)))
  {
    var v := x.validator;
    JobsOrders(q, v.client);
    OrdersConcat(v.inflight, Jobs(q, v.client));
    ElementsConcat(OrdersOf(v.inflight), q);
    ElementsConcat(v.waiting, q);
  }

  lemma WithoutOutstanding(q: seq<Job>, i: nat)
    requires i < |q|
    ensures Elements(OrdersOf(q)) - {q[i].order} <= Elements(OrdersOf(Without(q, i)))
  {
    forall o | o in OrdersOf(q) && o != q[i].order
      ensures o in OrdersOf(Without(q, i))
    {
      var k :| 0 <= k < |q| && OrdersOf(q)[k] == o;
      assert o == OrdersOf(Without(q, i))[if k < i then k else k - 1];
    }
  }

  // ----- steps

  lemma OrderKeeps(x: Indexer, asked: map<Reply, Order>, o: Order, reply: Option<Reply>)
    requires Inv(x, asked) && (reply.Some? ==> reply.value !in asked)
    ensures Inv(NewOrder(x, o, reply), Asked(asked, OrderIn(o, reply)))
  {
    hide Channels, Outstanding, BlocksAgree;
    var y, b := Subscribe(x, o, reply), Asked(asked, OrderIn(o, reply));
    if reply.Some? {
      SubscribeChannels(x, asked, o, reply.value);
    }
    NotifyChannels(y, b, o, CancelledOrder);
    NotifyChannels(y, b, o, DuplicateOrder);
    SubmitOne(x.validator, o);
    SubmitAllFacts(x, [o]);
    SameBlocks(x, NewOrder(x, o, reply));
    SameBlocks(x.(validator := SubmitAll(x.validator, [o])), NewOrder(x, o, reply));
  }

  lemma SameBlocks(x: Indexer, y: Indexer)
    ensures x.block == y.block && x.validator == y.validator ==> (BlocksAgree(x) <==> BlocksAgree(y))
  {
  }

  lemma ResubmitKeeps(x: Indexer, y: Indexer, asked: map<Reply, Order>, q: seq<Order>)
    requires Inv(x, asked)
    requires y.subs == x.subs && y.answers == x.answers && y.validating == x.validating && y.block == x.block
    requires y.validator == SubmitAll(x.validator, q)
    ensures Inv(y, asked)
  {
    hide Channels, Outstanding, BlocksAgree;
    SubmitAllFacts(x, q);
    SameBlocks(x.(validator := SubmitAll(x.validator, q)), y);
  }

  lemma CancelKeeps(x: Indexer, asked: map<Reply, Order>, c: CancelInput)
    requires Inv(x, asked)
    ensures Inv(Cancel(x, c).0, asked)
  {
    hide Inv, SubmitAll, Remove, RemoveParkedEach;
    SubmitNone(x.validator);
    if CancelActs(x, c) && CancelHits(x, c) {
      ResubmitKeeps(x, Cancel(x, c).0, asked, RemoveParkedEach(Remove(x.store, c.order).0, c.q).1);
    } else {
      ResubmitKeeps(x, Cancel(x, c).0, asked, []);
    }
  }

  /** A job that resolves was begun, and is stamped, at the indexer's block. */
  lemma StampAgrees(x: Indexer, i: PollInput)
    requires BlocksAgree(x) && GoodPoll(x, i)
    requires var r := Poll(x.validator, i.ready, i.informed).1; r.Some? && r.value.Validated?
    ensures i.ready.Some?
    ensures i.verdict.stamp == x.block == x.validator.client == x.validator.inflight[i.ready.value].began
  {
    hide GoodWalk;
    assert x.validator.inflight[i.ready.value] in x.validator.inflight;
  }

  lemma HandleKeeps(x: Indexer, asked: map<Reply, Order>, o: Order, w: Verdict)
    requires BlocksAgree(x) && Channels(x.subs, x.answers, asked)
    requires x.subs.Keys <= x.validating && x.validating - {o} <= Outstanding(x.validator)
    requires w.holds ==> w.stamp == x.block
    ensures Inv(Handle(x, o, w), asked)
  {
    hide Channels, Outstanding, BlocksAgree, RemoveInvalid, Add, ParkedStore;
    var y := x.(validating := x.validating - {o});
    NotifyChannels(y, asked, o, Rejected);
    NotifyChannels(y, asked, o, Accepted);
    NotifyChannels(y, asked, o, NotExecutable);
    SameBlocks(x, Handle(x, o, w));
  }

  lemma ValidatedKeeps(x: Indexer, asked: map<Reply, Order>, i: PollInput)
    requires Inv(x, asked) && GoodPoll(x, i)
    requires var r := Poll(x.validator, i.ready, i.informed).1; r.Some? && r.value.Validated?
    ensures Inv(PollOnce(x, i), asked)
  {
    hide Channels, Handle, GoodWalk;
    StampAgrees(x, i);
    var o := Poll(x.validator, i.ready, i.informed).1.value.order;
    WithoutOutstanding(x.validator.inflight, i.ready.value);
    WithoutOrders(x.validator.inflight, i.ready.value);
    HandleKeeps(Polled(x, i), asked, o, i.verdict);
  }

  /** What block processing leaves alone, and what it does to the validator. */
  lemma FinishFacts(x: Indexer, block: nat, completed: seq<Order>, addresses: seq<Address>, k: Walk)
    ensures var y := Finish(x, block, completed, addresses, k);
            && y.subs == x.subs && y.answers == x.answers && y.validating == x.validating && y.block == block
            && y.validator == NotifyChanges(SubmitAll(x.validator, RemoveEach(x.store, k.changed).1), block)
  {
    hide RemoveEach, Take, SubmitAll, NotifyChanges;
  }

  lemma FinishKeeps(x: Indexer, asked: map<Reply, Order>, i: PollInput)
    requires Inv(x, asked) && GoodPoll(x, i)
    requires var r := Poll(x.validator, i.ready, i.informed).1; r.Some? && r.value.EnsureClear?
    ensures Inv(PollOnce(x, i), asked)
  {
    hide Channels, Finish, GoodWalk, RemoveEach;
    var r, y := Poll(x.validator, i.ready, i.informed).1.value, Polled(x, i);
    FinishFacts(y, r.block, r.completed, r.addresses, i.walk);
    ElementsConcat(x.validator.waiting, RemoveEach(x.store, i.walk.changed).1);
  }

  lemma StepKeepsInv(x: Indexer, asked: map<Reply, Order>, s: IndexerStep)
    requires Inv(x, asked) && Enabled(x, s, asked)
    ensures Inv(After(x, s), Asked(asked, s))
  {
    hide Channels, NewOrder, Cancel, PollOnce, SubmitAll, GoodPoll;
    match s
    case OrderIn(o, reply) => OrderKeeps(x, asked, o, reply);
    case CancelIn(c) => CancelKeeps(x, asked, c);
    case ReorgIn(ids) => ResubmitKeeps(x, ReorgOrders(x, ids), asked, FP.Out(x.pool, FP.Reorg(ids)));
    case FinalizedIn(b) =>
    case BlockIn(b, c, a) =>
    case ClientMove =>
    case PollIn(i) => PollKeepsInv(x, asked, i);
  }

  lemma PollKeepsInv(x: Indexer, asked: map<Reply, Order>, i: PollInput)
    requires Inv(x, asked) && GoodPoll(x, i)
    ensures Inv(PollOnce(x, i), asked)
  {
    hide Channels, Handle, Finish, GoodWalk;
    match Poll(x.validator, i.ready, i.informed).1
    case None =>
    case Some(Validated(_)) => ValidatedKeeps(x, asked, i);
    case Some(EnsureClear(_, _, _)) => FinishKeeps(x, asked, i);
    case Some(TransitionComplete) => JobsOrders(x.validator.waiting, x.validator.client);
  }

  lemma {:induction false} RunKeepsInv(x: Indexer, asked: map<Reply, Order>, run: seq<IndexerStep>)
    requires Inv(x, asked) && Legal(x, asked, run)
    ensures Inv(Exec(x, asked, run).0, Exec(x, asked, run).1)
    decreases run
  {
    hide Inv, GoodWalk, After, Asked;
    if run != [] {
      StepKeepsInv(x, asked, run[0]);
      RunKeepsInv(After(x, run[0]), Asked(asked, run[0]), run[1..]);
    }
  }

  lemma StartInv(block: nat)
    ensures Inv(NewIndexer(block), map[])
  {
  }

  /** After any run no channel has been answered twice, no answer is about another order, and no answer
      is the wrong-block one. A channel not answered yet waits for an order that is still being validated
      or held back, so once there is none left every channel has been answered exactly once. */
  lemma RepliesTheorem(block: nat, run: seq<IndexerStep>)
    requires Legal(NewIndexer(block), map[], run)
    ensures var (x, asked) := Exec(NewIndexer(block), map[], run);
            && (forall i, j :: 0 <= i < j < |x.answers| ==> x.answers[i].reply != x.answers[j].reply)
            && (forall a :: a in x.answers ==> a.reply in asked && asked[a.reply] == a.order && !a.message.WrongBlock?)
            && (forall r :: r in asked && r !in SentTo(x.answers) ==> asked[r] in Outstanding(x.validator))
            && (Outstanding(x.validator) == {} ==> SentTo(x.answers) == asked.Keys)
  {
    hide Legal, Exec, BlocksAgree, SentTo, Outstanding;
    StartInv(block);
    RunKeepsInv(NewIndexer(block), map[], run);
    var (x, asked) := Exec(NewIndexer(block), map[], run);
    SentWasAsked(x.answers, asked);
  }

  lemma SentWasAsked(answers: seq<Answer>, asked: map<Reply, Order>)
    requires forall a :: a in answers ==> a.reply in asked
    ensures SentTo(answers) <= asked.Keys
  {
  }

  /** In every reachable state: a validation that resolves began at, and is stamped with, the indexer's
      own block, so the branch for results of another block is never taken. */
  lemma BlockTheorem(block: nat, run: seq<IndexerStep>, i: PollInput)
    requires Legal(NewIndexer(block), map[], run)
    requires GoodPoll(Exec(NewIndexer(block), map[], run).0, i)
    requires var r := Poll(Exec(NewIndexer(block), map[], run).0.validator, i.ready, i.informed).1; r.Some? && r.value.Validated?
    ensures var x := Exec(NewIndexer(block), map[], run).0;
            i.ready.Some? && i.verdict.stamp == x.block == x.validator.client == x.validator.inflight[i.ready.value].began
  {
    hide Legal, Exec, BlocksAgree, Channels, GoodPoll;
    StartInv(block);
    RunKeepsInv(NewIndexer(block), map[], run);
    StampAgrees(Exec(NewIndexer(block), map[], run).0, i);
  }

  // ----- what an answer means

  /** The order is indexed and no longer being validated. */
  predicate Settled(y: Indexer, o: Order) {
    o in y.byHash && o in OrdersFrom(y, o.from) && o !in y.validating
  }

  /** The order is pending, at the level of the gas it was charged. */
  predicate PendingAt(y: Indexer, o: Order, g: Gas) {
    o in y.store.pending && y.store.pending[o] == Level(o.quote, g)
  }

  /** The step, and the state before and after it, justify the message. */
  ghost predicate Justified(x: Indexer, s: IndexerStep, y: Indexer, a: Answer) {
    var o := a.order;
    match a.message
    case CancelledOrder => CancelledByOwner(x, o)
    case DuplicateOrder => !CancelledByOwner(x, o) && (o in x.byHash || o in x.seenInvalid)
    case WrongBlock => false
    case NotExecutable =>
      && s.PollIn? && s.poll.verdict.holds && !s.poll.verdict.executable && Settled(y, o)
      && (s.poll.verdict.fits ==> if o.quote.kind.Vanilla? then o in y.store.parked else PendingAt(y, o, s.poll.verdict.gas))
    case Accepted =>
      && s.PollIn? && s.poll.verdict.holds && s.poll.verdict.executable && Settled(y, o)
      && (s.poll.verdict.fits ==> PendingAt(y, o, s.poll.verdict.gas))
    case Rejected =>
      && s.PollIn? && !s.poll.verdict.holds
      && o in y.seenInvalid && o !in Stored(y.store) && o !in y.validating
  }

  lemma JustifiedAll(x: Indexer, s: IndexerStep, y: Indexer, sent: seq<Answer>, q: seq<Reply>, o: Order, m: Message)
    requires y.answers == sent + AnswerAll(q, o, m) && (q != [] ==> Justified(x, s, y, Answer(q[0], o, m)))
    ensures forall j :: |sent| <= j < |y.answers| ==> Justified(x, s, y, y.answers[j])
  {
  }

  /** Every message a step sends is justified: cancelled or duplicate before the step; accepted or not
      executable as the client said, indexed and, if there is room, pending or parked accordingly after the
      step; marked invalid and not stored after a rejection. Nothing sent before is touched. */
  lemma AnswersMean(x: Indexer, s: IndexerStep, asked: map<Reply, Order>)
    requires Inv(x, asked) && Enabled(x, s, asked)
    ensures x.answers <= After(x, s).answers
    ensures forall j :: |x.answers| <= j < |After(x, s).answers| ==> Justified(x, s, After(x, s), After(x, s).answers[j])
  {
    hide Inv, Justified, GoodWalk, Stored, RemoveInvalid, ParkedStore, Finish, SubmitAll, Remove, RemoveParkedEach;
    var y := After(x, s);
    if s.OrderIn? {
      OrderAnswersMean(x, s.order, s.reply);
    } else if s.PollIn? {
      PollAnswersMean(x, s.poll, asked);
    }
  }

  lemma OrderAnswersMean(x: Indexer, o: Order, reply: Option<Reply>)
    ensures var y := NewOrder(x, o, reply);
            && x.answers <= y.answers
            && forall j :: |x.answers| <= j < |y.answers| ==> Justified(x, OrderIn(o, reply), y, y.answers[j])
  {
    var y, s := NewOrder(x, o, reply), OrderIn(o, reply);
    var q := Waiting(Subscribe(x, o, reply), o);
    if CancelledByOwner(x, o) {
      JustifiedAll(x, s, y, x.answers, q, o, CancelledOrder);
    } else if o in x.byHash || o in x.seenInvalid {
      JustifiedAll(x, s, y, x.answers, q, o, DuplicateOrder);
    }
  }

  lemma PollAnswersMean(x: Indexer, i: PollInput, asked: map<Reply, Order>)
    requires Inv(x, asked) && GoodPoll(x, i)
    ensures var y := PollOnce(x, i);
            && x.answers <= y.answers
            && forall j :: |x.answers| <= j < |y.answers| ==> Justified(x, PollIn(i), y, y.answers[j])
  {
    hide Justified, GoodWalk, Handle, Finish, Channels;
    match Poll(x.validator, i.ready, i.informed).1
    case None =>
    case Some(Validated(o)) =>
      StampAgrees(x, i);
      HandleAnswersMean(x, i, Polled(x, i), o);
    case Some(EnsureClear(b, c, a)) => FinishFacts(Polled(x, i), b, c, a, i.walk);
    case Some(TransitionComplete) =>
  }

  lemma HandleAnswersMean(x: Indexer, i: PollInput, z: Indexer, o: Order)
    requires i.verdict.stamp == z.block && x.answers == z.answers
    ensures var y := Handle(z, o, i.verdict);
            && x.answers <= y.answers
            && forall j :: |x.answers| <= j < |y.answers| ==> Justified(x, PollIn(i), y, y.answers[j])
  {
    hide ParkEach;
    var w := i.verdict;
    var y := Handle(z, o, w);
    var m := if !w.holds then Rejected else if w.executable then Accepted else NotExecutable;
    JustifiedAll(x, PollIn(i), y, x.answers, Waiting(z, o), o, m);
  }
}
