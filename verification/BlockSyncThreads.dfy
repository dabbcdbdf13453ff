/**
 The sign-off call as concurrent threads execute it. Every module's thread runs the call once for one
 proposal, and between any two of its accesses to shared data the other threads may run: the two checks,
 the push, each step of the scan, the pop, the block number store and each step of the reset are separate
 atomic steps. The producer may queue further proposals at any moment.
 */
module BlockSyncThreads {
  import opened FiniteSums
  import opened BlockSync

  /** Where a thread is inside its sign-off call. */
  datatype Phase =
    | Called
    | SeenPending
    | SeenProposal
    | Scanning(todo: set<Module>, agree: bool)
    | Popping
    | Storing(front: GlobalBlockState)
    | Resetting(left: set<Module>)
    | Finished
    | Crashed

  /** Shared data, the threads' positions and, as history, the threads whose pop succeeded and the
      proposals queued behind the first. */
  datatype Shared = Shared(
    pending: seq<GlobalBlockState>,
    blockNumber: nat,
    queues: map<Module, seq<SignOffState>>,
    at: map<Module, Phase>,
    pops: seq<Module>,
    later: seq<GlobalBlockState>)

  predicate Heads(queue: seq<SignOffState>, kind: SignOffState) {
    queue != [] && queue[0] == kind
  }

  /** Thread `m` can take a step; `pick` is the module its scan or reset visits next. */
  predicate Enabled(s: Shared, m: Module, pick: Module) {
    && m in s.at && m in s.queues && pick in s.queues
    && !s.at[m].Finished? && !s.at[m].Crashed?
    && (s.at[m].Scanning? && s.at[m].todo != {} ==> pick in s.at[m].todo)
    && (s.at[m].Resetting? && s.at[m].left != {} ==> pick in s.at[m].left)
  }

  /** One atomic step of thread `m` signing proposal `p`. */
  function Next(s: Shared, p: GlobalBlockState, m: Module, pick: Module): Shared
    requires Enabled(s, m, pick)
  {
    var kind := KindOf(p);
    match s.at[m]
    case Called => s.(at := s.at[m := if s.pending == [] then Crashed else SeenPending])
    case SeenPending => s.(at := s.at[m := if p !in s.pending then Crashed else SeenProposal])
    case SeenProposal =>
      s.(queues := s.queues[m := s.queues[m] + [kind]], at := s.at[m := Scanning(s.queues.Keys, true)])
    case Scanning(todo, agree) =>
      if todo == {} then s.(at := s.at[m := if agree then Popping else Finished])
      else s.(at := s.at[m := Scanning(todo - {pick}, agree && Heads(s.queues[pick], kind))])
    case Popping =>
      if s.pending == [] then s.(at := s.at[m := Finished])
      else s.(pending := s.pending[1..], at := s.at[m := Storing(s.pending[0])], pops := s.pops + [m])
    case Storing(front) =>
      var block := if kind == ReadyForNextBlock && front.PendingProgression? then front.block else s.blockNumber;
      s.(blockNumber := block, at := s.at[m := Resetting(s.queues.Keys)])
    case Resetting(left) =>
      if left == {} then s.(at := s.at[m := Finished])
      else if s.queues[pick] == [] then s.(at := s.at[m := Crashed])
      else s.(queues := s.queues[pick := s.queues[pick][1..]], at := s.at[m := Resetting(left - {pick})])
    case Finished => s
    case Crashed => s
  }

  predicate HasPushed(ph: Phase) {
    ph.Scanning? || ph.Popping? || ph.Storing? || ph.Resetting? || ph.Finished?
  }

  ghost predicate AllPushed(s: Shared) {
    forall m :: m in s.at ==> HasPushed(s.at[m])
  }

  /** A thread that is going to pop, or to find that somebody did. */
  predicate WillPop(ph: Phase) {
    ph.Popping? || (ph.Scanning? && ph.agree)
  }

  ghost predicate Threads(s: Shared, mods: set<Module>) {
    && mods != {} && s.at.Keys == s.queues.Keys == mods
    && forall m :: m in s.at ==> !s.at[m].Crashed? && (s.at[m].Scanning? ==> s.at[m].todo <= mods)
  }

  /** Before the pop: queues mirror who has pushed, nobody resets, and once all have pushed somebody
      is on the way to the pop. */
  ghost predicate BeforePop(s: Shared, p: GlobalBlockState, start: nat) {
    && s.pops == [] && s.pending == [p] + s.later && s.blockNumber == start && s.at.Keys == s.queues.Keys
    && (forall m :: m in s.at ==>
          && s.queues[m] == (if HasPushed(s.at[m]) then [KindOf(p)] else [])
          && !s.at[m].Storing? && !s.at[m].Resetting?
          && (s.at[m].Popping? ==> AllPushed(s))
          && (s.at[m].Scanning? && s.at[m].agree ==>
                forall x :: x in s.at && x !in s.at[m].todo ==> HasPushed(s.at[x])))
    && (AllPushed(s) ==> exists m :: m in s.at && WillPop(s.at[m]))
  }

  predicate Unreset(ph: Phase, m: Module) {
    ph.Storing? || (ph.Resetting? && m in ph.left)
  }

  /** After the pop by thread `r`: exactly the queues it has not reset yet still hold one sign-off. */
  ghost predicate AfterPop(s: Shared, p: GlobalBlockState, start: nat, r: Module) {
    && s.pops == [r] && s.pending == s.later && s.at.Keys == s.queues.Keys && r in s.at && AllPushed(s)
    && (s.at[r] == Storing(p) || s.at[r].Finished? || (s.at[r].Resetting? && s.at[r].left <= s.at.Keys))
    && (forall m :: m in s.at ==>
          && (m != r ==> !s.at[m].Storing? && !s.at[m].Resetting?)
          && s.queues[m] == (if Unreset(s.at[r], m) then [KindOf(p)] else []))
    && s.blockNumber == (if s.at[r].Storing? then start else LastProgression(start, [p]))
  }

  /** The thread can still pop: nothing it has left to look at stands in its way. */
  ghost predicate MayPop(s: Shared, p: GlobalBlockState, m: Module)
    requires m in s.at
  {
    match s.at[m]
    case Called => true
    case SeenPending => true
    case SeenProposal => true
    case Scanning(todo, agree) =>
      agree && forall k :: k in todo && k in s.queues && k in s.at ==> Heads(s.queues[k], KindOf(p)) || !HasPushed(s.at[k])
    case Popping => true
    case _ => false
  }

  /** At most one thread has popped or can still pop. */
  ghost predicate Safe(s: Shared, p: GlobalBlockState) {
    forall x, y :: x in s.at && y in s.at && (MayPop(s, p, x) || x in s.pops) && (MayPop(s, p, y) || y in s.pops) ==> x == y
  }

  ghost predicate Inv(s: Shared, p: GlobalBlockState, mods: set<Module>, start: nat) {
    && Threads(s, mods) && !p.Processing? && (s.later != [] ==> Safe(s, p))
    && (BeforePop(s, p, start) || (s.pops != [] && AfterPop(s, p, start, s.pops[0])))
  }

  lemma StepCheck(s: Shared, p: GlobalBlockState, mods: set<Module>, start: nat, m: Module, pick: Module)
    requires Threads(s, mods) && BeforePop(s, p, start) && Enabled(s, m, pick)
    requires s.at[m].Called? || s.at[m].SeenPending?
    ensures var t := Next(s, p, m, pick); Threads(t, mods) && BeforePop(t, p, start)
  {
    var t := Next(s, p, m, pick);
    assert t.at[m] == if s.at[m].Called? then SeenPending else SeenProposal;
    assert forall x :: x in s.at ==> HasPushed(t.at[x]) == HasPushed(s.at[x]);
    assert !HasPushed(t.at[m]);
  }

  lemma StepPush(s: Shared, p: GlobalBlockState, mods: set<Module>, start: nat, m: Module, pick: Module)
    requires Threads(s, mods) && BeforePop(s, p, start) && Enabled(s, m, pick)
    requires s.at[m].SeenProposal?
    ensures var t := Next(s, p, m, pick); Threads(t, mods) && BeforePop(t, p, start)
  {
    var t := Next(s, p, m, pick);
    assert !HasPushed(s.at[m]) && WillPop(t.at[m]);
    assert forall x :: x in s.at && HasPushed(s.at[x]) ==> HasPushed(t.at[x]);
  }

  lemma StepScan(s: Shared, p: GlobalBlockState, mods: set<Module>, start: nat, m: Module, pick: Module)
    requires Threads(s, mods) && BeforePop(s, p, start) && Enabled(s, m, pick)
    requires s.at[m].Scanning?
    ensures var t := Next(s, p, m, pick); Threads(t, mods) && BeforePop(t, p, start)
  {
    var t := Next(s, p, m, pick);
    assert forall x :: x in s.at ==> HasPushed(t.at[x]) == HasPushed(s.at[x]);
    if AllPushed(t) {
      var x :| x in s.at && WillPop(s.at[x]);
      assert s.queues[pick] == [KindOf(p)];
      assert WillPop(t.at[x]);
    }
  }

  lemma StepPop(s: Shared, p: GlobalBlockState, mods: set<Module>, start: nat, m: Module, pick: Module)
    requires Threads(s, mods) && BeforePop(s, p, start) && Enabled(s, m, pick) && s.at[m].Popping?
    ensures var t := Next(s, p, m, pick); Threads(t, mods) && AfterPop(t, p, start, m)
  {
  }

  lemma StepLate(s: Shared, p: GlobalBlockState, mods: set<Module>, start: nat, r: Module, m: Module, pick: Module)
    requires Threads(s, mods) && !p.Processing? && AfterPop(s, p, start, r) && Enabled(s, m, pick)
    requires m != r && (s.at[m].Popping? ==> s.later == [])
    ensures var t := Next(s, p, m, pick); Threads(t, mods) && AfterPop(t, p, start, r)
  {
    hide LastProgression;
    var t := Next(s, p, m, pick);
    assert s.at[m].Scanning? || s.at[m].Popping?;
    assert t.queues == s.queues && t.at[r] == s.at[r];
  }

  lemma StepReset(s: Shared, p: GlobalBlockState, mods: set<Module>, start: nat, r: Module, m: Module, pick: Module)
    requires Threads(s, mods) && !p.Processing? && AfterPop(s, p, start, r) && Enabled(s, m, pick)
    requires m == r
    ensures var t := Next(s, p, m, pick); Threads(t, mods) && AfterPop(t, p, start, r)
  {
    var t := Next(s, p, m, pick);
    assert s.at[m].Storing? || s.at[m].Resetting?;
    assert LastProgression(start, [p]) == if p.PendingProgression? then p.block else start;
  }

  lemma StepKeepsInv(s: Shared, p: GlobalBlockState, mods: set<Module>, start: nat, m: Module, pick: Module)
    requires Inv(s, p, mods, start) && Enabled(s, m, pick)
    ensures Inv(Next(s, p, m, pick), p, mods, start)
  {
    hide Next, AllPushed, LastProgression, Safe;
    var t := Next(s, p, m, pick);
    SafeStays(s, p, mods, start, m, pick);
    if BeforePop(s, p, start) {
      StepBefore(s, p, mods, start, m, pick);
    } else if m == s.pops[0] {
      StepReset(s, p, mods, start, m, m, pick);
    } else {
      NoLatePopper(s, p, start, s.pops[0], m);
      StepLate(s, p, mods, start, s.pops[0], m, pick);
    }
  }

  lemma NoLatePopper(s: Shared, p: GlobalBlockState, start: nat, r: Module, m: Module)
    requires AfterPop(s, p, start, r) && m in s.at && m != r && (s.later != [] ==> Safe(s, p))
    ensures s.at[m].Popping? ==> s.later == []
  {
    hide LastProgression, AllPushed;
    assert s.at[m].Popping? ==> MayPop(s, p, m) && r in s.pops;
  }

  /** A thread that has pushed stays so, and its queue is left alone or emptied. */
  ghost predicate PushedStays(s: Shared, t: Shared) {
    && t.at.Keys == s.at.Keys == s.queues.Keys == t.queues.Keys
    && forall k :: k in s.at && HasPushed(s.at[k]) ==> HasPushed(t.at[k]) && (t.queues[k] == s.queues[k] || t.queues[k] == [])
  }

  /** Queues hold one sign-off at most, and a reset finds one in every queue it has left. */
  ghost predicate Shaped(s: Shared) {
    && s.at.Keys == s.queues.Keys
    && (forall m :: m in s.at ==> |s.queues[m]| <= 1)
    && forall m, k :: m in s.at && s.at[m].Resetting? && k in s.at[m].left && k in s.queues ==> s.queues[k] != []
  }

  lemma InvShaped(s: Shared, p: GlobalBlockState, mods: set<Module>, start: nat)
    requires Inv(s, p, mods, start)
    ensures Shaped(s)
  {
    hide LastProgression, Safe, AllPushed, KindOf;
  }

  lemma StepPushed(s: Shared, p: GlobalBlockState, m: Module, pick: Module)
    requires Shaped(s) && Enabled(s, m, pick)
    ensures PushedStays(s, Next(s, p, m, pick))
  {
    hide KindOf;
    var t := Next(s, p, m, pick);
    assert HasPushed(s.at[m]) ==> HasPushed(t.at[m]);
    assert forall k :: k in s.at && HasPushed(s.at[k]) ==> t.queues[k] == s.queues[k] || t.queues[k] == [];
  }

  lemma OthersInvolved(s: Shared, t: Shared, p: GlobalBlockState, x: Module)
    requires PushedStays(s, t) && x in s.at && s.at[x] == t.at[x]
    ensures MayPop(t, p, x) ==> MayPop(s, p, x)
  {
  }

  lemma SelfInvolved(s: Shared, p: GlobalBlockState, m: Module, pick: Module)
    requires Enabled(s, m, pick) && PushedStays(s, Next(s, p, m, pick))
    ensures MayPop(Next(s, p, m, pick), p, m) ==> MayPop(s, p, m)
    ensures forall x :: x in Next(s, p, m, pick).pops && x !in s.pops ==> x == m && MayPop(s, p, m)
  {
    hide KindOf;
    var t := Next(s, p, m, pick);
    if s.at[m].Scanning? && MayPop(t, p, m) {
      assert t.queues == s.queues;
    }
  }

  /** Whoever is in the running after a step was so before it. */
  lemma StillInvolved(s: Shared, p: GlobalBlockState, mods: set<Module>, start: nat, m: Module, pick: Module, x: Module)
    requires Inv(s, p, mods, start) && Enabled(s, m, pick) && x in s.at
    ensures var t := Next(s, p, m, pick);
            x in t.at && (MayPop(t, p, x) || x in t.pops ==> MayPop(s, p, x) || x in s.pops)
  {
    hide Inv, MayPop, PushedStays;
    var t := Next(s, p, m, pick);
    InvShaped(s, p, mods, start);
    StepPushed(s, p, m, pick);
    OwnWork(s, p, m, pick);
    SelfInvolved(s, p, m, pick);
    if x != m {
      OthersInvolved(s, t, p, x);
    }
  }

  lemma SafeStays(s: Shared, p: GlobalBlockState, mods: set<Module>, start: nat, m: Module, pick: Module)
    requires Inv(s, p, mods, start) && Enabled(s, m, pick)
    ensures Safe(s, p) ==> Safe(Next(s, p, m, pick), p)
    ensures Next(s, p, m, pick).later == s.later && Next(s, p, m, pick).at.Keys == s.at.Keys
  {
    hide Next, Inv, MayPop;
    var t := Next(s, p, m, pick);
    NextShape(s, p, m, pick);
    forall x | x in s.at
      ensures MayPop(t, p, x) || x in t.pops ==> MayPop(s, p, x) || x in s.pops
    {
      StillInvolved(s, p, mods, start, m, pick, x);
    }
  }

  lemma NextShape(s: Shared, p: GlobalBlockState, m: Module, pick: Module)
    requires Enabled(s, m, pick)
    ensures var t := Next(s, p, m, pick); t.later == s.later && t.at.Keys == s.at.Keys
  {
  }

  lemma StepBefore(s: Shared, p: GlobalBlockState, mods: set<Module>, start: nat, m: Module, pick: Module)
    requires Threads(s, mods) && BeforePop(s, p, start) && Enabled(s, m, pick)
    ensures var t := Next(s, p, m, pick); Threads(t, mods) && (BeforePop(t, p, start) || AfterPop(t, p, start, m))
  {
    hide Next, AllPushed, LastProgression, Threads, AfterPop;
    if s.at[m].Popping? {
      StepPop(s, p, mods, start, m, pick);
    } else if s.at[m].Scanning? {
      StepScan(s, p, mods, start, m, pick);
    } else if s.at[m].SeenProposal? {
      StepPush(s, p, mods, start, m, pick);
    } else {
      StepCheck(s, p, mods, start, m, pick);
    }
  }

  // ----- runs

  datatype Action = Act(m: Module, pick: Module) | Produce(proposal: GlobalBlockState)

  /** A progression that is already at the back is not queued again. */
  predicate IsRepeat(s: Shared, q: GlobalBlockState) {
    q.PendingProgression? && s.pending != [] && s.pending[|s.pending| - 1] == q
  }

  function Produced(s: Shared, q: GlobalBlockState): Shared {
    if IsRepeat(s, q) then s else s.(pending := s.pending + [q], later := s.later + [q])
  }

  predicate CanTake(s: Shared, a: Action) {
    a.Act? ==> Enabled(s, a.m, a.pick)
  }

  function Take(s: Shared, p: GlobalBlockState, a: Action): Shared
    requires CanTake(s, a)
  {
    match a
    case Act(m, pick) => Next(s, p, m, pick)
    case Produce(q) => Produced(s, q)
  }

  /** Every module's thread has just entered its call for the one outstanding proposal `p`. */
  function Start(p: GlobalBlockState, mods: set<Module>, start: nat): Shared {
    Shared([p], start, map m | m in mods :: [], map m | m in mods :: Called, [], [])
  }

  ghost predicate Legal(s: Shared, p: GlobalBlockState, run: seq<Action>)
    decreases run
  {
    run != [] ==> CanTake(s, run[0]) && Legal(Take(s, p, run[0]), p, run[1..])
  }

  ghost function Exec(s: Shared, p: GlobalBlockState, run: seq<Action>): Shared
    requires Legal(s, p, run)
    decreases run
  {
    if run == [] then s else Exec(Take(s, p, run[0]), p, run[1..])
  }

  /** The producer queues proposals only while at most one thread has popped or can still pop. */
  ghost predicate Careful(s: Shared, p: GlobalBlockState, run: seq<Action>)
    requires Legal(s, p, run)
    decreases run
  {
    run != [] ==> (run[0].Produce? ==> Safe(s, p)) && Careful(Take(s, p, run[0]), p, run[1..])
  }

  /** The steps taken by threads. */
  function Acts(run: seq<Action>): nat {
    if run == [] then 0 else (if run[0].Act? then 1 else 0) + Acts(run[1..])
  }

  lemma ProduceKeepsInv(s: Shared, p: GlobalBlockState, mods: set<Module>, start: nat, q: GlobalBlockState)
    requires Inv(s, p, mods, start) && Safe(s, p)
    ensures Inv(Produced(s, q), p, mods, start) && TotalWork(Produced(s, q)) == TotalWork(s)
  {
    hide LastProgression, Safe, BeforePop, AfterPop, Sum;
    var t := Produced(s, q);
    assert Works(t) == Works(s);
    SameThreads(s, t, p);
    if BeforePop(s, p, start) {
      ProduceBefore(s, p, start, q);
    } else {
      ProduceAfter(s, p, start, s.pops[0], q);
    }
  }

  lemma SameThreads(s: Shared, t: Shared, p: GlobalBlockState)
    requires t.at == s.at && t.queues == s.queues && t.pops == s.pops
    ensures Safe(s, p) <==> Safe(t, p)
    ensures AllPushed(s) <==> AllPushed(t)
  {
    assert forall x :: x in s.at ==> MayPop(t, p, x) == MayPop(s, p, x);
  }

  lemma ProduceBefore(s: Shared, p: GlobalBlockState, start: nat, q: GlobalBlockState)
    requires BeforePop(s, p, start)
    ensures BeforePop(Produced(s, q), p, start)
  {
    hide AllPushed, HasPushed, WillPop;
    assert [p] + s.later + [q] == [p] + (s.later + [q]);
    SameThreads(s, Produced(s, q), p);
  }

  lemma ProduceAfter(s: Shared, p: GlobalBlockState, start: nat, r: Module, q: GlobalBlockState)
    requires AfterPop(s, p, start, r)
    ensures AfterPop(Produced(s, q), p, start, r)
  {
    hide AllPushed, LastProgression;
    SameThreads(s, Produced(s, q), p);
  }

  /** Steps a thread can still take, with `n` modules. */
  function Work(ph: Phase, n: nat): nat {
    match ph
    case Called => 2 * n + 7
    case SeenPending => 2 * n + 6
    case SeenProposal => 2 * n + 5
    case Scanning(todo, _) => n + 4 + |todo|
    case Popping => n + 3
    case Storing(_) => n + 2
    case Resetting(left) => 1 + |left|
    case Finished => 0
    case Crashed => 0
  }

  ghost function Works(s: Shared): map<Module, int> {
    map m | m in s.at :: Work(s.at[m], |s.queues|)
  }

  ghost function TotalWork(s: Shared): int {
    Sum(Works(s), s.at.Keys)
  }

  lemma StepWorks(s: Shared, p: GlobalBlockState, m: Module, pick: Module)
    requires Enabled(s, m, pick)
    ensures TotalWork(Next(s, p, m, pick)) < TotalWork(s)
  {
    var t := Next(s, p, m, pick);
    OwnWork(s, p, m, pick);
    var f, g, ks := Works(s), Works(t), s.at.Keys;
    assert t.at.Keys == ks;
    SumRemove(f, ks, m);
    SumRemove(g, ks, m);
    SumCongruent(f, g, ks - {m});
  }

  lemma OwnWork(s: Shared, p: GlobalBlockState, m: Module, pick: Module)
    requires Enabled(s, m, pick)
    ensures var t := Next(s, p, m, pick);
            && t.at.Keys == s.at.Keys && |t.queues| == |s.queues|
            && Work(t.at[m], |s.queues|) < Work(s.at[m], |s.queues|)
            && forall x :: x in s.at && x != m ==> t.at[x] == s.at[x]
  {
    var t := Next(s, p, m, pick);
    assert t.queues.Keys == s.queues.Keys;
    assert |t.queues| == |t.queues.Keys| && |s.queues| == |s.queues.Keys|;
  }

  lemma {:induction false} ExecKeepsInv(s: Shared, p: GlobalBlockState, mods: set<Module>, start: nat, run: seq<Action>)
    requires Inv(s, p, mods, start) && Legal(s, p, run) && Careful(s, p, run)
    ensures Inv(Exec(s, p, run), p, mods, start)
    ensures TotalWork(Exec(s, p, run)) <= TotalWork(s) - Acts(run)
    decreases run
  {
    hide Inv, Next, Produced, TotalWork, Enabled, Safe;
    if run != [] {
      match run[0] {
        case Act(m, pick) =>
          StepKeepsInv(s, p, mods, start, m, pick);
          StepWorks(s, p, m, pick);
        case Produce(q) =>
          ProduceKeepsInv(s, p, mods, start, q);
      }
      ExecKeepsInv(Take(s, p, run[0]), p, mods, start, run[1..]);
    }
  }

  lemma StartInv(p: GlobalBlockState, mods: set<Module>, start: nat)
    requires mods != {} && !p.Processing?
    ensures Inv(Start(p, mods, start), p, mods, start)
    ensures TotalWork(Start(p, mods, start)) == (2 * |mods| + 7) * |mods|
  {
    var s := Start(p, mods, start);
    var m :| m in mods;
    assert !HasPushed(s.at[m]);
    assert s.queues.Keys == mods && |s.queues| == |s.queues.Keys|;
    SumBounds(Works(s), s.at.Keys, 2 * |mods| + 7, 2 * |mods| + 7);
  }

  lemma WorkIsNat(s: Shared)
    ensures 0 <= TotalWork(s)
  {
    SumMonotone(Works(s), {}, s.at.Keys);
  }

  ghost predicate AllFinished(s: Shared) {
    forall m :: m in s.at ==> s.at[m].Finished?
  }

  /** No thread ever crashes, and at the end the proposal was popped once and every queue is empty. */
  lemma InvConcludes(s: Shared, p: GlobalBlockState, mods: set<Module>, start: nat)
    requires Inv(s, p, mods, start)
    ensures |s.pops| <= 1 && forall m :: m in s.at ==> !s.at[m].Crashed?
    ensures AllFinished(s) ==> |s.pops| == 1 && s.pending == s.later
                               && s.blockNumber == LastProgression(start, [p])
                               && forall m :: m in s.queues ==> s.queues[m] == []
    ensures AllFinished(s) <==> forall m, x :: !Enabled(s, m, x)
  {
    hide LastProgression;
    if AllFinished(s) {
      assert AllPushed(s);
    } else {
      var m :| m in s.at && !s.at[m].Finished?;
      var x := NextPick(s, m, mods);
      assert Enabled(s, m, x);
    }
  }

  lemma NextPick(s: Shared, m: Module, mods: set<Module>) returns (x: Module)
    requires Threads(s, mods) && m in s.at && !s.at[m].Finished?
    requires s.at[m].Resetting? ==> s.at[m].left <= mods
    ensures Enabled(s, m, x)
  {
    if s.at[m].Scanning? && s.at[m].todo != {} {
      x :| x in s.at[m].todo;
    } else if s.at[m].Resetting? && s.at[m].left != {} {
      x :| x in s.at[m].left;
    } else {
      x := m;
    }
  }

  /** Any number of modules, any interleaving, and any proposals queued meanwhile while at most one thread
      has popped or can still pop: at most n(2n+7) thread steps, never a panic, and when no thread can move
      any more the proposal has been popped exactly once, the later ones are all pending in order, and all
      sign-off queues are empty. */
  lemma ThreadsTheorem(p: GlobalBlockState, mods: set<Module>, start: nat, run: seq<Action>)
    requires mods != {} && !p.Processing?
    requires Legal(Start(p, mods, start), p, run) && Careful(Start(p, mods, start), p, run)
    ensures Acts(run) <= (2 * |mods| + 7) * |mods|
    ensures var s := Exec(Start(p, mods, start), p, run);
            && |s.pops| <= 1 && (forall m :: m in s.at ==> !s.at[m].Crashed?)
            && ((forall m, x :: !Enabled(s, m, x)) ==>
                  |s.pops| == 1 && s.pending == s.later && s.blockNumber == LastProgression(start, [p])
                  && forall m :: m in s.queues ==> s.queues[m] == [])
  {
    hide Inv, TotalWork, Enabled, AllFinished, LastProgression, Careful;
    StartInv(p, mods, start);
    ExecKeepsInv(Start(p, mods, start), p, mods, start, run);
    var s := Exec(Start(p, mods, start), p, run);
    WorkIsNat(s);
    InvConcludes(s, p, mods, start);
  }

  // ----- the producer's condition is exact

  lemma {:induction false} ExecConcat(s: Shared, p: GlobalBlockState, a: seq<Action>, b: seq<Action>)
    requires Legal(s, p, a) && Legal(Exec(s, p, a), p, b)
    ensures Legal(s, p, a + b) && Exec(s, p, a + b) == Exec(Exec(s, p, a), p, b)
    decreases a
  {
    hide CanTake, Take;
    if a == [] {
      assert a + b == b;
    } else {
      assert (a + b)[0] == a[0] && (a + b)[1..] == a[1..] + b;
      ExecConcat(Take(s, p, a[0]), p, a[1..], b);
    }
  }

  lemma OneAct(s: Shared, p: GlobalBlockState, m: Module, pick: Module)
    requires Enabled(s, m, pick)
    ensures Legal(s, p, [Act(m, pick)]) && Exec(s, p, [Act(m, pick)]) == Next(s, p, m, pick)
  {
    hide Enabled, Next;
    var run := [Act(m, pick)];
    assert run[1..] == [];
  }

  /** Only thread steps. */
  ghost predicate ActsOnly(run: seq<Action>) {
    forall a :: a in run ==> a.Act?
  }

  /** Nobody has popped and the queues mirror who has pushed. */
  ghost predicate Early(s: Shared, p: GlobalBlockState) {
    && s.pops == [] && p in s.pending && s.at.Keys == s.queues.Keys
    && forall m :: m in s.at ==> s.queues[m] == if HasPushed(s.at[m]) then [KindOf(p)] else []
  }

  /** The thread runs up to its push. */
  lemma DrivePush(s: Shared, p: GlobalBlockState, m: Module) returns (run: seq<Action>)
    requires Early(s, p) && m in s.at && (s.at[m].Called? || s.at[m].SeenPending? || s.at[m].SeenProposal?)
    ensures Legal(s, p, run) && ActsOnly(run)
    ensures Exec(s, p, run) ==
            s.(queues := s.queues[m := [KindOf(p)]], at := s.at[m := Scanning(s.queues.Keys, true)])
    decreases if s.at[m].Called? then 2 else if s.at[m].SeenPending? then 1 else 0
  {
    OneAct(s, p, m, m);
    run := [Act(m, m)];
    if !s.at[m].SeenProposal? {
      var t := Next(s, p, m, m);
      assert Early(t, p);
      var rest := DrivePush(t, p, m);
      ExecConcat(s, p, run, rest);
      run := run + rest;
    } else {
      assert s.queues[m] + [KindOf(p)] == [KindOf(p)];
    }
  }

  /** All threads that have not pushed do so; the others stay where they are. */
  lemma DriveAll(s: Shared, p: GlobalBlockState, todo: set<Module>) returns (run: seq<Action>)
    requires Early(s, p)
    requires todo == set m | m in s.at && (s.at[m].Called? || s.at[m].SeenPending? || s.at[m].SeenProposal?)
    ensures Legal(s, p, run) && ActsOnly(run)
    ensures var t := Exec(s, p, run);
            && Early(t, p) && t.at.Keys == s.at.Keys && t.pending == s.pending
            && forall m :: m in s.at ==> t.at[m] == if m in todo then Scanning(s.queues.Keys, true) else s.at[m]
    decreases todo
  {
    hide Legal, Exec;
    if todo == {} {
      run := NoRun(s, p);
    } else {
      var m :| m in todo;
      run := DrivePush(s, p, m);
      var t := Exec(s, p, run);
      assert t.queues.Keys == s.queues.Keys;
      var rest := DriveAll(t, p, todo - {m});
      ExecConcat(s, p, run, rest);
      run := run + rest;
    }
  }

  lemma NoRun(s: Shared, p: GlobalBlockState) returns (run: seq<Action>)
    ensures Legal(s, p, run) && ActsOnly(run) && Exec(s, p, run) == s
  {
    run := [];
  }

  /** A scan that meets only agreeing heads ends at the pop. */
  lemma DriveScan(s: Shared, p: GlobalBlockState, m: Module) returns (run: seq<Action>)
    requires m in s.at && m in s.queues
    requires s.at[m].Popping? ||
             (s.at[m].Scanning? && s.at[m].agree &&
              forall k :: k in s.at[m].todo ==> k in s.queues && Heads(s.queues[k], KindOf(p)))
    ensures Legal(s, p, run) && ActsOnly(run) && Exec(s, p, run) == s.(at := s.at[m := Popping])
    decreases if s.at[m].Scanning? then 1 + |s.at[m].todo| else 0
  {
    if s.at[m].Popping? {
      run := [];
      assert s.at[m := Popping] == s.at;
    } else {
      var k := m;
      if s.at[m].todo != {} {
        k :| k in s.at[m].todo;
      }
      OneAct(s, p, m, k);
      run := [Act(m, k)];
      var rest := DriveScan(Next(s, p, m, k), p, m);
      ExecConcat(s, p, run, rest);
      run := run + rest;
    }
  }

  lemma DrivePop(s: Shared, p: GlobalBlockState, m: Module) returns (run: seq<Action>)
    requires m in s.at && m in s.queues && s.at[m].Popping? && s.pending != []
    ensures Legal(s, p, run) && ActsOnly(run)
    ensures Exec(s, p, run) == s.(pending := s.pending[1..], at := s.at[m := Storing(s.pending[0])], pops := s.pops + [m])
  {
    OneAct(s, p, m, m);
    run := [Act(m, m)];
  }

  /** The run goes on as `rest` from where `run` ends. */
  lemma Join(s: Shared, p: GlobalBlockState, run: seq<Action>, rest: seq<Action>) returns (all: seq<Action>)
    requires Legal(s, p, run) && Legal(Exec(s, p, run), p, rest) && ActsOnly(run) && ActsOnly(rest)
    ensures Legal(s, p, all) && ActsOnly(all) && Exec(s, p, all) == Exec(Exec(s, p, run), p, rest)
  {
    ExecConcat(s, p, run, rest);
    all := run + rest;
  }

  /** Two threads at the pop and two proposals: both pop. */
  lemma PopTwice(s: Shared, p: GlobalBlockState, x: Module, y: Module) returns (run: seq<Action>)
    requires s.at.Keys == s.queues.Keys && x in s.at && y in s.at && x != y
    requires s.at[x].Popping? && s.at[y].Popping? && |s.pending| >= 2
    ensures Legal(s, p, run) && ActsOnly(run) && Exec(s, p, run).pops == s.pops + [x, y]
  {
    hide Legal, Exec;
    var r1 := DrivePop(s, p, x);
    var r2 := DrivePop(Exec(s, p, r1), p, y);
    run := Join(s, p, r1, r2);
    assert s.pops + [x] + [y] == s.pops + [x, y];
  }

  /** All have pushed, and both scans still agree. */
  lemma ScanTwice(s: Shared, p: GlobalBlockState, x: Module, y: Module) returns (run: seq<Action>)
    requires s.at.Keys == s.queues.Keys && x in s.at && y in s.at && x != y && |s.pending| >= 2
    requires forall k :: k in s.queues ==> Heads(s.queues[k], KindOf(p))
    requires forall m :: m in {x, y} ==>
               s.at[m].Popping? || (s.at[m].Scanning? && s.at[m].agree && s.at[m].todo <= s.queues.Keys)
    ensures Legal(s, p, run) && ActsOnly(run) && Exec(s, p, run).pops == s.pops + [x, y]
  {
    hide Legal, Exec, Heads;
    assert x in {x, y} && y in {x, y};
    var r1 := DriveScan(s, p, x);
    var t := Exec(s, p, r1);
    var r2 := DriveScan(t, p, y);
    var r3 := PopTwice(Exec(t, p, r2), p, x, y);
    var tail := Join(t, p, r2, r3);
    run := Join(s, p, r1, tail);
  }

  /** Two threads in the running before the pop: both can pop if there are two proposals. */
  lemma BothPop(s: Shared, p: GlobalBlockState, mods: set<Module>, x: Module, y: Module) returns (run: seq<Action>)
    requires Early(s, p) && Threads(s, mods) && |s.pending| >= 2
    requires x in s.at && y in s.at && x != y && MayPop(s, p, x) && MayPop(s, p, y)
    ensures Legal(s, p, run) && ActsOnly(run) && Exec(s, p, run).pops == [x, y]
  {
    hide Legal, Exec;
    var todo := set m | m in s.at && (s.at[m].Called? || s.at[m].SeenPending? || s.at[m].SeenProposal?);
    var r1 := DriveAll(s, p, todo);
    var t := Exec(s, p, r1);
    forall m | m in t.queues
      ensures Heads(t.queues[m], KindOf(p))
    {
      assert HasPushed(t.at[m]);
    }
    var r2 := ScanTwice(t, p, x, y);
    run := Join(s, p, r1, r2);
  }

  lemma LatePop(s: Shared, p: GlobalBlockState, mods: set<Module>, start: nat, r: Module, y: Module, q: GlobalBlockState)
    returns (run: seq<Action>)
    requires Threads(s, mods) && AfterPop(s, p, start, r) && s.later == [] && y in s.at && MayPop(s, p, y) && !IsRepeat(s, q)
    ensures Legal(Produced(s, q), p, run) && ActsOnly(run) && Exec(Produced(s, q), p, run).pops == [r, y]
  {
    hide LastProgression;
    var t := Produced(s, q);
    var r1 := DriveScan(t, p, y);
    var r2 := DrivePop(Exec(t, p, r1), p, y);
    run := Join(t, p, r1, r2);
  }

  lemma EarlyPush(s: Shared, p: GlobalBlockState, mods: set<Module>, start: nat, q: GlobalBlockState)
    requires Threads(s, mods) && BeforePop(s, p, start) && s.later == [] && !IsRepeat(s, q)
    ensures var t := Produced(s, q); Early(t, p) && Threads(t, mods) && |t.pending| >= 2 && t.at == s.at
    ensures forall x :: x in s.at && MayPop(s, p, x) ==> MayPop(Produced(s, q), p, x)
  {
  }

  lemma UnsafeRun(s: Shared, p: GlobalBlockState, mods: set<Module>, start: nat, q: GlobalBlockState)
    returns (run: seq<Action>)
    requires Inv(s, p, mods, start) && s.later == [] && !IsRepeat(s, q) && !Safe(s, p)
    ensures Legal(Produced(s, q), p, run) && ActsOnly(run) && |Exec(Produced(s, q), p, run).pops| == 2
  {
    hide LastProgression, MayPop, Threads, IsRepeat, Produced;
    var x, y :| x in s.at && y in s.at && x != y && (MayPop(s, p, x) || x in s.pops) && (MayPop(s, p, y) || y in s.pops);
    if BeforePop(s, p, start) {
      EarlyPush(s, p, mods, start, q);
      run := BothPop(Produced(s, q), p, mods, x, y);
    } else {
      var r := s.pops[0];
      run := LatePop(s, p, mods, start, r, if x == r then y else x, q);
    }
  }

  /** Exact: queueing a second proposal in a reachable state can lead to a proposal popped that nobody
      signed if and only if two threads are still in the running. */
  lemma SafeIff(s: Shared, p: GlobalBlockState, mods: set<Module>, start: nat, q: GlobalBlockState)
    requires Inv(s, p, mods, start) && s.later == [] && !IsRepeat(s, q)
    ensures Safe(s, p) <==>
            forall run :: Legal(Produced(s, q), p, run) && ActsOnly(run) ==> |Exec(Produced(s, q), p, run).pops| <= 1
  {
    hide Inv, Legal, Exec, Safe, Produced, IsRepeat, ActsOnly;
    if Safe(s, p) {
      ProduceKeepsInv(s, p, mods, start, q);
      forall run | Legal(Produced(s, q), p, run) && ActsOnly(run)
        ensures |Exec(Produced(s, q), p, run).pops| <= 1
      {
        ActsAreCareful(Produced(s, q), p, run);
        ExecKeepsInv(Produced(s, q), p, mods, start, run);
        InvConcludes(Exec(Produced(s, q), p, run), p, mods, start);
      }
    } else {
      var run := UnsafeRun(s, p, mods, start, q);
      assert Legal(Produced(s, q), p, run) && ActsOnly(run) && |Exec(Produced(s, q), p, run).pops| > 1;
    }
  }

  lemma {:induction false} ActsAreCareful(s: Shared, p: GlobalBlockState, run: seq<Action>)
    requires Legal(s, p, run) && ActsOnly(run)
    ensures Careful(s, p, run)
    decreases run
  {
    hide Safe, CanTake, Take;
    if run != [] {
      assert run[0] in run && forall a :: a in run[1..] ==> a in run;
      ActsAreCareful(Take(s, p, run[0]), p, run[1..]);
    }
  }

  /** With two modules or more and a second proposal queued from the start, some interleaving pops both
      although nobody signed the second. */
  lemma SecondProposalUnsigned(p: GlobalBlockState, q: GlobalBlockState, mods: set<Module>, start: nat, x: Module, y: Module)
    returns (run: seq<Action>)
    requires !p.Processing? && p != q && x in mods && y in mods && x != y
    ensures Legal(Start(p, mods, start), p, run) && run != [] && run[0] == Produce(q) && ActsOnly(run[1..])
    ensures |Exec(Start(p, mods, start), p, run).pops| == 2 && Exec(Start(p, mods, start), p, run).later == [q]
  {
    hide LastProgression;
    var s := Start(p, mods, start);
    StartInv(p, mods, start);
    assert MayPop(s, p, x) && MayPop(s, p, y);
    var rest := UnsafeRun(s, p, mods, start, q);
    run := [Produce(q)] + rest;
    assert run[1..] == rest;
    LaterStays(Produced(s, q), p, rest);
  }

  lemma {:induction false} LaterStays(s: Shared, p: GlobalBlockState, run: seq<Action>)
    requires Legal(s, p, run) && ActsOnly(run)
    ensures Exec(s, p, run).later == s.later
    decreases run
  {
    hide Enabled, Next;
    if run != [] {
      assert run[0] in run && forall a :: a in run[1..] ==> a in run;
      NextShape(s, p, run[0].m, run[0].pick);
      LaterStays(Take(s, p, run[0]), p, run[1..]);
    }
  }

  // ----- a call that nobody interrupts

  function AsSync(s: Shared): Sync {
    Sync(s.pending, s.blockNumber, s.queues, true)
  }

  function Tails(queues: map<Module, seq<SignOffState>>, left: set<Module>): map<Module, seq<SignOffState>>
    requires forall k :: k in left && k in queues ==> queues[k] != []
  {
    map k | k in queues :: if k in left then queues[k][1..] else queues[k]
  }

  function BlockAfter(block: nat, front: GlobalBlockState, kind: SignOffState): nat {
    if kind == ReadyForNextBlock && front.PendingProgression? then front.block else block
  }

  /** What holds while only thread `m` moves. */
  ghost predicate Alone(s: Shared, p: GlobalBlockState, m: Module) {
    && m in s.at && m in s.queues
    && match s.at[m]
       case Scanning(todo, agree) =>
         && s.pending != [] && todo <= s.queues.Keys
         && (agree ==> forall k :: k in s.queues && k !in todo ==> Heads(s.queues[k], KindOf(p)))
       case Popping => s.pending != [] && AllAgree(s.queues, KindOf(p))
       case Storing(_) => forall k :: k in s.queues ==> s.queues[k] != []
       case Resetting(left) => left <= s.queues.Keys && forall k :: k in left ==> s.queues[k] != []
       case SeenPending => s.pending != []
       case SeenProposal => s.pending != [] && p in s.pending
       case _ => true
  }

  /** What the call comes to if nobody interrupts it any more. */
  ghost function Result(s: Shared, p: GlobalBlockState, m: Module): (Sync, Outcome)
    requires Alone(s, p, m)
  {
    var kind, sync := KindOf(p), AsSync(s);
    match s.at[m]
    case Called => SignOff(sync, m, p, kind)
    case SeenPending => SignOff(sync, m, p, kind)
    case SeenProposal => SignOff(sync, m, p, kind)
    case Scanning(todo, agree) =>
      if AllAgree(s.queues, kind) then
        (Sync(s.pending[1..], BlockAfter(s.blockNumber, s.pending[0], kind), Tails(s.queues, s.queues.Keys), true), Done)
      else (sync, Done)
    case Popping =>
      (Sync(s.pending[1..], BlockAfter(s.blockNumber, s.pending[0], kind), Tails(s.queues, s.queues.Keys), true), Done)
    case Storing(front) =>
      (Sync(s.pending, BlockAfter(s.blockNumber, front, kind), Tails(s.queues, s.queues.Keys), true), Done)
    case Resetting(left) => (sync.(modules := Tails(s.queues, left)), Done)
    case Finished => (sync, Done)
    case Crashed => (sync, Panicked)
  }

  /** A scan that has found a disagreement has one before it. */
  ghost predicate Disagrees(s: Shared, p: GlobalBlockState, m: Module) {
    m in s.at && s.at[m].Scanning? && !s.at[m].agree ==> !AllAgree(s.queues, KindOf(p))
  }

  lemma StepAlone(s: Shared, p: GlobalBlockState, m: Module, pick: Module)
    requires Enabled(s, m, pick) && Alone(s, p, m) && Disagrees(s, p, m)
    ensures var t := Next(s, p, m, pick); Alone(t, p, m) && Disagrees(t, p, m) && Result(t, p, m) == Result(s, p, m)
  {
    var t := Next(s, p, m, pick);
    match s.at[m]
    case SeenProposal =>
      var after := Pushed(s.queues, m, KindOf(p));
      assert t.queues == after;
      if AllAgree(after, KindOf(p)) {
        assert Tails(after, after.Keys) == map x | x in after :: after[x][1..];
      }
    case Resetting(left) =>
      if left == {} {
        assert Tails(s.queues, {}) == s.queues;
      } else {
        assert Tails(t.queues, left - {pick}) == Tails(s.queues, left);
      }
    case _ =>
  }

  ghost predicate OnlyBy(run: seq<Action>, m: Module) {
    forall a :: a in run ==> a.Act? && a.m == m
  }

  lemma {:induction false} RunAlone(s: Shared, p: GlobalBlockState, m: Module, run: seq<Action>)
    requires Legal(s, p, run) && OnlyBy(run, m) && Alone(s, p, m) && Disagrees(s, p, m)
    ensures Alone(Exec(s, p, run), p, m) && Result(Exec(s, p, run), p, m) == Result(s, p, m)
    decreases run
  {
    hide Alone, Result, Enabled, Next, Disagrees;
    if run != [] {
      assert run[0] in run && forall a :: a in run[1..] ==> a in run;
      StepAlone(s, p, m, run[0].pick);
      RunAlone(Take(s, p, run[0]), p, m, run[1..]);
    }
  }

  /** A sign-off call that nobody interrupts does what the atomic call does, in whatever order its scan and
      its reset visit the modules: the same state, and a panic if and only if that one panics. */
  lemma UninterruptedIsAtomic(s: Shared, p: GlobalBlockState, m: Module, run: seq<Action>)
    requires m in s.at && m in s.queues && s.at[m].Called? && Legal(s, p, run) && OnlyBy(run, m)
    requires var t := Exec(s, p, run); m in t.at && (t.at[m].Finished? || t.at[m].Crashed?)
    ensures var t := Exec(s, p, run);
            (AsSync(t), if t.at[m].Crashed? then Panicked else Done) == SignOff(AsSync(s), m, p, KindOf(p))
  {
    hide Legal, Exec;
    RunAlone(s, p, m, run);
  }

  /** And the producer queues what the atomic producer queues. */
  lemma ProducesAlike(s: Shared, q: GlobalBlockState)
    requires !q.Processing?
    ensures AsSync(Produced(s, q)) ==
            if q.PendingProgression? then NewBlock(AsSync(s), q.block) else Reorg(AsSync(s), q.first, q.last)
  {
  }
}
