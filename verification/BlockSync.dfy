/**
 The global block sync: proposals queue up, every registered module signs each of them off, and the
 front proposal completes when the last module has signed it.
 */
module BlockSync {
  import opened Sequences

  type Module = string

  datatype GlobalBlockState =
    | Processing(current: nat)
    | PendingReorg(first: nat, last: nat)
    | PendingProgression(block: nat)

  /** A sign-off without its waker: equality compares the kind only. */
  datatype SignOffState = ReadyForNextBlock | HandledReorg

  datatype Outcome = Done | Panicked

  datatype Sync = Sync(
    pending: seq<GlobalBlockState>,
    blockNumber: nat,
    modules: map<Module, seq<SignOffState>>,
    modulesFinal: bool)

  function NewBlock(s: Sync, block: nat): Sync {
    var p := PendingProgression(block);
    if s.pending != [] && s.pending[|s.pending| - 1] == p then s else s.(pending := s.pending + [p])
  }

  function Reorg(s: Sync, first: nat, last: nat): Sync {
    s.(pending := s.pending + [PendingReorg(first, last)])
  }

  /** The scan over the modules: every queue is headed by a sign-off of this kind. */
  predicate AllAgree(modules: map<Module, seq<SignOffState>>, kind: SignOffState) {
    forall m :: m in modules ==> modules[m] != [] && modules[m][0] == kind
  }

  function Pushed(modules: map<Module, seq<SignOffState>>, m: Module, kind: SignOffState): map<Module, seq<SignOffState>> {
    if m in modules then modules[m := modules[m] + [kind]] else modules
  }

  /** `sign_off_on_block` and `sign_off_reorg`: only the former moves the block number. */
  function SignOff(s: Sync, m: Module, proposal: GlobalBlockState, kind: SignOffState): (Sync, Outcome) {
    if s.pending == [] || proposal !in s.pending then
      (s, Panicked)
    else
      var modules := Pushed(s.modules, m, kind);
      if AllAgree(modules, kind) then
        var front := s.pending[0];
        var block := if kind == ReadyForNextBlock && front.PendingProgression? then front.block else s.blockNumber;
        (Sync(s.pending[1..], block, map x | x in modules :: modules[x][1..], s.modulesFinal), Done)
      else
        (s.(modules := modules), Done)
  }

  function Register(s: Sync, m: Module): (Sync, Outcome) {
    if s.modulesFinal then (s, Done)
    else (s.(modules := s.modules[m := []]), if m in s.modules then Panicked else Done)
  }

  function NoMoreModules(s: Sync): Sync {
    s.(modulesFinal := true)
  }

  predicate CanOperate(s: Sync) {
    s.pending == []
  }

  class GlobalBlockSync {
    var pending: seq<GlobalBlockState>
    var blockNumber: nat
    var modules: map<Module, seq<SignOffState>>
    var modulesFinal: bool

    ghost function Value(): Sync reads this { Sync(pending, blockNumber, modules, modulesFinal) }

    constructor (block: nat)
      ensures Value() == Sync([], block, map[], false)
    {
      pending, blockNumber, modules, modulesFinal := [], block, map[], false;
    }

    method Produce(block: nat)
      modifies this`pending
      ensures Value() == NewBlock(old(Value()), block)
    {
      if pending != [] && pending[|pending| - 1] == PendingProgression(block) {
        return;
      }
      pending := pending + [PendingProgression(block)];
    }

    method ProduceReorg(first: nat, last: nat)
      modifies this`pending
      ensures Value() == Reorg(old(Value()), first, last)
    {
      pending := pending + [PendingReorg(first, last)];
    }

    method SignOffOnBlock(m: Module, block: nat) returns (outcome: Outcome)
      modifies this
      ensures (Value(), outcome) == SignOff(old(Value()), m, PendingProgression(block), ReadyForNextBlock)
    {
      if pending == [] || PendingProgression(block) !in pending {
        return Panicked;
      }
      modules := Pushed(modules, m, ReadyForNextBlock);
      var transition := Scan(modules, ReadyForNextBlock);
      if transition {
        var front := pending[0];
        pending := pending[1..];
        if front.PendingProgression? {
          blockNumber := front.block;
        }
        modules := Reset(modules);
      }
      outcome := Done;
    }

    method SignOffReorg(m: Module, first: nat, last: nat) returns (outcome: Outcome)
      modifies this
      ensures (Value(), outcome) == SignOff(old(Value()), m, PendingReorg(first, last), HandledReorg)
    {
      if pending == [] || PendingReorg(first, last) !in pending {
        return Panicked;
      }
      modules := Pushed(modules, m, HandledReorg);
      var transition := Scan(modules, HandledReorg);
      if transition {
        pending := pending[1..];
        modules := Reset(modules);
      }
      outcome := Done;
    }

    method RegisterModule(m: Module) returns (outcome: Outcome)
      modifies this`modules
      ensures (Value(), outcome) == Register(old(Value()), m)
    {
      if modulesFinal {
        return Done;
      }
      outcome := if m in modules then Panicked else Done;
      modules := modules[m := []];
    }

    method FinalizeModules()
      modifies this`modulesFinal
      ensures Value() == NoMoreModules(old(Value()))
    {
      modulesFinal := true;
    }
  }

  /** The fold over the module map, in any order. */
  method Scan(modules: map<Module, seq<SignOffState>>, kind: SignOffState) returns (transition: bool)
    ensures transition <==> AllAgree(modules, kind)
  {
    transition := true;
    var rest := modules.Keys;
    while rest != {}
      invariant rest <= modules.Keys
      invariant transition <==> forall m :: m in modules && m !in rest ==> modules[m] != [] && modules[m][0] == kind
      decreases rest
    {
      var m :| m in rest;
      transition := transition && modules[m] != [] && modules[m][0] == kind;
      rest := rest - {m};
    }
  }

  /** Popping the head of every queue, in any order; no unwrap fails. */
  method Reset(modules: map<Module, seq<SignOffState>>) returns (next: map<Module, seq<SignOffState>>)
    requires forall m :: m in modules ==> modules[m] != []
    ensures next == map m | m in modules :: modules[m][1..]
  {
    next := modules;
    var rest := modules.Keys;
    while rest != {}
      invariant rest <= modules.Keys == next.Keys
      invariant forall m :: m in modules ==> next[m] == if m in rest then modules[m] else modules[m][1..]
      decreases rest
    {
      var m :| m in rest;
      next := next[m := next[m][1..]];
      rest := rest - {m};
    }
  }

  // ----- runs in which every module signs every queued proposal once, in queue order

  /** All proposals ever announced, the ones completed so far and how many each module has signed. */
  datatype History = History(queued: seq<GlobalBlockState>, completed: seq<GlobalBlockState>, signed: map<Module, nat>)

  datatype Event = NewBlockSeen(block: nat) | ReorgSeen(first: nat, last: nat) | Signs(m: Module)

  function KindOf(p: GlobalBlockState): SignOffState {
    if p.PendingReorg? then HandledReorg else ReadyForNextBlock
  }

  function Kinds(ps: seq<GlobalBlockState>): (ks: seq<SignOffState>)
    ensures |ks| == |ps| && forall i :: 0 <= i < |ps| ==> ks[i] == KindOf(ps[i])
  {
    seq(|ps|, i requires 0 <= i < |ps| => KindOf(ps[i]))
  }

  datatype World = World(sync: Sync, history: History, outcome: Outcome)

  /** Module `m` may sign: it is registered and has a queued proposal left to sign. */
  predicate MaySign(w: World, m: Module) {
    m in w.history.signed && w.history.signed[m] < |w.history.queued|
  }

  predicate Enabled(w: World, e: Event) {
    e.Signs? ==> MaySign(w, e.m)
  }

  /** A block is announced again while its announcement is the last one still waiting. */
  predicate Repeats(queued: seq<GlobalBlockState>, done: nat, p: GlobalBlockState) {
    p.PendingProgression? && done < |queued| && queued[|queued| - 1] == p
  }

  /** Every announcement counts, except such a repetition. */
  function Announced(queued: seq<GlobalBlockState>, done: nat, p: GlobalBlockState): seq<GlobalBlockState> {
    if Repeats(queued, done, p) then queued else queued + [p]
  }

  function Hears(h: History, p: GlobalBlockState): History {
    h.(queued := Announced(h.queued, |h.completed|, p))
  }

  function Step(w: World, e: Event): World
    requires Enabled(w, e)
  {
    match e
    case NewBlockSeen(b) => World(NewBlock(w.sync, b), Hears(w.history, PendingProgression(b)), Done)
    case ReorgSeen(f, l) => World(Reorg(w.sync, f, l), Hears(w.history, PendingReorg(f, l)), Done)
    case Signs(m) =>
      var h := w.history;
      var p := h.queued[h.signed[m]];
      var r := SignOff(w.sync, m, p, KindOf(p));
      var completed := if |r.0.pending| < |w.sync.pending| then h.completed + [w.sync.pending[0]] else h.completed;
      World(r.0, History(h.queued, completed, h.signed[m := h.signed[m] + 1]), r.1)
  }

  /** Modules registered up front, nothing queued yet. */
  function Start(block: nat, modules: set<Module>): World {
    World(Sync([], block, map m | m in modules :: [], true), History([], [], map m | m in modules :: 0), Done)
  }

  ghost predicate Legal(w: World, es: seq<Event>)
    decreases es
  {
    es != [] ==> Enabled(w, es[0]) && Legal(Step(w, es[0]), es[1..])
  }

  ghost function Exec(w: World, es: seq<Event>): World
    requires Legal(w, es)
    decreases es
  {
    if es == [] then w else Exec(Step(w, es[0]), es[1..])
  }

  ghost predicate IsMin(signed: map<Module, nat>, d: nat) {
    (forall m :: m in signed ==> d <= signed[m]) && exists m :: m in signed && signed[m] == d
  }

  /** The block of the last progression among `ps`, or `block` if there is none. */
  function LastProgression(block: nat, ps: seq<GlobalBlockState>): nat {
    if ps == [] then block
    else
      var p := ps[|ps| - 1];
      if p.PendingProgression? then p.block else LastProgression(block, ps[..|ps| - 1])
  }

  /** What holds after every run: the completed proposals are the first min-over-modules-of-signed-count
      ones, the rest is pending, and each module's queue holds the kinds it signed ahead of the others. */
  ghost predicate Inv(w: World, start: nat) {
    var s, h := w.sync, w.history;
    var d := |h.completed|;
    && w.outcome == Done
    && s.modules.Keys == h.signed.Keys
    && h.completed + s.pending == h.queued
    && IsMin(h.signed, d)
    && s.blockNumber == LastProgression(start, h.completed)
    && (forall i :: 0 <= i < |h.queued| ==> !h.queued[i].Processing?)
    && forall m :: m in h.signed ==>
         h.signed[m] <= |h.queued| && s.modules[m] == Kinds(h.queued[d..h.signed[m]])
  }

  lemma StartInv(block: nat, modules: set<Module>)
    requires modules != {}
    ensures Inv(Start(block, modules), block)
  {
    var m :| m in modules;
    var w := Start(block, modules);
    assert w.history.signed[m] == 0;
  }

  /** What is announced is pending, and what is repeated already was. */
  lemma HeardIsPending(w: World, e: Event, start: nat)
    requires Inv(w, start) && !e.Signs?
    ensures var w' := Step(w, e);
            && w'.history.completed + w'.sync.pending == w'.history.queued && w.history.queued <= w'.history.queued
            && (forall i :: 0 <= i < |w'.history.queued| ==> !w'.history.queued[i].Processing?)
            && w' == World(w.sync.(pending := w'.sync.pending), w.history.(queued := w'.history.queued), Done)
  {
    hide IsMin, LastProgression, Kinds;
    var h := w.history;
    assert w.sync.pending != [] ==> w.sync.pending[|w.sync.pending| - 1] == h.queued[|h.queued| - 1];
  }

  lemma ProduceKeepsInv(w: World, e: Event, start: nat)
    requires Inv(w, start) && !e.Signs?
    ensures Inv(Step(w, e), start)
  {
    hide LastProgression, Kinds, Step;
    HeardIsPending(w, e, start);
    var h, h' := w.history, Step(w, e).history;
    var d := |h.completed|;
    forall m | m in h.signed
      ensures h'.queued[d..h.signed[m]] == h.queued[d..h.signed[m]]
    {
    }
  }

  /** A sign-off never panics: what a module signs next is still pending. */
  lemma SignIsProper(w: World, m: Module, start: nat)
    requires Inv(w, start) && MaySign(w, m)
    ensures var p := w.history.queued[w.history.signed[m]];
            w.sync.pending != [] && p in w.sync.pending
  {
    var h := w.history;
    var k := h.signed[m] - |h.completed|;
    assert w.sync.pending[k] == h.queued[h.signed[m]];
  }

  /** The scan succeeds exactly when `m` was the only module that had not signed the front. */
  lemma ScanMeansLast(w: World, m: Module, start: nat)
    requires Inv(w, start) && MaySign(w, m)
    ensures var h := w.history;
            var d := |h.completed|;
            var kind := KindOf(h.queued[h.signed[m]]);
            AllAgree(Pushed(w.sync.modules, m, kind), kind) <==>
            h.signed[m] == d && forall x :: x in h.signed && x != m ==> d < h.signed[x]
  {
    var h := w.history;
    var d, kind := |h.completed|, KindOf(h.queued[h.signed[m]]);
    var after := Pushed(w.sync.modules, m, kind);
    var low :| low in h.signed && h.signed[low] == d;
    assert w.sync.modules[low] == [];
    if AllAgree(after, kind) {
      assert after[low] != [] && low == m;
      forall x | x in h.signed && x != m
        ensures d < h.signed[x]
      {
        assert x in after && after[x] == w.sync.modules[x] == Kinds(h.queued[d..h.signed[x]]);
      }
    }
    if h.signed[m] == d && forall x :: x in h.signed && x != m ==> d < h.signed[x] {
      forall x | x in after
        ensures after[x] != [] && after[x][0] == kind
      {
        assert x != m ==> w.sync.modules[x][0] == KindOf(h.queued[d]);
      }
    }
  }

  lemma WaitKeepsInv(w: World, m: Module, start: nat)
    requires Inv(w, start) && MaySign(w, m)
    requires var k := KindOf(w.history.queued[w.history.signed[m]]); !AllAgree(Pushed(w.sync.modules, m, k), k)
    ensures Inv(Step(w, Signs(m)), start)
  {
    hide AllAgree, LastProgression;
    SignIsProper(w, m, start);
    var h, h' := w.history, Step(w, Signs(m)).history;
    var d, n := |h.completed|, h.signed[m];
    QueueGrows(h.queued, d, n);
    var other := StillBehind(w, m, start);
    assert h'.signed[other] == d;
  }

  lemma QueueGrows(ps: seq<GlobalBlockState>, d: nat, n: nat)
    requires d <= n < |ps|
    ensures Kinds(ps[d..n + 1]) == Kinds(ps[d..n]) + [KindOf(ps[n])]
  {
    assert ps[d..n + 1] == ps[d..n] + [ps[n]];
  }

  lemma StillBehind(w: World, m: Module, start: nat) returns (other: Module)
    requires Inv(w, start) && MaySign(w, m)
    requires var k := KindOf(w.history.queued[w.history.signed[m]]); !AllAgree(Pushed(w.sync.modules, m, k), k)
    ensures other in w.history.signed && other != m && w.history.signed[other] == |w.history.completed|
  {
    hide AllAgree, LastProgression, Kinds, Pushed;
    ScanMeansLast(w, m, start);
    var h := w.history;
    other :| other in h.signed && h.signed[other] == |h.completed| && (h.signed[m] == |h.completed| ==> other != m);
  }

  /** The last signature completes the front proposal and hands every queue's head in. */
  lemma CompleteKeepsInv(w: World, m: Module, start: nat)
    requires Inv(w, start) && MaySign(w, m)
    requires var k := KindOf(w.history.queued[w.history.signed[m]]); AllAgree(Pushed(w.sync.modules, m, k), k)
    ensures Inv(Step(w, Signs(m)), start)
  {
    hide AllAgree, Kinds, Pushed;
    SignIsProper(w, m, start);
    ScanMeansLast(w, m, start);
    var h, w' := w.history, Step(w, Signs(m));
    var d, front := |h.completed|, w.sync.pending[0];
    assert h.queued[d] == front && h.signed[m] == d;
    assert (h.completed + [front])[..d] == h.completed;
    CompletedQueues(w, m, start);
    assert w'.history.signed[m] == d + 1;
  }

  lemma CompletedQueues(w: World, m: Module, start: nat)
    requires Inv(w, start) && MaySign(w, m)
    requires var k := KindOf(w.history.queued[w.history.signed[m]]); AllAgree(Pushed(w.sync.modules, m, k), k)
    ensures var w', d := Step(w, Signs(m)), |w.history.completed| + 1;
            && w'.sync.modules.Keys == w'.history.signed.Keys == w.history.signed.Keys
            && forall x :: x in w.history.signed ==>
                 d <= w'.history.signed[x] <= |w.history.queued|
                 && w'.sync.modules[x] == Kinds(w.history.queued[d..w'.history.signed[x]])
  {
    hide AllAgree, LastProgression, IsMin, Hears, NewBlock;
    SignIsProper(w, m, start);
    ScanMeansLast(w, m, start);
    var h, w' := w.history, Step(w, Signs(m));
    var d := |h.completed|;
    forall x | x in h.signed
      ensures w'.sync.modules[x] == Kinds(h.queued[d + 1..w'.history.signed[x]])
    {
      if x == m {
        assert w.sync.modules[m] == [];
      } else {
        assert Kinds(h.queued[d..h.signed[x]])[1..] == Kinds(h.queued[d + 1..h.signed[x]]);
      }
    }
  }

  lemma StepKeepsInv(w: World, e: Event, start: nat)
    requires Inv(w, start) && Enabled(w, e)
    ensures Inv(Step(w, e), start)
  {
    hide Inv, Step, AllAgree, Pushed;
    if e.Signs? {
      SignCases(w, e.m, start);
    } else {
      ProduceKeepsInv(w, e, start);
    }
  }

  lemma SignCases(w: World, m: Module, start: nat)
    requires Inv(w, start) && MaySign(w, m)
    ensures Inv(Step(w, Signs(m)), start)
  {
    hide Inv, Step, AllAgree, Pushed;
    var k := KindOf(w.history.queued[w.history.signed[m]]);
    if AllAgree(Pushed(w.sync.modules, m, k), k) {
      CompleteKeepsInv(w, m, start);
    } else {
      WaitKeepsInv(w, m, start);
    }
  }

  lemma {:induction false} ExecKeepsInv(w: World, es: seq<Event>, start: nat)
    requires Inv(w, start) && Legal(w, es)
    ensures Inv(Exec(w, es), start)
    decreases es
  {
    hide Inv, Step;
    if es != [] {
      StepKeepsInv(w, es[0], start);
      ExecKeepsInv(Step(w, es[0]), es[1..], start);
    }
  }

  /** The barrier theorem, for every set of modules registered up front and every legal run. */
  lemma BarrierTheorem(start: nat, modules: set<Module>, es: seq<Event>)
    requires modules != {} && Legal(Start(start, modules), es)
    ensures var w := Exec(Start(start, modules), es);
            var h := w.history;
            && w.outcome == Done
            && IsMin(h.signed, |h.completed|) && |h.completed| <= |h.queued|
            && h.completed == h.queued[..|h.completed|]
            && w.sync.pending == h.queued[|h.completed|..]
            && w.sync.blockNumber == LastProgression(start, h.completed)
            && (CanOperate(w.sync) <==> forall m :: m in h.signed ==> h.signed[m] == |h.queued|)
  {
    StartInv(start, modules);
    ExecKeepsInv(Start(start, modules), es, start);
    InvConcludes(Exec(Start(start, modules), es), start);
  }

  lemma InvConcludes(w: World, start: nat)
    requires Inv(w, start)
    ensures var h := w.history;
            && w.outcome == Done
            && IsMin(h.signed, |h.completed|) && |h.completed| <= |h.queued|
            && h.completed == h.queued[..|h.completed|]
            && w.sync.pending == h.queued[|h.completed|..]
            && w.sync.blockNumber == LastProgression(start, h.completed)
            && (CanOperate(w.sync) <==> forall m :: m in h.signed ==> h.signed[m] == |h.queued|)
  {
    hide LastProgression, Kinds;
    var h := w.history;
    var low :| low in h.signed && h.signed[low] == |h.completed|;
  }

  /** An announced block is the last one pending, nothing pending before is lost, and the queue grows unless
      the block was the last one already. */
  lemma AnnouncementIsPending(s: Sync, b: nat)
    ensures var t, p := NewBlock(s, b), PendingProgression(b);
            && t == s.(pending := t.pending) && s.pending <= t.pending
            && t.pending != [] && t.pending[|t.pending| - 1] == p
            && (|t.pending| == |s.pending| + 1 <==> !(s.pending != [] && s.pending[|s.pending| - 1] == p))
            && |t.pending| <= |s.pending| + 1
  {
  }

  // ----- catching up

  /** The block announced last, or `block`. */
  function LastAnnounced(block: nat, es: seq<Event>): nat
    decreases es
  {
    if es == [] then block else LastAnnounced(if es[0].NewBlockSeen? then es[0].block else block, es[1..])
  }

  lemma {:induction false} LastIsQueued(w: World, es: seq<Event>, start: nat)
    requires Legal(w, es)
    ensures LastProgression(start, Exec(w, es).history.queued) == LastAnnounced(LastProgression(start, w.history.queued), es)
    decreases es
  {
    hide SignOff, NewBlock, Reorg;
    if es != [] {
      var w' := Step(w, es[0]);
      var q, q' := w.history.queued, w'.history.queued;
      assert q' == q || q' == q + [q'[|q|]];
      assert q' != q ==> q'[..|q|] == q;
      LastIsQueued(w', es[1..], start);
    }
  }

  lemma SignedSoFar(w: World, m: Module, start: nat)
    requires Inv(w, start) && m in w.history.signed
    ensures w.history.signed[m] <= |w.history.queued|
  {
    hide IsMin, LastProgression, Kinds;
  }

  lemma SignsOneMore(w: World, m: Module)
    requires MaySign(w, m)
    ensures var h := Step(w, Signs(m)).history;
            h.queued == w.history.queued && h.signed == w.history.signed[m := w.history.signed[m] + 1]
  {
    hide SignOff;
  }

  /** A module signs all that is left for it. */
  lemma {:induction false} SignsRest(w: World, m: Module, start: nat) returns (more: seq<Event>)
    requires Inv(w, start) && m in w.history.signed
    ensures Legal(w, more) && Inv(Exec(w, more), start) && Exec(w, more).history.queued == w.history.queued
    ensures Exec(w, more).history.signed == w.history.signed[m := |w.history.queued|]
    decreases |w.history.queued| - w.history.signed[m]
  {
    hide Inv, Step;
    SignedSoFar(w, m, start);
    if MaySign(w, m) {
      var e := Signs(m);
      StepKeepsInv(w, e, start);
      SignsOneMore(w, m);
      var rest := SignsRest(Step(w, e), m, start);
      more := [e] + rest;
      assert more[1..] == rest;
    } else {
      more := [];
      assert w.history.signed[m := |w.history.queued|] == w.history.signed;
    }
  }

  lemma {:induction false} ExecConcat(w: World, a: seq<Event>, b: seq<Event>)
    requires Legal(w, a) && Legal(Exec(w, a), b)
    ensures Legal(w, a + b) && Exec(w, a + b) == Exec(Exec(w, a), b)
    decreases a
  {
    hide Step;
    if a == [] {
      assert a + b == b;
    } else {
      assert (a + b)[0] == a[0] && (a + b)[1..] == a[1..] + b;
      ExecConcat(Step(w, a[0]), a[1..], b);
    }
  }

  lemma {:induction false} AllSignRest(w: World, todo: set<Module>, start: nat) returns (more: seq<Event>)
    requires Inv(w, start) && todo <= w.history.signed.Keys
    requires forall m :: m in w.history.signed && m !in todo ==> w.history.signed[m] == |w.history.queued|
    ensures Legal(w, more) && Inv(Exec(w, more), start) && Exec(w, more).history.queued == w.history.queued
    ensures forall m :: m in Exec(w, more).history.signed ==> Exec(w, more).history.signed[m] == |w.history.queued|
    decreases todo
  {
    hide Inv, Step;
    if todo == {} {
      more := [];
    } else {
      var m :| m in todo;
      var first := SignsRest(w, m, start);
      var rest := AllSignRest(Exec(w, first), todo - {m}, start);
      ExecConcat(w, first, rest);
      more := first + rest;
    }
  }

  /** No announcement is lost: from every reachable state the modules can sign all that is left, and once
      they have, in whatever order, the node may operate and its block is the one announced last. */
  lemma CatchesUp(start: nat, modules: set<Module>, es: seq<Event>) returns (more: seq<Event>)
    requires modules != {} && Legal(Start(start, modules), es)
    ensures var w := Exec(Start(start, modules), es);
            && (CanOperate(w.sync) ==> w.sync.blockNumber == LastAnnounced(start, es))
            && Legal(w, more) && CanOperate(Exec(w, more).sync)
            && Exec(w, more).sync.blockNumber == LastAnnounced(start, es)
  {
    hide Legal, Exec, Inv, LastProgression, LastAnnounced;
    var w := Exec(Start(start, modules), es);
    StartInv(start, modules);
    ExecKeepsInv(Start(start, modules), es, start);
    LastIsQueued(Start(start, modules), es, start);
    NothingQueued(start);
    assert Start(start, modules).history.queued == [];
    InvConcludes(w, start);
    assert CanOperate(w.sync) ==> w.history.completed == w.history.queued;
    more := AllSignRest(w, w.history.signed.Keys, start);
    InvConcludes(Exec(w, more), start);
    assert Exec(w, more).history.completed == w.history.queued;
  }

  lemma NothingQueued(start: nat)
    ensures LastProgression(start, []) == start
  {
  }

  // ----- registering modules

  function RegisterAll(s: Sync, ms: seq<Module>): (Sync, Outcome) {
    if ms == [] then (s, Done)
    else
      var (t, before) := RegisterAll(s, ms[..|ms| - 1]);
      var (t', now) := Register(t, ms[|ms| - 1]);
      (t', if before.Panicked? then before else now)
  }

  lemma {:induction false} Registers(block: nat, ms: seq<Module>)
    ensures var (t, outcome) := RegisterAll(Sync([], block, map[], false), ms);
            && t == Sync([], block, map m | m in ms :: [], false) && (outcome.Done? <==> Distinct(ms))
  {
    if ms != [] {
      var init, m := ms[..|ms| - 1], ms[|ms| - 1];
      assert ms == init + [m];
      Registers(block, init);
      var names: map<Module, seq<SignOffState>> := map x | x in init :: [];
      assert (map x | x in ms :: []) == names[m := []];
      if Distinct(init) && m !in init {
        assert Distinct(ms);
      }
      if Distinct(ms) {
        assert Distinct(init);
        assert m !in init;
      }
    }
  }

  /** Registering modules and then closing the list gives the state every run starts from, in whatever order
      they register; it panics if and only if one registers twice, and later ones are not added. */
  lemma RegistrationStarts(block: nat, ms: seq<Module>, late: Module)
    ensures var (t, outcome) := RegisterAll(Sync([], block, map[], false), ms);
            && NoMoreModules(t) == Start(block, set m | m in ms).sync && (outcome.Done? <==> Distinct(ms))
            && Register(NoMoreModules(t), late) == (NoMoreModules(t), Done)
  {
    Registers(block, ms);
  }

  /** A module that is not registered changes nothing, provided some module is registered. */
  lemma StrangerIsIgnored(w: World, m: Module, p: GlobalBlockState, kind: SignOffState, start: nat)
    requires Inv(w, start) && m !in w.sync.modules && p in w.sync.pending
    ensures SignOff(w.sync, m, p, kind) == (w.sync, Done)
  {
    var h := w.history;
    var low :| low in h.signed && h.signed[low] == |h.completed|;
    assert w.sync.modules[low] == [];
  }

  /** With no module registered at all, any sign-off completes the front proposal. */
  lemma NoModulesMeansNoBarrier(s: Sync, m: Module, p: GlobalBlockState, kind: SignOffState)
    requires s.modules == map[] && p in s.pending
    ensures SignOff(s, m, p, kind).0.pending == s.pending[1..]
  {
  }

  lemma SignWaits(s: Sync, m: Module, behind: Module, p: GlobalBlockState, kind: SignOffState)
    requires p in s.pending && m in s.modules && behind in s.modules && behind != m && s.modules[behind] == []
    ensures SignOff(s, m, p, kind) == (s.(modules := s.modules[m := s.modules[m] + [kind]]), Done)
  {
    assert Pushed(s.modules, m, kind)[behind] == [];
  }

  lemma SignCompletes(s: Sync, m: Module, p: GlobalBlockState, kind: SignOffState)
    requires p in s.pending && m in s.modules && AllAgree(s.modules - {m}, kind)
    requires s.modules[m] == [] || s.modules[m][0] == kind
    ensures var t := SignOff(s, m, p, kind).0;
            t.pending == s.pending[1..] && t.modules.Keys == s.modules.Keys
            && t.modules[m] == (s.modules[m] + [kind])[1..]
            && forall x :: x in s.modules && x != m ==> s.modules[x] != [] && t.modules[x] == s.modules[x][1..]
  {
    var after := Pushed(s.modules, m, kind);
    assert forall x :: x in after && x != m ==> x in s.modules - {m};
    assert AllAgree(after, kind);
    forall x | x in s.modules && x != m
      ensures s.modules[x] != [] && SignOff(s, m, p, kind).0.modules[x] == s.modules[x][1..]
    {
      assert x in s.modules - {m} && after[x] == s.modules[x];
    }
  }

  /** Why the order matters: sign-offs are compared by kind only, so if module `a` signs the front twice,
      both proposals complete with `b`'s two signatures although `a` never signed the second. */
  lemma DoubleSignSkipsBarrier(s: Sync, a: Module, b: Module, p: GlobalBlockState, q: GlobalBlockState, kind: SignOffState)
    requires a != b && s.pending == [p, q] && s.modules == map[a := [], b := []]
    ensures var s1 := SignOff(SignOff(s, a, p, kind).0, a, p, kind).0;
            SignOff(SignOff(s1, b, p, kind).0, b, q, kind).0.pending == []
  {
    hide SignOff;
    SignWaits(s, a, b, p, kind);
    var s0 := SignOff(s, a, p, kind).0;
    SignWaits(s0, a, b, p, kind);
    var s1 := SignOff(s0, a, p, kind).0;
    assert s1.modules[a] == [kind, kind] && s1.modules[b] == [];
    SignCompletes(s1, b, p, kind);
    var s2 := SignOff(s1, b, p, kind).0;
    assert s2.modules[a] == [kind] && s2.modules[b] == [];
    SignCompletes(s2, b, q, kind);
  }
}
