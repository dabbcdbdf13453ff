/**
 The block sync under any calls whatsoever: proposals queued and signed off in any order, twice, out of
 turn, by strangers, or although they are not pending. What completes is decided by one thing only, the
 longest common prefix of the kinds that the modules have signed.
 */
module BlockSyncCalls {
  import opened BlockSync

  datatype Call =
    | NewBlockCall(block: nat)
    | ReorgCall(first: nat, last: nat)
    | SignBlockCall(m: Module, block: nat)
    | SignReorgCall(m: Module, first: nat, last: nat)

  /** All proposals ever announced, those completed, the kind of the sign-off that completed each of them, and
      the kinds each module has signed, in order. A call that panics leaves everything as it is. */
  datatype Tape = Tape(
    sync: Sync, queued: seq<GlobalBlockState>, completed: seq<GlobalBlockState>,
    agreed: seq<SignOffState>, kinds: map<Module, seq<SignOffState>>)

  function Begin(block: nat, modules: set<Module>): Tape {
    Tape(Sync([], block, map m | m in modules :: [], true), [], [], [], map m | m in modules :: [])
  }

  function Queued(t: Tape, next: Sync, p: GlobalBlockState): Tape {
    t.(sync := next, queued := Announced(t.queued, |t.completed|, p))
  }

  function Signed(t: Tape, m: Module, p: GlobalBlockState): Tape {
    var (next, outcome) := SignOff(t.sync, m, p, KindOf(p));
    if outcome.Panicked? then t
    else
      var popped := |next.pending| < |t.sync.pending|;
      Tape(next, t.queued,
           if popped then t.completed + [t.sync.pending[0]] else t.completed,
           if popped then t.agreed + [KindOf(p)] else t.agreed,
           if m in t.kinds then t.kinds[m := t.kinds[m] + [KindOf(p)]] else t.kinds)
  }

  function Called(t: Tape, c: Call): Tape {
    match c
    case NewBlockCall(b) => Queued(t, NewBlock(t.sync, b), PendingProgression(b))
    case ReorgCall(f, l) => Queued(t, Reorg(t.sync, f, l), PendingReorg(f, l))
    case SignBlockCall(m, b) => Signed(t, m, PendingProgression(b))
    case SignReorgCall(m, f, l) => Signed(t, m, PendingReorg(f, l))
  }

  function CallAll(t: Tape, cs: seq<Call>): Tape
    decreases cs
  {
    if cs == [] then t else CallAll(Called(t, cs[0]), cs[1..])
  }

  ghost predicate Common(kinds: map<Module, seq<SignOffState>>, ks: seq<SignOffState>) {
    forall m :: m in kinds ==> ks <= kinds[m]
  }

  /** `ks` is the longest common prefix of what the modules signed. */
  ghost predicate LongestCommon(kinds: map<Module, seq<SignOffState>>, ks: seq<SignOffState>) {
    Common(kinds, ks) && forall k :: !Common(kinds, ks + [k])
  }

  /** The block of the last completed progression that was signed as one, or `start`. */
  function LastAgreed(start: nat, completed: seq<GlobalBlockState>, agreed: seq<SignOffState>): nat
    requires |completed| == |agreed|
  {
    if completed == [] then start
    else
      var n := |completed| - 1;
      if completed[n].PendingProgression? && agreed[n] == ReadyForNextBlock then completed[n].block
      else LastAgreed(start, completed[..n], agreed[..n])
  }

  ghost predicate Inv(t: Tape, start: nat) {
    && t.kinds != map[] && t.sync.modules.Keys == t.kinds.Keys
    && t.completed + t.sync.pending == t.queued
    && |t.agreed| == |t.completed| && LongestCommon(t.kinds, t.agreed)
    && t.sync.blockNumber == LastAgreed(start, t.completed, t.agreed)
    && forall m :: m in t.kinds ==> t.kinds[m] == t.agreed + t.sync.modules[m]
  }

  /** A list that begins with `ks` and goes on with `k`. */
  lemma Prefixes(ks: seq<SignOffState>, rest: seq<SignOffState>, k: SignOffState)
    ensures ks <= ks + rest
    ensures ks + [k] <= ks + rest <==> rest != [] && rest[0] == k
  {
    assert rest != [] ==> (ks + rest)[|ks|] == rest[0];
  }

  /** The heads of the queues agree on a kind exactly if the common prefix can be prolonged by it. */
  lemma HeadsAgreeIff(
    kinds: map<Module, seq<SignOffState>>, modules: map<Module, seq<SignOffState>>, ks: seq<SignOffState>, k: SignOffState)
    requires modules.Keys == kinds.Keys && forall m :: m in kinds ==> kinds[m] == ks + modules[m]
    ensures AllAgree(modules, k) <==> Common(kinds, ks + [k])
  {
    forall m | m in kinds
      ensures ks + [k] <= kinds[m] <==> modules[m] != [] && modules[m][0] == k
    {
      Prefixes(ks, modules[m], k);
    }
  }

  /** A sign-off by `m` cannot prolong the common prefix by two: `m` would have to be the only one behind. */
  lemma OnePush(t: Tape, m: Module, k: SignOffState, start: nat)
    requires Inv(t, start) && m in t.kinds
    ensures var kinds := t.kinds[m := t.kinds[m] + [k]];
            && (Common(kinds, t.agreed + [k]) ==> LongestCommon(kinds, t.agreed + [k]))
            && (!Common(kinds, t.agreed + [k]) ==> LongestCommon(kinds, t.agreed))
  {
    var kinds, ks := t.kinds[m := t.kinds[m] + [k]], t.agreed;
    forall x | x in t.kinds
      ensures ks <= t.kinds[x]
    {
      Prefixes(ks, t.sync.modules[x], k);
    }
    forall j
      ensures Common(kinds, ks + [j]) ==> j == k && t.kinds[m] == ks
    {
      if Common(kinds, ks + [j]) {
        assert m in kinds && kinds[m] == t.kinds[m] + [k];
        PushedPrefix(t.kinds[m], ks, j, k);
        var low :| low in t.kinds && !(ks + [j] <= t.kinds[low]);
        assert kinds[low] == t.kinds[low] || low == m;
      }
    }
    if Common(kinds, ks + [k]) {
      assert kinds[m] == ks + [k];
      forall j
        ensures !Common(kinds, ks + [k] + [j])
      {
        assert |ks + [k] + [j]| > |kinds[m]|;
      }
    }
  }

  lemma PushedPrefix(q: seq<SignOffState>, ks: seq<SignOffState>, j: SignOffState, k: SignOffState)
    requires ks <= q && ks + [j] <= q + [k]
    ensures ks + [j] <= q || (q == ks && j == k)
  {
    assert (ks + [j])[|ks|] == (q + [k])[|ks|] == j;
    assert |q| > |ks| ==> q[|ks|] == j;
  }

  lemma SignedKeeps(t: Tape, m: Module, p: GlobalBlockState, start: nat)
    requires Inv(t, start)
    ensures Inv(Signed(t, m, p), start)
  {
    hide AllAgree, LongestCommon, Common, LastAgreed;
    var k := KindOf(p);
    var kinds := if m in t.kinds then t.kinds[m := t.kinds[m] + [k]] else t.kinds;
    var modules := Pushed(t.sync.modules, m, k);
    forall x | x in kinds
      ensures kinds[x] == t.agreed + modules[x]
    {
      assert t.agreed + (t.sync.modules[x] + [k]) == t.agreed + t.sync.modules[x] + [k];
    }
    HeadsAgreeIff(kinds, modules, t.agreed, k);
    if m in t.kinds {
      OnePush(t, m, k, start);
    } else {
      NotLonger(t.kinds, t.agreed, k);
    }
    if p in t.sync.pending && AllAgree(modules, k) {
      PopKeeps(t, m, p, start);
    }
  }

  lemma NotLonger(kinds: map<Module, seq<SignOffState>>, ks: seq<SignOffState>, k: SignOffState)
    requires LongestCommon(kinds, ks)
    ensures !Common(kinds, ks + [k])
  {
  }

  lemma PopKeeps(t: Tape, m: Module, p: GlobalBlockState, start: nat)
    requires Inv(t, start) && p in t.sync.pending
    requires AllAgree(Pushed(t.sync.modules, m, KindOf(p)), KindOf(p))
    requires m in t.kinds && LongestCommon(t.kinds[m := t.kinds[m] + [KindOf(p)]], t.agreed + [KindOf(p)])
    ensures Inv(Signed(t, m, p), start)
  {
    hide LongestCommon;
    var k, front := KindOf(p), t.sync.pending[0];
    var modules := Pushed(t.sync.modules, m, k);
    var u := Signed(t, m, p);
    assert (t.completed + [front])[..|t.completed|] == t.completed;
    assert (t.agreed + [k])[..|t.agreed|] == t.agreed;
    forall x | x in u.kinds
      ensures u.kinds[x] == u.agreed + u.sync.modules[x]
    {
      assert x in modules && modules[x] == [k] + modules[x][1..];
      assert u.kinds[x] == t.agreed + modules[x];
    }
  }

  lemma CalledKeeps(t: Tape, c: Call, start: nat)
    requires Inv(t, start)
    ensures Inv(Called(t, c), start)
  {
    hide LongestCommon, LastAgreed, Signed;
    match c
    case NewBlockCall(b) =>
    case ReorgCall(f, l) =>
    case SignBlockCall(m, b) => SignedKeeps(t, m, PendingProgression(b), start);
    case SignReorgCall(m, f, l) => SignedKeeps(t, m, PendingReorg(f, l), start);
  }

  lemma {:induction false} CallAllKeeps(t: Tape, cs: seq<Call>, start: nat)
    requires Inv(t, start)
    ensures Inv(CallAll(t, cs), start)
    decreases cs
  {
    hide Inv, Called;
    if cs != [] {
      CalledKeeps(t, cs[0], start);
      CallAllKeeps(Called(t, cs[0]), cs[1..], start);
    }
  }

  lemma BeginInv(block: nat, modules: set<Module>)
    requires modules != {}
    ensures Inv(Begin(block, modules), block)
  {
    var t := Begin(block, modules);
    var m :| m in modules;
    assert m in t.kinds;
    forall k
      ensures !Common(t.kinds, [] + [k])
    {
      assert !([k] <= t.kinds[m]);
    }
  }

  /** For every set of modules registered up front and every sequence of calls: the proposals completed are
      the first of those queued, as many as the longest common prefix of the kinds the modules signed is
      long, and the block number is that of the last one which was and was signed as a progression. */
  lemma CommonPrefixTheorem(start: nat, modules: set<Module>, cs: seq<Call>)
    requires modules != {}
    ensures var t := CallAll(Begin(start, modules), cs);
            && t.completed + t.sync.pending == t.queued
            && |t.agreed| == |t.completed| && LongestCommon(t.kinds, t.agreed)
            && t.sync.blockNumber == LastAgreed(start, t.completed, t.agreed)
  {
    hide CallAll, LongestCommon, LastAgreed;
    BeginInv(start, modules);
    CallAllKeeps(Begin(start, modules), cs, start);
  }

  /** A sign-off panics if and only if its proposal is not among those announced and not completed yet, and
      then it changes nothing. */
  lemma PanicsIff(start: nat, modules: set<Module>, cs: seq<Call>, m: Module, p: GlobalBlockState)
    requires modules != {}
    ensures var t := CallAll(Begin(start, modules), cs);
            && |t.completed| <= |t.queued|
            && (SignOff(t.sync, m, p, KindOf(p)).1.Panicked? <==> p !in t.queued[|t.completed|..])
            && (SignOff(t.sync, m, p, KindOf(p)).1.Panicked? ==> SignOff(t.sync, m, p, KindOf(p)).0 == t.sync)
  {
    hide CallAll, LongestCommon, LastAgreed, AllAgree;
    CommonPrefixTheorem(start, modules, cs);
    var t := CallAll(Begin(start, modules), cs);
    assert t.queued[|t.completed|..] == t.sync.pending;
  }

  // ----- when the barrier stands still

  /** As many proposals are complete as the slowest module has signed. */
  ghost predicate KeepsPace(t: Tape) {
    (forall m :: m in t.kinds ==> |t.completed| <= |t.kinds[m]|) && exists m :: m in t.kinds && |t.kinds[m]| == |t.completed|
  }

  predicate DifferAt(kinds: map<Module, seq<SignOffState>>, m: Module, n: Module, i: nat) {
    m in kinds && n in kinds && i < |kinds[m]| && i < |kinds[n]| && kinds[m][i] != kinds[n][i]
  }

  /** Everybody has made a sign-off number `i`, and they are not all of one kind. */
  ghost predicate Conflict(kinds: map<Module, seq<SignOffState>>) {
    exists m, n, i: nat :: DifferAt(kinds, m, n, i) && forall x :: x in kinds ==> i < |kinds[x]|
  }

  /** Under any calls, the completed proposals keep pace with the slowest module if and only if there is no
      place in which everybody has signed and not all signed the same kind. */
  lemma KeepsPaceIff(start: nat, modules: set<Module>, cs: seq<Call>)
    requires modules != {}
    ensures var t := CallAll(Begin(start, modules), cs); KeepsPace(t) <==> !Conflict(t.kinds)
  {
    hide CallAll, KeepsPace, Conflict;
    BeginInv(start, modules);
    CallAllKeeps(Begin(start, modules), cs, start);
    var t := CallAll(Begin(start, modules), cs);
    if KeepsPace(t) {
      PaceIsPeace(t, start);
    } else {
      BehindIsConflict(t, start);
    }
  }

  lemma PaceIsPeace(t: Tape, start: nat)
    requires Inv(t, start) && KeepsPace(t)
    ensures !Conflict(t.kinds)
  {
    hide LastAgreed;
    var low :| low in t.kinds && |t.kinds[low]| == |t.completed|;
    forall m, n, i: nat | DifferAt(t.kinds, m, n, i)
      ensures !(i < |t.kinds[low]|)
    {
      assert t.agreed <= t.kinds[m] && t.agreed <= t.kinds[n];
    }
  }

  lemma BehindIsConflict(t: Tape, start: nat)
    requires Inv(t, start) && !KeepsPace(t)
    ensures Conflict(t.kinds)
  {
    hide LastAgreed;
    var d := |t.agreed|;
    forall x | x in t.kinds
      ensures d < |t.kinds[x]|
    {
      assert t.kinds[x] == t.agreed + t.sync.modules[x];
    }
    var m :| m in t.kinds;
    var k := t.kinds[m][d];
    assert !Common(t.kinds, t.agreed + [k]);
    var n :| n in t.kinds && !(t.agreed + [k] <= t.kinds[n]);
    Prefixes(t.agreed, t.sync.modules[n], k);
    assert DifferAt(t.kinds, m, n, d);
  }

  /** Two modules signed different kinds for the next proposal. */
  ghost predicate Jammed(t: Tape) {
    exists m, n :: DifferAt(t.kinds, m, n, |t.completed|)
  }

  /** A jam is for good: whatever is called afterwards, no proposal completes any more. */
  lemma JammedForEver(start: nat, modules: set<Module>, cs: seq<Call>, more: seq<Call>)
    requires modules != {} && Jammed(CallAll(Begin(start, modules), cs))
    ensures var t := CallAll(Begin(start, modules), cs);
            Jammed(CallAll(t, more)) && CallAll(t, more).completed == t.completed
  {
    hide CallAll, Jammed;
    BeginInv(start, modules);
    CallAllKeeps(Begin(start, modules), cs, start);
    JamStays(CallAll(Begin(start, modules), cs), more, start);
  }

  lemma {:induction false} JamStays(t: Tape, cs: seq<Call>, start: nat)
    requires Inv(t, start) && Jammed(t)
    ensures Jammed(CallAll(t, cs)) && CallAll(t, cs).completed == t.completed
    decreases cs
  {
    hide Inv, Called, Jammed;
    if cs != [] {
      CalledKeeps(t, cs[0], start);
      CallKeepsJam(t, cs[0], start);
      JamStays(Called(t, cs[0]), cs[1..], start);
    }
  }

  lemma CallKeepsJam(t: Tape, c: Call, start: nat)
    requires Inv(t, start) && Jammed(t)
    ensures Jammed(Called(t, c)) && Called(t, c).completed == t.completed
  {
    hide LastAgreed, LongestCommon, Called;
    var m, n :| DifferAt(t.kinds, m, n, |t.completed|);
    DifferingHeads(t, m, n, start);
    SignedKeepsHeads(t, c, m, n);
    assert DifferAt(Called(t, c).kinds, m, n, |t.completed|);
  }

  lemma DifferingHeads(t: Tape, m: Module, n: Module, start: nat)
    requires Inv(t, start) && DifferAt(t.kinds, m, n, |t.completed|)
    ensures t.sync.modules[m] != [] && t.sync.modules[n] != [] && t.sync.modules[m][0] != t.sync.modules[n][0]
  {
    hide LastAgreed, LongestCommon;
  }

  lemma SignedKeepsHeads(t: Tape, c: Call, m: Module, n: Module)
    requires m in t.sync.modules && n in t.sync.modules
    requires t.sync.modules[m] != [] && t.sync.modules[n] != [] && t.sync.modules[m][0] != t.sync.modules[n][0]
    ensures Called(t, c).completed == t.completed
    ensures forall x :: x in t.kinds ==> x in Called(t, c).kinds && t.kinds[x] <= Called(t, c).kinds[x]
  {
    hide AllAgree;
    match c
    case NewBlockCall(b) =>
    case ReorgCall(f, l) =>
    case SignBlockCall(x, b) => NeverAgree(Pushed(t.sync.modules, x, ReadyForNextBlock), m, n, ReadyForNextBlock);
    case SignReorgCall(x, f, l) => NeverAgree(Pushed(t.sync.modules, x, HandledReorg), m, n, HandledReorg);
  }

  lemma NeverAgree(modules: map<Module, seq<SignOffState>>, m: Module, n: Module, k: SignOffState)
    requires m in modules && n in modules && modules[m] != [] && modules[n] != [] && modules[m][0] != modules[n][0]
    ensures !AllAgree(modules, k)
  {
  }
}
