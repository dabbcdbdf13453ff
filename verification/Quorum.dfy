/**
 Consensus messages and the quorum arithmetic over them: which orders the solver receives from the
 aggregations a leader holds, and how a received proposal's solutions are compared.
 */
module Quorum {
  import opened FiniteSums
  import opened Sequences

  /** An order with its storage data, compared as a whole. */
  type StoredOrder = nat

  /** `signed` says whether the signature recovers to `source`. */
  datatype PreProposal = PreProposal(
    height: nat, source: Address, limit: seq<StoredOrder>, searcher: seq<StoredOrder>, signed: bool)

  datatype Aggregation = Aggregation(height: nat, source: Address, preProposals: seq<PreProposal>, signed: bool)

  datatype Solution = Solution(pool: nat, outcome: nat)

  datatype Proposal = Proposal(
    height: nat, source: Address, preproposals: seq<Aggregation>, solutions: seq<Solution>, signed: bool)

  /** ceil(2n/3) */
  function TwoThirds(n: nat): nat {
    (2 * n + 2) / 3
  }

  /** A quorum is two thirds and no more. */
  lemma QuorumIff(k: nat, n: nat)
    ensures k >= TwoThirds(n) <==> 3 * k >= 2 * n
  {
  }

  /** So the others still form one if a third of the validators is silent, and not if more are. */
  lemma QuorumSurvives(silent: nat, n: nat)
    requires silent <= n
    ensures n - silent >= TwoThirds(n) <==> 3 * silent <= n
  {
  }

  predicate ValidPreProposal(p: PreProposal, height: nat) {
    p.signed && p.height == height
  }

  predicate ValidAggregation(a: Aggregation, height: nat, twoThirds: nat) {
    && (forall i :: 0 <= i < |a.preProposals| ==> ValidPreProposal(a.preProposals[i], height))
    && |a.preProposals| >= twoThirds && a.signed
  }

  predicate ValidProposal(p: Proposal, height: nat, twoThirds: nat) {
    (forall i :: 0 <= i < |p.preproposals| ==> ValidAggregation(p.preproposals[i], height, twoThirds)) && p.signed
  }

  // ----- which orders reach the solver

  /** Count the occurrences of each order and keep, in some order, those counted `twoThirds` times. */
  method FilterQuorumOrders(input: seq<StoredOrder>, twoThirds: nat) returns (kept: seq<StoredOrder>)
    ensures Distinct(kept)
    ensures forall o :: o in kept <==> o in input && multiset(input)[o] >= twoThirds
  {
    var counts: map<StoredOrder, nat> := map[];
    var i := 0;
    while i < |input|
      invariant 0 <= i <= |input|
      invariant forall o :: o in counts <==> o in input[..i]
      invariant forall o :: o in counts ==> counts[o] == multiset(input[..i])[o]
    {
      var o := input[i];
      assert input[..i + 1] == input[..i] + [o];
      assert o !in counts ==> multiset(input[..i])[o] == 0;
      counts := counts[o := (if o in counts then counts[o] else 0) + 1];
      i := i + 1;
    }
    assert input[..i] == input;
    kept := [];
    var rest := counts.Keys;
    while rest != {}
      invariant rest <= counts.Keys && Distinct(kept)
      invariant forall o :: o in kept <==> o in counts && o !in rest && counts[o] >= twoThirds
      decreases rest
    {
      var o :| o in rest;
      if counts[o] >= twoThirds {
        kept := kept + [o];
      }
      rest := rest - {o};
    }
  }

  /** The two lists of orders a pre-proposal carries. */
  datatype Side = Limit | TopOfBlock

  function OrdersOn(p: PreProposal, k: Side): seq<StoredOrder> {
    if k == Limit then p.limit else p.searcher
  }

  /** All orders on one side of a list of pre-proposals, with multiplicity. */
  ghost function AllOrders(ps: seq<PreProposal>, k: Side): multiset<StoredOrder> {
    if ps == [] then multiset{} else AllOrders(ps[..|ps| - 1], k) + multiset(OrdersOn(ps[|ps| - 1], k))
  }

  /** The same over a set of aggregations, counted once per aggregation that contains the pre-proposal. */
  ghost function Input(aggs: set<Aggregation>, k: Side): multiset<StoredOrder>
    decreases aggs
  {
    if aggs == {} then multiset{}
    else
      var a :| a in aggs;
      AllOrders(a.preProposals, k) + Input(aggs - {a}, k)
  }

  lemma {:induction false} InputRemove(aggs: set<Aggregation>, a: Aggregation, k: Side)
    requires a in aggs
    ensures Input(aggs, k) == AllOrders(a.preProposals, k) + Input(aggs - {a}, k)
    decreases aggs
  {
    hide AllOrders;
    var b :| b in aggs && Input(aggs, k) == AllOrders(b.preProposals, k) + Input(aggs - {b}, k);
    if a != b {
      InputRemove(aggs - {b}, a, k);
      InputRemove(aggs - {a}, b, k);
      assert aggs - {b} - {a} == aggs - {a} - {b};
    }
  }

  /** `kept` lists, once each, the orders of one side that occur in enough of the aggregated pre-proposals. */
  ghost predicate SolverInput(aggs: set<Aggregation>, validators: nat, k: Side, kept: seq<StoredOrder>) {
    && Distinct(kept)
    && forall o :: o in kept <==> 0 < Input(aggs, k)[o] && Input(aggs, k)[o] >= TwoThirds(validators)
  }

  method AppendOrders(ps: seq<PreProposal>, limit: seq<StoredOrder>, searcher: seq<StoredOrder>)
    returns (limit': seq<StoredOrder>, searcher': seq<StoredOrder>)
    ensures multiset(limit') == multiset(limit) + AllOrders(ps, Limit)
    ensures multiset(searcher') == multiset(searcher) + AllOrders(ps, TopOfBlock)
  {
    limit', searcher' := limit, searcher;
    var i := 0;
    while i < |ps|
      invariant 0 <= i <= |ps|
      invariant multiset(limit') == multiset(limit) + AllOrders(ps[..i], Limit)
      invariant multiset(searcher') == multiset(searcher) + AllOrders(ps[..i], TopOfBlock)
    {
      assert ps[..i + 1][..i] == ps[..i];
      limit', searcher' := limit' + ps[i].limit, searcher' + ps[i].searcher;
      i := i + 1;
    }
    assert ps[..i] == ps;
  }

  /** What the solver is given: on each side every order that occurs often enough, exactly once, whatever
      the order in which the hash set of aggregations is visited. */
  method MatchingEngineInput(aggs: set<Aggregation>, validators: nat)
    returns (limit: seq<StoredOrder>, searcher: seq<StoredOrder>)
    ensures SolverInput(aggs, validators, Limit, limit) && SolverInput(aggs, validators, TopOfBlock, searcher)
  {
    var allLimit, allSearcher: seq<StoredOrder> := [], [];
    var rest := aggs;
    ghost var done: set<Aggregation> := {};
    while rest != {}
      invariant done + rest == aggs && done !! rest
      invariant multiset(allLimit) == Input(done, Limit)
      invariant multiset(allSearcher) == Input(done, TopOfBlock)
      decreases rest
    {
      var a :| a in rest;
      allLimit, allSearcher := AppendOrders(a.preProposals, allLimit, allSearcher);
      assert done + {a} - {a} == done;
      InputRemove(done + {a}, a, Limit);
      InputRemove(done + {a}, a, TopOfBlock);
      rest, done := rest - {a}, done + {a};
    }
    assert done == aggs;
    limit := FilterQuorumOrders(allLimit, TwoThirds(validators));
    searcher := FilterQuorumOrders(allSearcher, TwoThirds(validators));
    assert forall o :: o in allLimit <==> 0 < multiset(allLimit)[o];
    assert forall o :: o in allSearcher <==> 0 < multiset(allSearcher)[o];
  }

  /** The solver's input is determined up to its order by the set of aggregations, so two nodes that hold
      the same aggregations hand their solvers the same orders. */
  lemma SameInput(aggs: set<Aggregation>, validators: nat, k: Side, x: seq<StoredOrder>, y: seq<StoredOrder>)
    requires SolverInput(aggs, validators, k, x) && SolverInput(aggs, validators, k, y)
    ensures multiset(x) == multiset(y)
  {
    forall o: StoredOrder
      ensures multiset(x)[o] == multiset(y)[o]
    {
      DistinctCounts(x, o);
      DistinctCounts(y, o);
    }
  }

  ghost function Members(a: Aggregation): set<PreProposal> {
    set i | 0 <= i < |a.preProposals| :: a.preProposals[i]
  }

  /** The pre-proposals that leave the order out. */
  ghost function Omitting(known: set<PreProposal>, o: StoredOrder, k: Side): set<PreProposal> {
    set p | p in known && o !in OrdersOn(p, k)
  }

  lemma {:induction false} CountsMember(ps: seq<PreProposal>, i: nat, o: StoredOrder, k: Side)
    requires i < |ps| && o in OrdersOn(ps[i], k)
    ensures AllOrders(ps, k)[o] >= 1
  {
    var n := |ps| - 1;
    if i < n {
      CountsMember(ps[..n], i, o, k);
    } else {
      assert multiset(OrdersOn(ps[n], k))[o] >= 1;
    }
  }

  /** An aggregation of `q` distinct pre-proposals, fewer than `q` of which can omit the order, has it. */
  lemma AggregationHasOrder(a: Aggregation, known: set<PreProposal>, o: StoredOrder, k: Side, q: nat)
    requires Members(a) <= known && |Members(a)| >= q && |Omitting(known, o, k)| < q
    ensures AllOrders(a.preProposals, k)[o] >= 1
  {
    if i :| 0 <= i < |a.preProposals| && o in OrdersOn(a.preProposals[i], k) {
      CountsMember(a.preProposals, i, o, k);
    } else {
      assert Members(a) <= Omitting(known, o, k);
      SizeAtMost(Members(a), Omitting(known, o, k));
      assert false;
    }
  }

  lemma {:induction false} InputAtLeast(aggs: set<Aggregation>, o: StoredOrder, k: Side)
    requires forall a :: a in aggs ==> AllOrders(a.preProposals, k)[o] >= 1
    ensures Input(aggs, k)[o] >= |aggs|
    decreases aggs
  {
    hide AllOrders;
    if aggs != {} {
      var a :| a in aggs;
      InputRemove(aggs, a, k);
      InputAtLeast(aggs - {a}, o, k);
    }
  }

  /** The leader holds a quorum of aggregations, each of a quorum of distinct known pre-proposals. */
  ghost predicate QuorumHeld(aggs: set<Aggregation>, known: set<PreProposal>, validators: nat) {
    && |aggs| >= TwoThirds(validators)
    && forall a :: a in aggs ==> Members(a) <= known && |Members(a)| >= TwoThirds(validators)
  }

  /** If the leader holds such a quorum, and fewer than a quorum of the known pre-proposals omit an order,
      limit or searcher, then the solver is given that order exactly once. */
  lemma OrderReachesSolver(
    aggs: set<Aggregation>, known: set<PreProposal>, o: StoredOrder, k: Side, validators: nat, kept: seq<StoredOrder>)
    requires QuorumHeld(aggs, known, validators) && |Omitting(known, o, k)| < TwoThirds(validators)
    requires SolverInput(aggs, validators, k, kept)
    ensures multiset(kept)[o] == 1
  {
    hide AllOrders, Members, Omitting, TwoThirds;
    forall a | a in aggs
      ensures AllOrders(a.preProposals, k)[o] >= 1
    {
      AggregationHasOrder(a, known, o, k, TwoThirds(validators));
    }
    InputAtLeast(aggs, o, k);
    DistinctCounts(kept, o);
  }

  // ----- what is counted

  /** The pre-proposals that list the order. */
  ghost function Listing(ps: seq<PreProposal>, o: StoredOrder, k: Side): set<PreProposal> {
    set p | p in ps && o in OrdersOn(p, k)
  }

  /** The occurrences of an order that count: pairs of an aggregation and a member of it that lists the order. */
  ghost function Carriers(aggs: set<Aggregation>, o: StoredOrder, k: Side): set<(Aggregation, PreProposal)> {
    set a, p | a in aggs && p in Listing(a.preProposals, o, k) :: (a, p)
  }

  /** Nobody lists anything twice. */
  ghost predicate NoRepeats(a: Aggregation, k: Side) {
    Distinct(a.preProposals) && forall p :: p in a.preProposals ==> Distinct(OrdersOn(p, k))
  }

  lemma NoneListing(o: StoredOrder, k: Side)
    ensures Listing([], o, k) == {}
  {
  }

  lemma ListingSnoc(ps: seq<PreProposal>, p: PreProposal, o: StoredOrder, k: Side)
    requires p !in ps
    ensures |Listing(ps + [p], o, k)| == |Listing(ps, o, k)| + if o in OrdersOn(p, k) then 1 else 0
  {
    hide OrdersOn;
    assert Listing(ps + [p], o, k) == Listing(ps, o, k) + if o in OrdersOn(p, k) then {p} else {};
  }

  lemma {:induction false} OccursIn(ps: seq<PreProposal>, o: StoredOrder, k: Side)
    requires Distinct(ps) && forall p :: p in ps ==> Distinct(OrdersOn(p, k))
    ensures AllOrders(ps, k)[o] == |Listing(ps, o, k)|
  {
    hide Listing, OrdersOn;
    if ps == [] {
      NoneListing(o, k);
    } else {
      var n := |ps| - 1;
      OccursIn(ps[..n], o, k);
      DistinctCounts(OrdersOn(ps[n], k), o);
      ListingSnoc(ps[..n], ps[n], o, k);
      assert ps == ps[..n] + [ps[n]];
    }
  }

  lemma {:induction false} PairedSize(a: Aggregation, s: set<PreProposal>)
    ensures |set p | p in s :: (a, p)| == |s|
    decreases s
  {
    if s == {} {
      assert (set p | p in s :: (a, p)) == {};
    } else {
      var x :| x in s;
      PairedSize(a, s - {x});
      assert (set p | p in s :: (a, p)) == (set p | p in s - {x} :: (a, p)) + {(a, x)};
    }
  }

  lemma CarriersRemove(aggs: set<Aggregation>, a: Aggregation, o: StoredOrder, k: Side)
    requires a in aggs
    ensures |Carriers(aggs, o, k)| == |Carriers(aggs - {a}, o, k)| + |Listing(a.preProposals, o, k)|
  {
    hide Listing;
    var mine := Listing(a.preProposals, o, k);
    PairedSize(a, mine);
    assert Carriers(aggs, o, k) == Carriers(aggs - {a}, o, k) + set p | p in mine :: (a, p);
  }

  /** An order counts once per aggregation and member that lists it. */
  lemma {:induction false} InputIsCarriers(aggs: set<Aggregation>, o: StoredOrder, k: Side)
    requires forall a :: a in aggs ==> NoRepeats(a, k)
    ensures Input(aggs, k)[o] == |Carriers(aggs, o, k)|
    decreases aggs
  {
    hide AllOrders, Listing;
    if aggs != {} {
      var a :| a in aggs;
      InputRemove(aggs, a, k);
      InputIsCarriers(aggs - {a}, o, k);
      OccursIn(a.preProposals, o, k);
      CarriersRemove(aggs, a, o, k);
    }
  }

  /** Exactly which orders reach the solver: those carried often enough, each pre-proposal counting once for
      every aggregation that contains it. */
  lemma ReachesSolverIff(aggs: set<Aggregation>, o: StoredOrder, k: Side, validators: nat, kept: seq<StoredOrder>)
    requires SolverInput(aggs, validators, k, kept)
    requires forall a :: a in aggs ==> NoRepeats(a, k)
    ensures o in kept <==> 0 < |Carriers(aggs, o, k)| && 3 * |Carriers(aggs, o, k)| >= 2 * validators
    ensures forall a, p :: (a, p) in Carriers(aggs, o, k) <==>
              a in aggs && p in a.preProposals && o in if k.Limit? then p.limit else p.searcher
  {
    hide NoRepeats, TwoThirds;
    QuorumIff(|Carriers(aggs, o, k)|, validators);
    InputIsCarriers(aggs, o, k);
  }

  /** The same list of pre-proposals, aggregated by the first n validators. */
  ghost function Echoed(height: nat, ps: seq<PreProposal>, n: nat): set<Aggregation> {
    set i | 0 <= i < n :: Aggregation(height, i, ps, true)
  }

  lemma {:induction false} EchoedSize(height: nat, ps: seq<PreProposal>, n: nat)
    ensures |Echoed(height, ps, n)| == n
  {
    if n > 0 {
      EchoedSize(height, ps, n - 1);
      assert Echoed(height, ps, n) == Echoed(height, ps, n - 1) + {Aggregation(height, n - 1, ps, true)};
    }
  }

  /** So one proposer is enough: if a quorum of validators aggregates the same pre-proposals, all valid and
      distinct, an order listed by a single one of them reaches the solver. */
  lemma OneProposerIsEnough(
    height: nat, ps: seq<PreProposal>, p: PreProposal, o: StoredOrder, k: Side, validators: nat, kept: seq<StoredOrder>)
    requires Distinct(ps) && |ps| >= TwoThirds(validators) > 0 && p in ps
    requires forall x :: x in ps ==> ValidPreProposal(x, height) && (o in OrdersOn(x, k) <==> x == p)
    requires SolverInput(Echoed(height, ps, TwoThirds(validators)), validators, k, kept)
    ensures forall a :: a in Echoed(height, ps, TwoThirds(validators)) ==> ValidAggregation(a, height, TwoThirds(validators))
    ensures o in kept
  {
    hide AllOrders, TwoThirds;
    var aggs, i := Echoed(height, ps, TwoThirds(validators)), 0;
    i :| 0 <= i < |ps| && ps[i] == p;
    CountsMember(ps, i, o, k);
    EchoedSize(height, ps, TwoThirds(validators));
    InputAtLeast(aggs, o, k);
  }

  /** Any two quorum aggregations over at most n pre-proposals share at least ceil(n/3) of them. */
  lemma QuorumsIntersect(a: Aggregation, b: Aggregation, known: set<PreProposal>, validators: nat)
    requires Members(a) <= known && Members(b) <= known && |known| <= validators
    requires |Members(a)| >= TwoThirds(validators) && |Members(b)| >= TwoThirds(validators)
    ensures |Members(a) * Members(b)| >= (validators + 2) / 3
  {
    hide Members;
    var x, y := Members(a), Members(b);
    SizeAtMost(x + y, known);
    assert |x + y| + |x * y| == |x| + |y| by {
      assert x + y == x + (y - x);
      assert y == (y - x) + (x * y);
    }
  }

  /** Validity of an aggregation counts list entries, not distinct ones: a single pre-proposal repeated
      often enough makes a valid aggregation with one member. */
  lemma ValidityCountsRepeats(p: PreProposal, source: Address, twoThirds: nat)
    requires ValidPreProposal(p, p.height) && 0 < twoThirds
    ensures var a := Aggregation(p.height, source, seq(twoThirds, _ => p), true);
            ValidAggregation(a, p.height, twoThirds) && Members(a) == {p}
  {
    var a := Aggregation(p.height, source, seq(twoThirds, _ => p), true);
    assert a.preProposals[0] == p;
  }

  // ----- checking a received proposal's solutions

  /** Stable insertion by pool id. */
  function InsertByPool(s: seq<Solution>, x: Solution): seq<Solution> {
    if s == [] then [x]
    else if s[|s| - 1].pool <= x.pool then s + [x]
    else InsertByPool(s[..|s| - 1], x) + [s[|s| - 1]]
  }

  function SortByPool(s: seq<Solution>): seq<Solution> {
    if s == [] then [] else InsertByPool(SortByPool(s[..|s| - 1]), s[|s| - 1])
  }

  ghost predicate SortedByPool(s: seq<Solution>) {
    forall i, j :: 0 <= i < j < |s| ==> s[i].pool <= s[j].pool
  }

  /** The finalization check: sort both copies, then compare pairwise up to the shorter length. */
  method VerifySolutions(proposed: seq<Solution>, computed: seq<Solution>) returns (ok: bool)
    ensures ok <==> Verified(proposed, computed)
  {
    var p, v := SortByPool(proposed), SortByPool(computed);
    var i := 0;
    ok := true;
    while i < |p| && i < |v|
      invariant 0 <= i <= |p| && i <= |v|
      invariant ok <==> forall k :: 0 <= k < i ==> p[k] == v[k]
    {
      ok := ok && p[i] == v[i];
      i := i + 1;
    }
  }

  ghost predicate Verified(proposed: seq<Solution>, computed: seq<Solution>) {
    var p, v := SortByPool(proposed), SortByPool(computed);
    forall k :: 0 <= k < |p| && k < |v| ==> p[k] == v[k]
  }

  lemma PrefixMultiset(s: seq<Solution>)
    requires s != []
    ensures multiset(s) == multiset(s[..|s| - 1]) + multiset{s[|s| - 1]}
  {
    assert s == s[..|s| - 1] + [s[|s| - 1]];
  }

  lemma {:induction false} InsertContents(s: seq<Solution>, x: Solution)
    ensures multiset(InsertByPool(s, x)) == multiset(s) + multiset{x}
  {
    if s != [] && s[|s| - 1].pool > x.pool {
      InsertContents(s[..|s| - 1], x);
      PrefixMultiset(s);
    }
  }

  lemma {:induction false} InsertSorted(s: seq<Solution>, x: Solution)
    requires SortedByPool(s)
    ensures SortedByPool(InsertByPool(s, x))
  {
    if s != [] && s[|s| - 1].pool > x.pool {
      var n := |s| - 1;
      var r := InsertByPool(s[..n], x);
      InsertSorted(s[..n], x);
      InsertContents(s[..n], x);
      forall i | 0 <= i < |r|
        ensures r[i].pool <= s[n].pool
      {
        assert r[i] in multiset(r);
        assert r[i] in s[..n] || r[i] == x;
      }
    }
  }

  lemma {:induction false} SortFacts(s: seq<Solution>)
    ensures SortedByPool(SortByPool(s)) && multiset(SortByPool(s)) == multiset(s) && |SortByPool(s)| == |s|
  {
    if s != [] {
      var n := |s| - 1;
      SortFacts(s[..n]);
      InsertSorted(SortByPool(s[..n]), s[n]);
      InsertContents(SortByPool(s[..n]), s[n]);
      PrefixMultiset(s);
    }
    assert |SortByPool(s)| == |multiset(SortByPool(s))| == |multiset(s)| == |s|;
  }

  /** One solution per pool. */
  ghost predicate OnePerPool(s: seq<Solution>) {
    forall x, y :: x in multiset(s) && y in multiset(s) && x.pool == y.pool ==> x == y && multiset(s)[x] == 1
  }

  ghost predicate StrictByPool(s: seq<Solution>) {
    forall i, j :: 0 <= i < j < |s| ==> s[i].pool < s[j].pool
  }

  lemma SortedIsStrict(s: seq<Solution>)
    requires SortedByPool(s) && OnePerPool(s)
    ensures StrictByPool(s)
  {
    forall i, j | 0 <= i < j < |s|
      ensures s[i].pool != s[j].pool
    {
      assert s == s[..j] + [s[j]] + s[j + 1..];
      assert s[i] in s[..j];
      assert multiset(s)[s[j]] >= multiset(s[..j])[s[j]] + 1;
    }
  }

  /** Strictly sorted lists are determined by their contents. */
  lemma {:induction false} SortedUnique(s: seq<Solution>, t: seq<Solution>)
    requires StrictByPool(s) && SortedByPool(t) && multiset(s) == multiset(t)
    ensures s == t
  {
    assert |s| == |multiset(s)| == |multiset(t)| == |t|;
    if s != [] {
      var n := |s| - 1;
      LastAgrees(s, t);
      PrefixMultiset(s);
      PrefixMultiset(t);
      CancelOne(multiset(s[..n]), multiset(t[..n]), s[n]);
      SortedUnique(s[..n], t[..n]);
      assert s == s[..n] + [s[n]] && t == t[..n] + [t[n]];
    }
  }

  lemma CancelOne(a: multiset<Solution>, b: multiset<Solution>, x: Solution)
    requires a + multiset{x} == b + multiset{x}
    ensures a == b
  {
    assert a == a + multiset{x} - multiset{x};
    assert b == b + multiset{x} - multiset{x};
  }

  lemma LastAgrees(s: seq<Solution>, t: seq<Solution>)
    requires StrictByPool(s) && SortedByPool(t) && multiset(s) == multiset(t) && |s| == |t| > 0
    ensures s[|s| - 1] == t[|t| - 1]
  {
    var n := |s| - 1;
    assert s[n] in multiset(t) && t[n] in multiset(s);
    var i :| 0 <= i < |t| && t[i] == s[n];
    var j :| 0 <= j < |s| && s[j] == t[n];
    assert s[n].pool <= t[n].pool;
  }

  /** With equal lengths the check accepts exactly the same solutions in any order. */
  lemma VerifiedIffSame(proposed: seq<Solution>, computed: seq<Solution>)
    requires OnePerPool(computed)
    ensures Verified(proposed, computed) && |proposed| == |computed| <==> multiset(proposed) == multiset(computed)
  {
    hide SortByPool, OnePerPool;
    var p, v := SortByPool(proposed), SortByPool(computed);
    SortFacts(proposed);
    SortFacts(computed);
    if multiset(proposed) == multiset(computed) {
      assert |proposed| == |multiset(proposed)| == |computed|;
      SameOnePerPool(computed, v);
      SortedIsStrict(v);
      SortedUnique(v, p);
    }
    if Verified(proposed, computed) && |p| == |v| {
      assert p == v;
    }
  }

  lemma SameOnePerPool(s: seq<Solution>, t: seq<Solution>)
    requires OnePerPool(s) && multiset(s) == multiset(t)
    ensures OnePerPool(t)
  {
  }

  /** The pairing stops at the shorter list. A proposal with fewer solutions than were computed passes if
      and only if it consists of the computed ones with the lowest pool ids; an empty one always does. */
  lemma ShorterPassesIff(proposed: seq<Solution>, computed: seq<Solution>)
    requires OnePerPool(computed) && |proposed| <= |computed|
    ensures |SortByPool(computed)| == |computed|
    ensures Verified(proposed, computed) <==>
            multiset(proposed) == multiset(SortByPool(computed)[..|proposed|])
  {
    hide SortByPool, OnePerPool;
    var p, v := SortByPool(proposed), SortByPool(computed);
    SortFacts(proposed);
    SortFacts(computed);
    SameOnePerPool(computed, v);
    SortedIsStrict(v);
    var low := v[..|proposed|];
    if multiset(proposed) == multiset(low) {
      SortedUnique(low, p);
    }
    if Verified(proposed, computed) {
      assert p == low;
    }
  }

  /** The pairing stops at the end of the computed list too: a proposal with more solutions passes if and
      only if the computed ones are its own with the lowest pool ids, whatever the others are. */
  lemma LongerPassesIff(proposed: seq<Solution>, computed: seq<Solution>)
    requires OnePerPool(computed) && |computed| <= |proposed|
    ensures |SortByPool(proposed)| == |proposed|
    ensures Verified(proposed, computed) <==>
            multiset(computed) == multiset(SortByPool(proposed)[..|computed|])
  {
    hide SortByPool, OnePerPool;
    var p, v := SortByPool(proposed), SortByPool(computed);
    SortFacts(proposed);
    SortFacts(computed);
    SameOnePerPool(computed, v);
    SortedIsStrict(v);
    var low := p[..|computed|];
    if multiset(computed) == multiset(low) {
      SortedUnique(v, low);
    }
    if Verified(proposed, computed) {
      assert v == low;
    }
  }

  /** So any solution for a pool above all the computed ones can be added to a proposal that passes. */
  lemma ExtraSolutionPasses(computed: seq<Solution>, x: Solution)
    requires OnePerPool(computed) && forall y :: y in computed ==> y.pool < x.pool
    ensures Verified(computed + [x], computed)
  {
    hide OnePerPool;
    var s := computed + [x];
    assert s[..|s| - 1] == computed;
    SortFacts(computed);
    assert SortByPool(s) == SortByPool(computed) + [x] by {
      var v := SortByPool(computed);
      if v != [] {
        assert v[|v| - 1] in multiset(v);
        assert v[|v| - 1] in multiset(computed);
      }
    }
  }
}
