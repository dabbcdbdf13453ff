/**
 The bounded cache of order hashes kept per peer, and the gossip that relies on it: an order is sent
 to a peer only if its hash is not cached, and every hash sent to or received from the peer is cached.
 */
module PeerCache {
  import opened Sequences

  type Hash = nat
  type PeerId = nat

  /** Entries remembered per peer. */
  const PEER_ORDER_CACHE_LIMIT: nat := 1024 * 10

  function Without(s: seq<Hash>, x: Hash): seq<Hash> {
    if s == [] then []
    else if s[|s| - 1] == x then Without(s[..|s| - 1], x)
    else Without(s[..|s| - 1], x) + [s[|s| - 1]]
  }

  /** A linked hash set moves an entry to the back when it is inserted again. */
  function Touched(s: seq<Hash>, x: Hash): seq<Hash> {
    Without(s, x) + [x]
  }

  /** `insert`: a new entry that fills the cache up to its limit pushes the oldest one out. */
  function Inserted(limit: nat, s: seq<Hash>, x: Hash): seq<Hash> {
    if x in s then Touched(s, x)
    else if |s| + 1 == limit then (s + [x])[1..]
    else s + [x]
  }

  class LruCache {
    const limit: nat
    var inner: seq<Hash>

    constructor (limit: nat)
      requires 0 < limit
      ensures this.limit == limit && inner == []
    {
      this.limit, inner := limit, [];
    }

    method Insert(x: Hash) returns (fresh': bool)
      modifies this
      ensures inner == Inserted(limit, old(inner), x) && fresh' == (x !in old(inner))
    {
      if x in inner {
        inner := Without(inner, x) + [x];
        return false;
      }
      inner := inner + [x];
      if limit == |inner| {
        inner := inner[1..];
      }
      fresh' := true;
    }
  }

  /** Cache contents after the recordings `xs`. */
  function Cached(limit: nat, xs: seq<Hash>): seq<Hash> {
    if xs == [] then [] else Inserted(limit, Cached(limit, xs[..|xs| - 1]), xs[|xs| - 1])
  }

  /** The simple form: the distinct recordings, ordered by their last occurrence. */
  function Recency(xs: seq<Hash>): seq<Hash> {
    if xs == [] then [] else Touched(Recency(xs[..|xs| - 1]), xs[|xs| - 1])
  }

  lemma {:induction false} WithoutAbsent(s: seq<Hash>, x: Hash)
    requires x !in s
    ensures Without(s, x) == s
  {
    if s != [] {
      WithoutAbsent(s[..|s| - 1], x);
      assert s == s[..|s| - 1] + [s[|s| - 1]];
    }
  }

  /** Removing the single occurrence at index k. */
  lemma {:induction false} WithoutAt(s: seq<Hash>, k: nat)
    requires Distinct(s) && k < |s|
    ensures Without(s, s[k]) == s[..k] + s[k + 1..]
  {
    var n, x := |s| - 1, s[k];
    var init := s[..n];
    if k == n {
      WithoutAbsent(init, x);
      assert s[..k] + s[k + 1..] == init;
    } else {
      WithoutAt(init, k);
      assert s[..k] + s[k + 1..] == init[..k] + init[k + 1..] + [s[n]];
    }
  }

  lemma TouchedDistinct(s: seq<Hash>, x: Hash)
    requires Distinct(s)
    ensures Distinct(Touched(s, x))
  {
    hide Without;
    if x in s {
      var k :| 0 <= k < |s| && s[k] == x;
      WithoutAt(s, k);
      assert forall i :: 0 <= i < |s| - 1 ==> Without(s, x)[i] == s[if i < k then i else i + 1];
    } else {
      WithoutAbsent(s, x);
    }
  }

  lemma {:induction false} RecencyDistinct(xs: seq<Hash>)
    ensures Distinct(Recency(xs))
  {
    if xs != [] {
      RecencyDistinct(xs[..|xs| - 1]);
      TouchedDistinct(Recency(xs[..|xs| - 1]), xs[|xs| - 1]);
    }
  }

  /** `c` is what a cache of this limit keeps of the recency list `r`: its last limit-1 entries. */
  ghost predicate Keeps(limit: nat, r: seq<Hash>, c: seq<Hash>) {
    && 0 < limit && |c| <= |r| && c == r[|r| - |c|..]
    && |c| <= limit - 1 && (|c| < |r| ==> |c| == limit - 1)
  }

  lemma InsertCached(limit: nat, r: seq<Hash>, c: seq<Hash>, i: nat)
    requires Keeps(limit, r, c) && Distinct(r) && |r| - |c| <= i < |r|
    ensures Keeps(limit, Touched(r, r[i]), Inserted(limit, c, r[i]))
  {
    hide Without;
    var k, x := |r| - |c|, r[i];
    WithoutAt(r, i);
    assert c[i - k] == x;
    WithoutAt(c, i - k);
    assert r[..i][k..] == c[..i - k] && r[i + 1..] == c[i - k + 1..];
    assert Touched(r, x)[k..] == Touched(c, x);
  }

  lemma InsertForgotten(limit: nat, r: seq<Hash>, c: seq<Hash>, i: nat)
    requires Keeps(limit, r, c) && Distinct(r) && i < |r| - |c|
    ensures Keeps(limit, Touched(r, r[i]), Inserted(limit, c, r[i]))
  {
    hide Without;
    var k, x := |r| - |c|, r[i];
    WithoutAt(r, i);
    assert forall j :: 0 <= j < |c| ==> c[j] == r[k + j];
    assert x !in c;
    assert r[i + 1..][k - i - 1..] == c;
    assert Touched(r, x)[k..] == (c + [x])[1..];
  }

  lemma InsertNew(limit: nat, r: seq<Hash>, c: seq<Hash>, x: Hash)
    requires Keeps(limit, r, c) && x !in r
    ensures Keeps(limit, Touched(r, x), Inserted(limit, c, x))
  {
    hide Without;
    var k := |r| - |c|;
    WithoutAbsent(r, x);
    assert x !in c;
    assert (r + [x])[k..] == c + [x];
    assert (r + [x])[k + 1..] == (c + [x])[1..];
  }

  lemma InsertKeeps(limit: nat, r: seq<Hash>, c: seq<Hash>, x: Hash)
    requires Keeps(limit, r, c) && Distinct(r)
    ensures Keeps(limit, Touched(r, x), Inserted(limit, c, x))
  {
    if x in r {
      hide *;
      var i :| 0 <= i < |r| && r[i] == x;
      if i >= |r| - |c| {
        InsertCached(limit, r, c, i);
      } else {
        InsertForgotten(limit, r, c, i);
      }
    } else {
      hide *;
      InsertNew(limit, r, c, x);
    }
  }

  /** The cache refines the recency list: it is always its last limit-1 entries, so it never holds
      limit entries. */
  lemma {:induction false} CacheIsRecent(limit: nat, xs: seq<Hash>)
    requires 0 < limit
    ensures Keeps(limit, Recency(xs), Cached(limit, xs))
    ensures |Cached(limit, xs)| < limit
  {
    if xs != [] {
      var init := xs[..|xs| - 1];
      CacheIsRecent(limit, init);
      RecencyDistinct(init);
      InsertKeeps(limit, Recency(init), Cached(limit, init), xs[|xs| - 1]);
    }
  }

  /** The distinct hashes other than `h` recorded in xs[i..]. */
  ghost function Others(xs: seq<Hash>, i: nat, h: Hash): set<Hash>
    requires i <= |xs|
  {
    set k | i <= k < |xs| && xs[k] != h :: xs[k]
  }

  /** Touching another entry leaves behind `h` only what was there before, and that entry. */
  lemma TouchBehind(r: seq<Hash>, p: nat, x: Hash) returns (q: nat)
    requires Distinct(r) && p < |r| && r[p] != x
    ensures q < |Touched(r, x)| && Touched(r, x)[q] == r[p]
    ensures forall k :: q < k < |Touched(r, x)| ==> Touched(r, x)[k] == x || Touched(r, x)[k] in r[p + 1..]
  {
    hide Without;
    if x in r {
      var j :| 0 <= j < |r| && r[j] == x;
      WithoutAt(r, j);
      q := if j < p then p - 1 else p;
    } else {
      WithoutAbsent(r, x);
      q := p;
    }
  }

  /** Once `h` was recorded before index i, what follows it in the recency list was recorded since. */
  lemma {:induction false} BehindRecorded(xs: seq<Hash>, i: nat, h: Hash) returns (q: nat)
    requires 0 < i <= |xs| && xs[i - 1] == h
    ensures q < |Recency(xs)| && Recency(xs)[q] == h
    ensures forall k :: q < k < |Recency(xs)| ==> Recency(xs)[k] in Others(xs, i, h)
  {
    hide Without, Others;
    var n := |xs| - 1;
    if i == |xs| || xs[n] == h {
      q := |Recency(xs)| - 1;
    } else {
      var p := BehindRecorded(xs[..n], i, h);
      RecencyDistinct(xs[..n]);
      OthersGrow(xs, i, h);
      q := TouchBehind(Recency(xs[..n]), p, xs[n]);
    }
  }

  lemma OthersGrow(xs: seq<Hash>, i: nat, h: Hash)
    requires i < |xs| && xs[|xs| - 1] != h
    ensures Others(xs[..|xs| - 1], i, h) <= Others(xs, i, h) && xs[|xs| - 1] in Others(xs, i, h)
  {
    var init := xs[..|xs| - 1];
    assert forall k :: i <= k < |init| ==> init[k] == xs[k];
  }

  lemma {:induction false} DistinctCount(s: seq<Hash>, u: set<Hash>)
    requires Distinct(s) && forall k :: 0 <= k < |s| ==> s[k] in u
    ensures |s| <= |u|
  {
    if s != [] {
      var n := |s| - 1;
      DistinctCount(s[..n], u - {s[n]});
    }
  }

  /** A hash recorded at i-1 drops out of the cache only after limit-1 other distinct hashes. */
  lemma ForgottenLate(limit: nat, xs: seq<Hash>, i: nat, h: Hash)
    requires 0 < limit && 0 < i <= |xs| && xs[i - 1] == h && h !in Cached(limit, xs)
    ensures |Others(xs, i, h)| >= limit - 1
  {
    var r, c := Recency(xs), Cached(limit, xs);
    CacheIsRecent(limit, xs);
    RecencyDistinct(xs);
    var q := BehindRecorded(xs, i, h);
    var k := |r| - |c|;
    assert forall j :: k <= j < |r| ==> r[j] in r[k..];
    var behind := r[q + 1..];
    assert forall j :: 0 <= j < |behind| ==> behind[j] == r[q + 1 + j];
    DistinctCount(behind, Others(xs, i, h));
  }

  // ----- gossip to peers

  /** What happened between us and a peer: hashes we sent it and hashes it sent us. */
  datatype Record = Sent(hash: Hash) | Got(hash: Hash)

  /** A peer's cache and the traffic of the current session. */
  datatype Peer = Peer(orders: seq<Hash>, traffic: seq<Record>)

  function Hashes(traffic: seq<Record>): (xs: seq<Hash>)
    ensures |xs| == |traffic| && forall i :: 0 <= i < |xs| ==> xs[i] == traffic[i].hash
  {
    seq(|traffic|, i requires 0 <= i < |traffic| => traffic[i].hash)
  }

  function Noted(p: Peer, r: Record): Peer {
    Peer(Inserted(PEER_ORDER_CACHE_LIMIT, p.orders, r.hash), p.traffic + [r])
  }

  /** Send unless cached, and cache what was sent. */
  function Offered(p: Peer, h: Hash): Peer {
    if h in p.orders then p else Noted(p, Sent(h))
  }

  function OfferedAll(p: Peer, hs: seq<Hash>): Peer {
    if hs == [] then p else Offered(OfferedAll(p, hs[..|hs| - 1]), hs[|hs| - 1])
  }

  /** The cache reflects the traffic, and nothing was sent while it was cached. */
  ghost predicate Honest(p: Peer) {
    && p.orders == Cached(PEER_ORDER_CACHE_LIMIT, Hashes(p.traffic))
    && forall i :: 0 <= i < |p.traffic| && p.traffic[i].Sent? ==>
         p.traffic[i].hash !in Cached(PEER_ORDER_CACHE_LIMIT, Hashes(p.traffic[..i]))
  }

  lemma NotedHonest(p: Peer, r: Record)
    requires Honest(p) && (r.Sent? ==> r.hash !in p.orders)
    ensures Honest(Noted(p, r))
  {
    var t := p.traffic + [r];
    assert t[..|p.traffic|] == p.traffic;
    assert Hashes(t)[..|p.traffic|] == Hashes(p.traffic);
    forall i | 0 <= i < |t| && t[i].Sent?
      ensures t[i].hash !in Cached(PEER_ORDER_CACHE_LIMIT, Hashes(t[..i]))
    {
      assert i < |p.traffic| ==> t[..i] == p.traffic[..i];
    }
  }

  lemma {:induction false} OfferedHonest(p: Peer, hs: seq<Hash>)
    requires Honest(p)
    ensures Honest(OfferedAll(p, hs))
  {
    if hs != [] {
      OfferedHonest(p, hs[..|hs| - 1]);
      var q, h := OfferedAll(p, hs[..|hs| - 1]), hs[|hs| - 1];
      if h !in q.orders {
        NotedHonest(q, Sent(h));
      }
    }
  }

  /** Within a session an order that was sent to the peer, or came from it, is sent to it again only after
      10239 other distinct hashes. */
  lemma NoEarlyResend(p: Peer, i: nat, j: nat)
    requires Honest(p) && i < j < |p.traffic|
    requires p.traffic[j].Sent? && p.traffic[i].hash == p.traffic[j].hash
    ensures |Others(Hashes(p.traffic[..j]), i + 1, p.traffic[i].hash)| >= 10239
  {
    ForgottenLate(PEER_ORDER_CACHE_LIMIT, Hashes(p.traffic[..j]), i + 1, p.traffic[i].hash);
  }

  // ----- what a broadcast sends

  function Sends(hs: seq<Hash>): (rs: seq<Record>)
    ensures |rs| == |hs| && forall i :: 0 <= i < |hs| ==> rs[i] == Sent(hs[i])
  {
    seq(|hs|, i requires 0 <= i < |hs| => Sent(hs[i]))
  }

  /** The hashes of `hs` that are not in `known`, in order. */
  function Missing(hs: seq<Hash>, known: seq<Hash>): seq<Hash> {
    if hs == [] then []
    else
      var init, h := hs[..|hs| - 1], hs[|hs| - 1];
      if h in known then Missing(init, known) else Missing(init, known) + [h]
  }

  lemma {:induction false} MissingIff(hs: seq<Hash>, known: seq<Hash>, h: Hash)
    ensures h in Missing(hs, known) <==> h in hs && h !in known
    ensures |Missing(hs, known)| <= |hs|
  {
    if hs != [] {
      assert hs == hs[..|hs| - 1] + [hs[|hs| - 1]];
      MissingIff(hs[..|hs| - 1], known, h);
    }
  }

  lemma {:induction false} WithoutContents(s: seq<Hash>, x: Hash, y: Hash)
    ensures y in Without(s, x) <==> y in s && y != x
    ensures |Without(s, x)| <= |s| && (x in s ==> |Without(s, x)| < |s|)
  {
    if s != [] {
      assert s == s[..|s| - 1] + [s[|s| - 1]];
      WithoutContents(s[..|s| - 1], x, y);
    }
  }

  /** An insertion caches its entry and brings in nothing else; below the limit it drops nothing either. */
  lemma InsertedContents(limit: nat, s: seq<Hash>, x: Hash, y: Hash)
    requires |s| < limit && 1 < limit
    ensures y in Inserted(limit, s, x) ==> y in s || y == x
    ensures x in Inserted(limit, s, x)
    ensures |s| + 1 < limit ==> (y in Inserted(limit, s, x) <==> y in s || y == x)
    ensures |Inserted(limit, s, x)| < limit && |Inserted(limit, s, x)| <= |s| + 1
  {
    WithoutContents(s, x, y);
    assert forall i :: 0 <= i < |s| ==> (s + [x])[i] == s[i];
    assert (s + [x])[|s|] == x;
    if |s| + 1 == limit && x !in s {
      assert (s + [x])[1..][|s| - 1] == x;
      assert y in (s + [x])[1..] ==> y in s + [x];
    }
  }

  /** What the traffic of a broadcast looks like: it goes on with orders sent, and all of `hs` is in it. */
  lemma {:induction false} BroadcastReaches(p: Peer, hs: seq<Hash>)
    requires Honest(p)
    ensures var q := OfferedAll(p, hs);
            && p.traffic <= q.traffic
            && (forall i :: |p.traffic| <= i < |q.traffic| ==> q.traffic[i].Sent? && q.traffic[i].hash in hs)
            && forall h :: h in hs ==> h in Hashes(q.traffic)
  {
    if hs != [] {
      var init, h := hs[..|hs| - 1], hs[|hs| - 1];
      assert hs == init + [h];
      BroadcastReaches(p, init);
      OfferedHonest(p, init);
      var r, q := OfferedAll(p, init), OfferedAll(p, hs);
      assert forall x :: x in Hashes(r.traffic) ==> x in Hashes(q.traffic) by { HashesGrow(r.traffic, q.traffic); }
      if h in r.orders {
        CachedWasRecorded(PEER_ORDER_CACHE_LIMIT, Hashes(r.traffic), h);
      } else {
        assert Hashes(q.traffic)[|r.traffic|] == h;
      }
    }
  }

  lemma HashesGrow(a: seq<Record>, b: seq<Record>)
    requires a <= b
    ensures forall x :: x in Hashes(a) ==> x in Hashes(b)
  {
    forall x | x in Hashes(a)
      ensures x in Hashes(b)
    {
      var i :| 0 <= i < |a| && Hashes(a)[i] == x;
      assert Hashes(b)[i] == x;
    }
  }

  lemma {:induction false} CachedWasRecorded(limit: nat, xs: seq<Hash>, h: Hash)
    requires 1 < limit
    ensures h in Cached(limit, xs) ==> h in xs
    ensures |Cached(limit, xs)| < limit
  {
    if xs != [] {
      var init, x := xs[..|xs| - 1], xs[|xs| - 1];
      assert xs == init + [x];
      CachedWasRecorded(limit, init, h);
      InsertedContents(limit, Cached(limit, init), x, h);
    }
  }

  /** A broadcast of distinct orders sends each of them at most once, and every order the peer had no record
      of exactly once. If the cache has room for all of them, it sends exactly these, in order. */
  lemma {:induction false} BroadcastSends(p: Peer, hs: seq<Hash>) returns (sent: seq<Hash>)
    requires Distinct(hs) && |p.orders| < PEER_ORDER_CACHE_LIMIT
    ensures OfferedAll(p, hs).traffic == p.traffic + Sends(sent)
    ensures Distinct(sent) && forall h :: h in sent ==> h in hs
    ensures forall h :: h in hs && h !in p.orders ==> h in sent
    ensures |p.orders| + |hs| < PEER_ORDER_CACHE_LIMIT ==> sent == Missing(hs, p.orders)
    ensures forall h :: h in OfferedAll(p, hs).orders ==> h in p.orders || h in hs
    ensures |OfferedAll(p, hs).orders| < PEER_ORDER_CACHE_LIMIT
    ensures |OfferedAll(p, hs).orders| <= |p.orders| + |hs|
    ensures |p.orders| + |hs| < PEER_ORDER_CACHE_LIMIT ==> forall h :: h in p.orders ==> h in OfferedAll(p, hs).orders
  {
    if hs == [] {
      sent := [];
      assert p.traffic + Sends(sent) == p.traffic;
    } else {
      var init, h := hs[..|hs| - 1], hs[|hs| - 1];
      assert hs == init + [h] && h !in init;
      var before := BroadcastSends(p, init);
      var r := OfferedAll(p, init);
      sent := if h in r.orders then before else before + [h];
      assert Sends(before + [h]) == Sends(before) + [Sent(h)];
      assert p.traffic + Sends(before) + [Sent(h)] == p.traffic + (Sends(before) + [Sent(h)]);
      forall x
        ensures x in Inserted(PEER_ORDER_CACHE_LIMIT, r.orders, h) ==> x in r.orders || x == h
        ensures |r.orders| + 1 < PEER_ORDER_CACHE_LIMIT && x in r.orders ==> x in Inserted(PEER_ORDER_CACHE_LIMIT, r.orders, h)
        ensures |Inserted(PEER_ORDER_CACHE_LIMIT, r.orders, h)| < PEER_ORDER_CACHE_LIMIT
        ensures |Inserted(PEER_ORDER_CACHE_LIMIT, r.orders, h)| <= |r.orders| + 1
      {
        InsertedContents(PEER_ORDER_CACHE_LIMIT, r.orders, h, x);
      }
    }
  }

  /** An order that came from the peer is recorded, and a broadcast of it sends the peer nothing. */
  lemma NoEcho(p: Peer, h: Hash)
    requires |p.orders| < PEER_ORDER_CACHE_LIMIT
    ensures var q := Noted(p, Got(h)); q.traffic == p.traffic + [Got(h)] && OfferedAll(q, [h]) == q
  {
    var q := Noted(p, Got(h));
    InsertedContents(PEER_ORDER_CACHE_LIMIT, p.orders, h, h);
    assert [h][..0] == [] && OfferedAll(q, []) == q;
  }

  /** The gossip part of the pool manager. */
  class PeerTable {
    var peers: map<PeerId, Peer>

    ghost predicate Valid() reads this { forall id :: id in peers ==> Honest(peers[id]) }

    constructor ()
      ensures Valid() && peers == map[]
    {
      peers := map[];
    }

    method OnSessionEstablished(id: PeerId, allOrders: seq<Hash>)
      requires Valid()
      modifies this
      ensures Valid()
      ensures peers == map q | q in old(peers).Keys + {id} ::
                OfferedAll(if q == id then Peer([], []) else old(peers)[q], allOrders)
    {
      peers := peers[id := Peer([], [])];
      BroadcastOrders(allOrders);
    }

    method OnSessionClosed(id: PeerId)
      requires Valid()
      modifies this
      ensures Valid() && peers == old(peers) - {id}
    {
      peers := peers - {id};
    }

    method OnIncomingOrder(id: PeerId, h: Hash)
      requires Valid()
      modifies this
      ensures Valid()
      ensures peers == if id in old(peers) then old(peers)[id := Noted(old(peers)[id], Got(h))] else old(peers)
    {
      if id in peers {
        NotedHonest(peers[id], Got(h));
        peers := peers[id := Noted(peers[id], Got(h))];
      }
    }

    /** Each order in turn is offered to every peer, the peers in any order. */
    method BroadcastOrders(hs: seq<Hash>)
      requires Valid()
      modifies this
      ensures Valid()
      ensures peers == map id | id in old(peers) :: OfferedAll(old(peers)[id], hs)
    {
      ghost var before := peers;
      var i := 0;
      while i < |hs|
        invariant 0 <= i <= |hs| && peers.Keys == before.Keys
        invariant forall id :: id in before ==> peers[id] == OfferedAll(before[id], hs[..i])
      {
        assert hs[..i + 1][..i] == hs[..i];
        var rest := peers.Keys;
        while rest != {}
          invariant rest <= peers.Keys == before.Keys
          invariant forall id :: id in before ==>
                      peers[id] == if id in rest then OfferedAll(before[id], hs[..i]) else OfferedAll(before[id], hs[..i + 1])
          decreases rest
        {
          var id :| id in rest;
          if hs[i] !in peers[id].orders {
            peers := peers[id := Noted(peers[id], Sent(hs[i]))];
          }
          rest := rest - {id};
        }
        i := i + 1;
      }
      assert hs[..i] == hs;
      forall id | id in before
        ensures Honest(peers[id])
      {
        OfferedHonest(before[id], hs);
      }
    }
  }
}
