/**
 The stores of accepted orders. A pending pool keeps its orders by hash and, beside them, one entry per
 level: side, price, volume and the gas that validation charged. Two pending orders at one level share
 that entry. Removing an order takes the shared entry away too, and a removal that finds no entry reports
 that there was no such order although the order is gone.
 */
module OrderStores {
  import opened Orders
  import opened Sequences

  /** `pending` spans the pending pools of all kinds and says at which level each order was put in,
      `levels` are the entries of their books, and `parked` holds standard limit orders that are not
      executable for now. */
  datatype Storage = Storage(pending: map<Order, Level>, levels: set<Level>, parked: set<Order>)

  const EMPTY_STORE := Storage(map[], {}, {})

  function Stored(s: Storage): set<Order> {
    s.pending.Keys + s.parked
  }

  /** An order put in again at another level leaves the entry of the old level behind. */
  function Add(s: Storage, o: Order, g: Gas, executable: bool): Storage {
    if o.quote.kind.Vanilla? && !executable then s.(parked := s.parked + {o})
    else
      var l := Level(o.quote, g);
      Storage(s.pending[o := l], s.levels + {l}, s.parked)
  }

  /** `PendingPool::remove_order`: the order is reported only if its level still had an entry. */
  function RemovePending(s: Storage, o: Order): (Storage, bool) {
    if o in s.pending then (Storage(s.pending - {o}, s.levels - {s.pending[o]}, s.parked), s.pending[o] in s.levels)
    else (s, false)
  }

  /** Pending first, and parked only if that reported nothing. */
  function Remove(s: Storage, o: Order): (Storage, bool) {
    var (s1, found) := RemovePending(s, o);
    if found then (s1, true) else (s1.(parked := s1.parked - {o}), o in s1.parked)
  }

  /** `remove_parked_order` also looks among the composable orders. */
  function RemoveParked(s: Storage, o: Order): (Storage, bool) {
    if o in s.parked then (s.(parked := s.parked - {o}), true)
    else if o.quote.kind.Composable? then RemovePending(s, o)
    else (s, false)
  }

  /** Only standard limit orders can be parked; an order that is not reported is not put back. */
  function Park(s: Storage, o: Order): Storage {
    if !o.quote.kind.Vanilla? then s
    else
      var (s1, found) := Remove(s, o);
      if found then s1.(parked := s1.parked + {o}) else s1
  }

  function RemoveInvalid(s: Storage, o: Order): Storage {
    var s1 := RemovePending(s, o).0;
    s1.(parked := s1.parked - {o})
  }

  /** Nothing is both pending and parked. */
  ghost predicate Disjoint(s: Storage) {
    s.pending.Keys !! s.parked
  }

  /** Moreover pending orders sit on levels of their own. */
  ghost predicate Sound(s: Storage) {
    && Disjoint(s)
    && (forall o :: o in s.pending ==> s.pending[o] in s.levels)
    && (forall o, p :: o in s.pending && p in s.pending && s.pending[o] == s.pending[p] ==> o == p)
  }

  /** The order is not in the other half of the store than the one it would be added to. */
  ghost predicate OneHalf(s: Storage, o: Order, executable: bool) {
    if o.quote.kind.Vanilla? && !executable then o !in s.pending else o !in s.parked
  }

  /** If it is to be pending, no other pending order is on its level. */
  ghost predicate OwnLevel(s: Storage, o: Order, g: Gas, executable: bool) {
    (o.quote.kind.Vanilla? && !executable) || forall p :: p in s.pending && s.pending[p] == Level(o.quote, g) ==> p == o
  }

  lemma AddDisjointIff(s: Storage, o: Order, g: Gas, executable: bool)
    requires Disjoint(s)
    ensures Disjoint(Add(s, o, g, executable)) <==> OneHalf(s, o, executable)
    ensures Stored(Add(s, o, g, executable)) == Stored(s) + {o}
  {
    var t := Add(s, o, g, executable);
    assert o in if o.quote.kind.Vanilla? && !executable then t.parked else t.pending.Keys;
  }

  lemma AddSoundIff(s: Storage, o: Order, g: Gas, executable: bool)
    requires Sound(s)
    ensures Sound(Add(s, o, g, executable)) <==> OneHalf(s, o, executable) && OwnLevel(s, o, g, executable)
  {
    AddDisjointIff(s, o, g, executable);
    var t := Add(s, o, g, executable);
    if !OwnLevel(s, o, g, executable) {
      var p :| p in s.pending && s.pending[p] == Level(o.quote, g) && p != o;
      assert o in t.pending && p in t.pending;
    }
  }

  lemma RemoveDisjoint(s: Storage, o: Order)
    requires Disjoint(s)
    ensures Disjoint(Remove(s, o).0) && Stored(Remove(s, o).0) == Stored(s) - {o}
    ensures Remove(s, o).1 ==> o in Stored(s)
  {
  }

  lemma RemoveParkedDisjoint(s: Storage, o: Order)
    requires Disjoint(s)
    ensures Disjoint(RemoveParked(s, o).0) && Stored(RemoveParked(s, o).0) <= Stored(s)
    ensures RemoveParked(s, o).1 ==> o in Stored(s) && Stored(RemoveParked(s, o).0) == Stored(s) - {o}
  {
  }

  lemma ParkDisjoint(s: Storage, o: Order)
    requires Disjoint(s)
    ensures Disjoint(Park(s, o)) && Stored(Park(s, o)) <= Stored(s)
  {
  }

  lemma RemoveInvalidDisjoint(s: Storage, o: Order)
    requires Disjoint(s)
    ensures Disjoint(RemoveInvalid(s, o)) && Stored(RemoveInvalid(s, o)) == Stored(s) - {o}
  {
  }

  lemma RemoveSound(s: Storage, o: Order)
    requires Sound(s)
    ensures Sound(Remove(s, o).0) && Stored(Remove(s, o).0) == Stored(s) - {o}
    ensures Remove(s, o).1 == (o in Stored(s))
  {
  }

  lemma RemoveParkedSound(s: Storage, o: Order)
    requires Sound(s)
    ensures Sound(RemoveParked(s, o).0)
    ensures Stored(RemoveParked(s, o).0) == if RemoveParked(s, o).1 then Stored(s) - {o} else Stored(s)
    ensures RemoveParked(s, o).1 == (o in s.parked || (o in s.pending && o.quote.kind.Composable?))
  {
  }

  lemma ParkSound(s: Storage, o: Order)
    requires Sound(s)
    ensures Sound(Park(s, o)) && Stored(Park(s, o)) == Stored(s)
  {
  }

  lemma RemoveInvalidSound(s: Storage, o: Order)
    requires Sound(s)
    ensures Sound(RemoveInvalid(s, o)) && Stored(RemoveInvalid(s, o)) == Stored(s) - {o}
  {
  }

  /** Both pending, with its entry in the book, and parked. */
  predicate TwoCopies(s: Storage, o: Order) {
    o in s.pending && s.pending[o] in s.levels && o in s.parked
  }

  /** Whatever the store: exactly when an order is reported, and what is left of it then. */
  lemma RemoveEffect(s: Storage, o: Order)
    ensures o !in Remove(s, o).0.pending
    ensures o in Remove(s, o).0.parked <==> TwoCopies(s, o)
    ensures TwoCopies(s, o) ==> Remove(s, o).1
  {
  }

  // ----- handling many orders in turn

  function RemoveParkedEach(s: Storage, q: seq<Order>): (Storage, seq<Order>)
    decreases q
  {
    if q == [] then (s, [])
    else
      var (s1, found) := RemoveParkedEach(s, q[..|q| - 1]);
      var o := q[|q| - 1];
      var (s2, hit) := RemoveParked(s1, o);
      (s2, if hit then found + [o] else found)
  }

  lemma {:induction false} RemoveParkedEachDisjoint(s: Storage, q: seq<Order>)
    requires Disjoint(s)
    ensures Disjoint(RemoveParkedEach(s, q).0) && Stored(RemoveParkedEach(s, q).0) <= Stored(s)
    ensures Sound(s) ==> Sound(RemoveParkedEach(s, q).0)
    decreases q
  {
    hide Disjoint, Sound, RemoveParked;
    if q != [] {
      RemoveParkedEachDisjoint(s, q[..|q| - 1]);
      var s1 := RemoveParkedEach(s, q[..|q| - 1]).0;
      RemoveParkedDisjoint(s1, q[|q| - 1]);
      if Sound(s1) { RemoveParkedSound(s1, q[|q| - 1]); }
    }
  }

  /** An order that is not pending: reported and gone exactly if it was parked and is named. */
  lemma {:induction false} ParkedEachIff(s: Storage, q: seq<Order>, o: Order)
    requires o !in s.pending
    ensures var (t, found) := RemoveParkedEach(s, q);
            && o !in t.pending
            && (o in found <==> o in s.parked && o in q) && (o in t.parked <==> o in s.parked && o !in q)
    decreases q
  {
    if q != [] {
      var init, p := q[..|q| - 1], q[|q| - 1];
      assert q == init + [p];
      ParkedEachIff(s, init, o);
    }
  }

  /** Parks the orders of `q` that are indexed. */
  function ParkEach(s: Storage, indexed: set<Order>, q: seq<Order>): Storage
    decreases q
  {
    if q == [] then s
    else
      var s1 := ParkEach(s, indexed, q[..|q| - 1]);
      if q[|q| - 1] in indexed then Park(s1, q[|q| - 1]) else s1
  }

  lemma {:induction false} ParkEachDisjoint(s: Storage, indexed: set<Order>, q: seq<Order>)
    requires Disjoint(s)
    ensures Disjoint(ParkEach(s, indexed, q)) && Stored(ParkEach(s, indexed, q)) <= Stored(s)
    ensures Sound(s) ==> Sound(ParkEach(s, indexed, q)) && Stored(ParkEach(s, indexed, q)) == Stored(s)
    decreases q
  {
    hide Disjoint, Sound, Park;
    if q != [] {
      ParkEachDisjoint(s, indexed, q[..|q| - 1]);
      var s1 := ParkEach(s, indexed, q[..|q| - 1]);
      ParkDisjoint(s1, q[|q| - 1]);
      if Sound(s1) { ParkSound(s1, q[|q| - 1]); }
    }
  }

  /** The store after removing all of `q`, and those of `q` that were reported. */
  function RemoveEach(s: Storage, q: seq<Order>): (r: (Storage, seq<Order>))
    decreases q
  {
    if q == [] then (s, [])
    else
      var (s1, found) := RemoveEach(s, q[..|q| - 1]);
      var o := q[|q| - 1];
      var (s2, hit) := Remove(s1, o);
      (s2, if hit then found + [o] else found)
  }

  lemma NoRemoval(s: Storage)
    ensures RemoveEach(s, []) == (s, [])
  {
  }

  lemma {:induction false} RemoveEachDisjoint(s: Storage, q: seq<Order>)
    requires Disjoint(s)
    ensures Disjoint(RemoveEach(s, q).0) && Stored(RemoveEach(s, q).0) == Stored(s) - Elements(q)
    decreases q
  {
    hide Disjoint, Remove;
    if q != [] {
      var init, o := q[..|q| - 1], q[|q| - 1];
      assert q == init + [o];
      RemoveEachDisjoint(s, init);
      RemoveDisjoint(RemoveEach(s, init).0, o);
      ElementsConcat(init, [o]);
    }
  }

  lemma {:induction false} RemoveEachSound(s: Storage, q: seq<Order>)
    requires Sound(s)
    ensures Sound(RemoveEach(s, q).0) && Stored(RemoveEach(s, q).0) == Stored(s) - Elements(q)
    ensures RemoveEach(s, q).1 == Take(Stored(s), q)
    decreases q
  {
    hide Sound, Remove;
    if q != [] {
      var init, o := q[..|q| - 1], q[|q| - 1];
      assert q == init + [o];
      RemoveEachSound(s, init);
      RemoveSound(RemoveEach(s, init).0, o);
      TakeSnoc(Stored(s), init, o);
      ElementsConcat(init, [o]);
    }
  }

  /** What a list of stored orders needs so that none of them goes missing while all are removed. */
  ghost predicate OwnLevels(s: Storage, q: seq<Order>) {
    && (forall o :: o in q && o in s.pending ==> s.pending[o] in s.levels)
    && (forall i, j :: 0 <= i < j < |q| && q[i] in s.pending && q[j] in s.pending ==>
          s.pending[q[i]] != s.pending[q[j]])
  }

  /** Whatever the store: all ids leave the pending pools, and their entries go with them. */
  lemma {:induction false} RemoveEachState(s: Storage, q: seq<Order>)
    ensures var r := RemoveEach(s, q).0;
            r.pending == s.pending - Elements(q) && r.levels == s.levels - set o | o in q && o in s.pending :: s.pending[o]
    decreases q
  {
    if q != [] {
      var init, o := q[..|q| - 1], q[|q| - 1];
      assert q == init + [o];
      RemoveEachState(s, init);
      ElementsConcat(init, [o]);
      assert (set p | p in q && p in s.pending :: s.pending[p])
          == (set p | p in init && p in s.pending :: s.pending[p]) + if o in s.pending then {s.pending[o]} else {};
    }
  }

  lemma OwnLevelsSnoc(s: Storage, q: seq<Order>)
    requires q != []
    ensures var init, o := q[..|q| - 1], q[|q| - 1];
            OwnLevels(s, q) <==>
              OwnLevels(s, init) && (o in s.pending ==>
                s.pending[o] in s.levels && s.pending[o] !in set p | p in init && p in s.pending :: s.pending[p])
  {
    var init, o := q[..|q| - 1], q[|q| - 1];
    assert q == init + [o];
    if OwnLevels(s, q) {
      assert q[|q| - 1] == o;
      forall i, j | 0 <= i < j < |init| && init[i] in s.pending && init[j] in s.pending
        ensures s.pending[init[i]] != s.pending[init[j]]
      {
        assert q[i] == init[i] && q[j] == init[j];
      }
    }
  }

  lemma {:induction false} RemoveEachShorter(s: Storage, q: seq<Order>)
    ensures |RemoveEach(s, q).1| <= |q|
    decreases q
  {
    if q != [] {
      RemoveEachShorter(s, q[..|q| - 1]);
    }
  }

  /** For a disjoint store, exactly when removing stored orders in turn loses none of them: the pending ones
      among them all have an entry for their level, and no two share one. */
  lemma {:induction false} NothingLostIff(s: Storage, q: seq<Order>)
    requires Disjoint(s) && Distinct(q) && Elements(q) <= Stored(s)
    ensures RemoveEach(s, q).1 == q <==> OwnLevels(s, q)
    decreases q
  {
    hide OwnLevels;
    if q == [] {
      assert OwnLevels(s, q) by { NoOrdersNoLevels(s); }
    } else {
      var init, o := q[..|q| - 1], q[|q| - 1];
      assert q == init + [o];
      assert o in Elements(q) && Elements(init) <= Elements(q) && o !in Elements(init);
      NothingLostIff(s, init);
      RemoveEachState(s, init);
      ParkedCopyIff(s, init, o);
      RemoveEachShorter(s, init);
      OwnLevelsSnoc(s, q);
    }
  }

  lemma NoOrdersNoLevels(s: Storage)
    ensures OwnLevels(s, [])
  {
  }

  /** Two pending orders with the same quote: removing both reports both if they were charged differently
      and only the first if they were charged the same. */
  lemma SharedLevelLoses(a: Order, b: Order, g: Gas, h: Gas)
    requires a != b && a.quote == b.quote
    ensures var s := Add(Add(EMPTY_STORE, a, g, true), b, h, true);
            && Stored(s) == {a, b} && Stored(RemoveEach(s, [a, b]).0) == {}
            && RemoveEach(s, [a, b]).1 == if g == h then [a] else [a, b]
  {
    var s := Add(Add(EMPTY_STORE, a, g, true), b, h, true);
    assert [a, b][..1] == [a] && [a][..0] == [];
    assert RemoveEach(s, []) == (s, []);
    assert RemoveEach(s, [a]).1 == [a];
  }

  lemma RemoveAbsent(s: Storage, o: Order)
    requires o !in Stored(s)
    ensures Remove(s, o) == (s, false)
  {
    assert s.parked - {o} == s.parked;
  }

  lemma RemoveEachSnoc(s: Storage, q: seq<Order>, o: Order)
    ensures var (s1, found) := RemoveEach(s, q);
            var (s2, hit) := Remove(s1, o);
            RemoveEach(s, q + [o]) == (s2, if hit then found + [o] else found)
  {
    hide Remove;
    assert (q + [o])[..|q|] == q && (q + [o])[|q|] == o;
  }

  lemma {:induction false} RemoveEachConcat(s: Storage, p: seq<Order>, q: seq<Order>)
    ensures var (s1, f1) := RemoveEach(s, p);
            var (s2, f2) := RemoveEach(s1, q);
            RemoveEach(s, p + q) == (s2, f1 + f2)
    decreases q
  {
    hide Remove;
    if q == [] {
      assert p + q == p && RemoveEach(s, p).1 + [] == RemoveEach(s, p).1;
    } else {
      var init, o := q[..|q| - 1], q[|q| - 1];
      ghost var f1, f2 := RemoveEach(s, p).1, RemoveEach(RemoveEach(s, p).0, init).1;
      assert f1 + (f2 + [o]) == f1 + f2 + [o];
      assert q == init + [o] && p + q == p + init + [o];
      RemoveEachConcat(s, p, init);
      RemoveEachSnoc(s, p + init, o);
      RemoveEachSnoc(RemoveEach(s, p).0, init, o);
    }
  }

  /** The order is pending, and nothing before its first mention in `q` takes its entry away. */
  ghost predicate EntryLeft(s: Storage, q: seq<Order>, o: Order) {
    && o in s.pending && s.pending[o] in s.levels
    && forall i :: 0 <= i < |q| && o !in q[..i + 1] && q[i] in s.pending ==> s.pending[q[i]] != s.pending[o]
  }

  lemma EntryLeftSnoc(s: Storage, q: seq<Order>, p: Order, o: Order)
    ensures o in q ==> (EntryLeft(s, q + [p], o) <==> EntryLeft(s, q, o))
    ensures o !in q ==>
      (EntryLeft(s, q + [o], o) <==>
        o in s.pending && s.pending[o] in s.levels && s.pending[o] !in set x | x in q && x in s.pending :: s.pending[x])
  {
    assert forall i :: 0 <= i < |q| ==> (q + [p])[i] == q[i] && (q + [p])[..i + 1] == q[..i + 1];
    assert forall i :: 0 <= i < |q| ==> (q + [o])[i] == q[i] && (q + [o])[..i + 1] == q[..i + 1];
    assert (q + [p])[..|q| + 1] == q + [p] && (q + [o])[..|q| + 1] == q + [o];
  }

  /** Exactly when a parked copy outlives the removals, for any store and any list of ids: the list names
      the order never, or once while the order was pending too and its entry was left. */
  lemma {:induction false} ParkedCopyIff(s: Storage, q: seq<Order>, o: Order)
    ensures o in RemoveEach(s, q).0.parked <==>
            o in s.parked && (o !in q || (multiset(q)[o] == 1 && EntryLeft(s, q, o)))
    decreases q
  {
    hide EntryLeft;
    if q != [] {
      var init, p := q[..|q| - 1], q[|q| - 1];
      assert q == init + [p];
      ParkedCopyIff(s, init, o);
      RemoveEachState(s, init);
      EntryLeftSnoc(s, init, p, o);
      assert o in init <==> multiset(init)[o] > 0;
    }
  }

  /** Exactly when an order is still stored after the removals, for any store and any list of ids. */
  lemma StaysIff(s: Storage, q: seq<Order>, o: Order)
    ensures o in Stored(RemoveEach(s, q).0) <==>
            && o in Stored(s)
            && (o !in q || (o in s.parked && multiset(q)[o] == 1 && EntryLeft(s, q, o)))
  {
    hide EntryLeft, RemoveEach;
    ParkedCopyIff(s, q, o);
    RemoveEachState(s, q);
  }

  /** Exactly which orders the removals report, for any store and any list of ids: those of the list that
      were parked, or whose entry was left when their turn came. */
  lemma {:induction false} ReportedIff(s: Storage, q: seq<Order>, o: Order)
    ensures o in RemoveEach(s, q).1 <==> o in q && (o in s.parked || EntryLeft(s, q, o))
    decreases q
  {
    hide EntryLeft;
    if q != [] {
      var init, p := q[..|q| - 1], q[|q| - 1];
      assert q == init + [p];
      ReportedIff(s, init, o);
      ParkedCopyIff(s, init, o);
      RemoveEachState(s, init);
      EntryLeftSnoc(s, init, p, o);
    }
  }

  /** A parked copy makes up for a shared entry: two pending orders at one level, the second of them parked
      too, are both reported. */
  lemma ParkedCopySaves(a: Order, b: Order, l: Level)
    requires a != b
    ensures var s := Storage(map[a := l, b := l], {l}, {b});
            && !OwnLevelsIn(s, {a, b}) && forall o :: o in [a, b] ==> o in RemoveEach(s, [a, b]).1
  {
    hide RemoveEach;
    var s := Storage(map[a := l, b := l], {l}, {b});
    assert s.pending[a] == s.pending[b];
    ReportedIff(s, [a, b], a);
    ReportedIff(s, [a, b], b);
    assert [a, b][..1] == [a] && [a, b][..2] == [a, b];
  }

  /** Ids of orders that are not stored are skipped. */
  lemma {:induction false} RemoveEachSkips(s: Storage, q: seq<Order>)
    requires Disjoint(s)
    ensures RemoveEach(s, q) == RemoveEach(s, Take(Stored(s), q))
    decreases q
  {
    hide Disjoint, Remove, RemoveEach;
    if q != [] {
      var init, o := q[..|q| - 1], q[|q| - 1];
      assert q == init + [o];
      RemoveEachSkips(s, init);
      RemoveEachDisjoint(s, init);
      TakeSnoc(Stored(s), init, o);
      RemoveEachSnoc(s, init, o);
      if o in Stored(s) && o !in init {
        RemoveEachSnoc(s, Take(Stored(s), init), o);
      } else {
        RemoveAbsent(RemoveEach(s, init).0, o);
        assert Take(Stored(s), q) == Take(Stored(s), init);
      }
    }
  }

  /** The pending orders of a set have levels of their own. */
  ghost predicate OwnLevelsIn(s: Storage, c: set<Order>) {
    && (forall o :: o in c && o in s.pending ==> s.pending[o] in s.levels)
    && (forall o, p :: o in c && p in c && o in s.pending && p in s.pending && s.pending[o] == s.pending[p] ==> o == p)
  }

  lemma OwnLevelsAgree(s: Storage, q: seq<Order>)
    requires Distinct(q)
    ensures OwnLevels(s, q) <==> OwnLevelsIn(s, Elements(q))
  {
    if OwnLevels(s, q) {
      forall o, p | o in q && p in q && o in s.pending && p in s.pending && s.pending[o] == s.pending[p]
        ensures o == p
      {
        var i :| 0 <= i < |q| && q[i] == o;
        var j :| 0 <= j < |q| && q[j] == p;
        assert !(i < j) && !(j < i);
      }
    }
    if OwnLevelsIn(s, Elements(q)) {
      forall i, j | 0 <= i < j < |q| && q[i] in s.pending && q[j] in s.pending
        ensures s.pending[q[i]] != s.pending[q[j]]
      {
        assert q[i] in Elements(q) && q[j] in Elements(q);
      }
    }
  }

  /** For a disjoint store and any list of ids, stale ones included: the stored orders among them are all
      reported exactly if the pending ones have levels of their own. */
  lemma AllReportedIff(s: Storage, q: seq<Order>)
    requires Disjoint(s)
    ensures RemoveEach(s, q).1 == Take(Stored(s), q) <==> OwnLevelsIn(s, Stored(s) * Elements(q))
  {
    hide RemoveEach, OwnLevels, OwnLevelsIn, Take;
    RemoveEachSkips(s, q);
    var t := Take(Stored(s), q);
    NothingLostIff(s, t);
    OwnLevelsAgree(s, t);
  }

  // ----- parking

  /** Those of `q` that can be parked. */
  function Parkable(indexed: set<Order>, q: seq<Order>): (p: seq<Order>)
    ensures forall o :: o in p <==> o in q && o in indexed && o.quote.kind.Vanilla?
  {
    if q == [] then []
    else
      var init, o := q[..|q| - 1], q[|q| - 1];
      assert q == init + [o];
      if o in indexed && o.quote.kind.Vanilla? then Parkable(indexed, init) + [o] else Parkable(indexed, init)
  }

  /** Whatever the store: all that can be parked leave the pending pools, and their entries go with them. */
  lemma {:induction false} ParkEachState(s: Storage, indexed: set<Order>, q: seq<Order>)
    ensures var t, p := ParkEach(s, indexed, q), Parkable(indexed, q);
            t.pending == s.pending - Elements(p) && t.levels == s.levels - set o | o in p && o in s.pending :: s.pending[o]
    decreases q
  {
    if q != [] {
      var init, o := q[..|q| - 1], q[|q| - 1];
      ParkEachState(s, indexed, init);
      if o in indexed && o.quote.kind.Vanilla? {
        var p := Parkable(indexed, init);
        ElementsConcat(p, [o]);
        assert (set x | x in p + [o] && x in s.pending :: s.pending[x])
            == (set x | x in p && x in s.pending :: s.pending[x]) + if o in s.pending then {s.pending[o]} else {};
      }
    }
  }

  /** Exactly which orders are parked afterwards, for any store and any list: those that were, and those of
      the list that can be and whose entry was left when their turn came. The others of them are lost. */
  lemma {:induction false} ParkedIff(s: Storage, indexed: set<Order>, q: seq<Order>, o: Order)
    ensures var p := Parkable(indexed, q);
            o in ParkEach(s, indexed, q).parked <==> o in s.parked || (o in p && EntryLeft(s, p, o))
    decreases q
  {
    hide EntryLeft;
    if q != [] {
      var init, x := q[..|q| - 1], q[|q| - 1];
      var p := Parkable(indexed, init);
      ParkedIff(s, indexed, init, o);
      ParkEachState(s, indexed, init);
      EntryLeftSnoc(s, p, x, o);
    }
  }

  /** With levels of their own none is lost: all that can be parked and were stored are parked. */
  lemma SoundParking(s: Storage, indexed: set<Order>, q: seq<Order>)
    requires Sound(s)
    ensures var t, p := ParkEach(s, indexed, q), Elements(Parkable(indexed, q)) * s.pending.Keys;
            t.pending == s.pending - p && t.parked == s.parked + p
  {
    hide ParkEach, Parkable;
    ParkEachState(s, indexed, q);
    forall o
      ensures o in ParkEach(s, indexed, q).parked <==> o in s.parked || (o in Parkable(indexed, q) && o in s.pending)
    {
      ParkedIff(s, indexed, q, o);
      var p := Parkable(indexed, q);
      assert forall i :: 0 <= i < |p| && o !in p[..i + 1] ==> p[i] in p[..i + 1];
    }
  }

  /** In a store with unshared levels, revalidating parked orders takes out and reports exactly those of the
      list that are parked, and the composable ones that are pending. */
  lemma {:induction false} RemoveParkedEachSound(s: Storage, q: seq<Order>, o: Order)
    requires Sound(s)
    ensures var (t, found) := RemoveParkedEach(s, q);
            && Sound(t)
            && (o in found <==> o in q && (o in s.parked || (o in s.pending && o.quote.kind.Composable?)))
            && (o in t.parked <==> o in s.parked && o !in q)
            && (o in t.pending <==> o in s.pending && !(o in q && o.quote.kind.Composable?))
    decreases q
  {
    hide Sound;
    if q != [] {
      var init, p := q[..|q| - 1], q[|q| - 1];
      assert q == init + [p];
      RemoveParkedEachSound(s, init, o);
      RemoveParkedSound(RemoveParkedEach(s, init).0, p);
      SoundApart(RemoveParkedEach(s, init).0, p);
      SoundApart(s, p);
    }
  }

  lemma SoundApart(s: Storage, o: Order)
    requires Sound(s)
    ensures !(o in s.pending && o in s.parked) && (o in s.pending ==> s.pending[o] in s.levels)
  {
  }

  class OrderStorage {
    var pending: map<Order, Level>
    var levels: set<Level>
    var parked: set<Order>

    ghost function Value(): Storage
      reads this
    {
      Storage(pending, levels, parked)
    }

    constructor ()
      ensures Value() == EMPTY_STORE
    {
      pending, levels, parked := map[], {}, {};
    }

    method AddOrder(o: Order, g: Gas, executable: bool)
      modifies this
      ensures Value() == Add(old(Value()), o, g, executable)
    {
      if o.quote.kind.Vanilla? && !executable {
        parked := parked + {o};
      } else {
        levels := levels + {Level(o.quote, g)};
        pending := pending[o := Level(o.quote, g)];
      }
    }

    method RemovePendingOrder(o: Order) returns (found: bool)
      modifies this`pending, this`levels
      ensures (Value(), found) == RemovePending(old(Value()), o)
    {
      if o !in pending {
        return false;
      }
      var level := pending[o];
      pending := pending - {o};
      found := level in levels;
      levels := levels - {level};
    }

    method RemoveOrder(o: Order) returns (found: bool)
      modifies this
      ensures (Value(), found) == Remove(old(Value()), o)
    {
      found := RemovePendingOrder(o);
      if !found {
        found := o in parked;
        parked := parked - {o};
      }
    }

    method RemoveParkedOrder(o: Order) returns (found: bool)
      modifies this
      ensures (Value(), found) == RemoveParked(old(Value()), o)
    {
      if o in parked {
        parked := parked - {o};
        return true;
      }
      if o.quote.kind.Composable? {
        found := RemovePendingOrder(o);
        return;
      }
      found := false;
    }

    method ParkOrder(o: Order)
      modifies this
      ensures Value() == Park(old(Value()), o)
    {
      if o.quote.kind.Vanilla? {
        var found := RemoveOrder(o);
        if found {
          parked := parked + {o};
        }
      }
    }

    method RemoveInvalidOrder(o: Order)
      modifies this
      ensures Value() == RemoveInvalid(old(Value()), o)
    {
      var _ := RemovePendingOrder(o);
      parked := parked - {o};
    }
  }
}
