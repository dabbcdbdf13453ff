/**
 Orders as the pool sees them. Hashing is ideal here: an order stands for its own hash, so a map from
 hash to order is a set of orders.
 */
module Orders {
  import opened FiniteSums
  import opened Options
  import opened Sequences

  datatype Kind = Vanilla | Composable | Searcher

  /** The pending pool an order belongs in, its side, and what it asks for. */
  datatype Quote = Quote(kind: Kind, pool: nat, isBid: bool, price: nat, volume: nat)

  /** The gas that validation charges an order, in the pair's token and in units. */
  datatype Gas = Gas(used: nat, units: nat)

  /** What a pending book is keyed by: pool, side and priority data, of which validation sets the gas. */
  datatype Level = Level(quote: Quote, gas: Gas)

  datatype Order = Order(from: Address, quote: Quote, deadline: Option<nat>, flashBlock: Option<nat>, salt: nat)

  function Elements(q: seq<Order>): set<Order> {
    set o | o in q
  }

  /** `q` lists every member of `s` once: one of the orders in which a hash set may be walked. */
  ghost predicate Enumerates(q: seq<Order>, s: set<Order>) {
    Distinct(q) && Elements(q) == s
  }

  /** The members of `ids` that are in `held`, each taken at its first mention. */
  function Take(held: set<Order>, ids: seq<Order>): (taken: seq<Order>)
    ensures Distinct(taken) && Elements(taken) == held * Elements(ids)
  {
    if ids == [] then []
    else if ids[0] in held then
      var rest := Take(held - {ids[0]}, ids[1..]);
      assert Elements(ids) == {ids[0]} + Elements(ids[1..]);
      assert ids[0] !in Elements(rest);
      assert Elements([ids[0]] + rest) == {ids[0]} + Elements(rest);
      [ids[0]] + rest
    else
      assert Elements(ids) == {ids[0]} + Elements(ids[1..]);
      Take(held, ids[1..])
  }

  lemma TakeSnoc(held: set<Order>, ids: seq<Order>, id: Order)
    ensures Take(held, ids + [id]) ==
            Take(held, ids) + if id in held && id !in ids then [id] else []
    decreases ids
  {
    if ids != [] {
      assert (ids + [id])[1..] == ids[1..] + [id];
      TakeSnoc(if ids[0] in held then held - {ids[0]} else held, ids[1..], id);
    }
  }

  lemma ElementsConcat(p: seq<Order>, q: seq<Order>)
    ensures Elements(p + q) == Elements(p) + Elements(q)
  {
  }
}
