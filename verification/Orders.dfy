/** Orders, the two book comparators and the crossing test (server/core.hpp, server/core.cpp). */
module Orders {

  type int32 = x: int | -0x8000_0000 <= x < 0x8000_0000

  /** What a 32-bit signed subtraction leaves of its exact result. */
  function Narrow(x: int): (r: int32)
    requires -0x1_0000_0000 < x < 0x1_0000_0000
    ensures r == x <==> -0x8000_0000 <= x < 0x8000_0000
    ensures (r - x) % 0x1_0000_0000 == 0
  {
    if x >= 0x8000_0000 then x - 0x1_0000_0000 else if x < -0x8000_0000 then x + 0x1_0000_0000 else x
  }

  datatype Side = Buy | Sell

  datatype Order = Order(
    side: Side, price: real, amount: int32, timestamp: int, id: int, volume: int32, client: string)

  const EPSILON: real := 0.000001

  /** The two prices are equal as far as the engine can tell. */
  predicate Near(a: real, b: real) {
    -EPSILON < a - b < EPSILON
  }

  /** The comparators: lhs is served after rhs. */
  predicate Behind(side: Side, lhs: Order, rhs: Order) {
    if Near(lhs.price, rhs.price) then lhs.timestamp > rhs.timestamp
    else if side.Buy? then lhs.price < rhs.price
    else lhs.price > rhs.price
  }

  /** The condition under which the engine trades its two best orders. */
  predicate Crosses(buyPrice: real, sellPrice: real) {
    buyPrice > sellPrice || Near(buyPrice, sellPrice)
  }

  // ---------- When the comparators are orders ----------

  /** The laws std::priority_queue asks of its comparator: irreflexive, transitive, and so are ties. */
  predicate ObeysOrderLaws(side: Side, x: Order, y: Order, z: Order) {
    && !Behind(side, x, x)
    && (Behind(side, x, y) && Behind(side, y, z) ==> Behind(side, x, z))
    && (Tied(side, x, y) && Tied(side, y, z) ==> Tied(side, x, z))
  }

  /** The laws hold over all orders priced in `prices`. */
  ghost predicate StrictWeakOrder(side: Side, prices: iset<real>) {
    forall x: Order, y: Order, z: Order | x.price in prices && y.price in prices && z.price in prices ::
      ObeysOrderLaws(side, x, y, z)
  }

  predicate Tied(side: Side, x: Order, y: Order) {
    !Behind(side, x, y) && !Behind(side, y, x)
  }

  ghost predicate NearIsTransitive(prices: iset<real>) {
    forall a, b, c | a in prices && b in prices && c in prices :: Near(a, b) && Near(b, c) ==> Near(a, c)
  }

  /** Any two distinct prices are at least EPSILON apart. */
  ghost predicate Spaced(prices: iset<real>) {
    forall a, b | a in prices && b in prices :: Near(a, b) ==> a == b
  }

  function Probe(side: Side, price: real, timestamp: int): Order {
    Order(side, price, 1, timestamp, 0, 1, "")
  }

  /** Three orders obey the laws when nearness is transitive on their prices. */
  lemma OrderedTriple(side: Side, prices: iset<real>, x: Order, y: Order, z: Order)
    requires NearIsTransitive(prices) && x.price in prices && y.price in prices && z.price in prices
    ensures ObeysOrderLaws(side, x, y, z)
  {
    var a, b, c := x.price, y.price, z.price;
    assert Near(a, b) && Near(b, c) ==> Near(a, c);
    assert Near(b, a) && Near(a, c) ==> Near(b, c);
    assert Near(a, c) && Near(c, b) ==> Near(a, b);
  }

  /** A near pair is ranked by time alone, so a chain of near prices drags its two ends together. */
  lemma OrderForcesNearness(side: Side, prices: iset<real>, a: real, b: real, c: real)
    requires StrictWeakOrder(side, prices) && a in prices && b in prices && c in prices
    requires Near(a, b) && Near(b, c)
    ensures Near(a, c)
  {
    var x, y, z := Probe(side, a, 3), Probe(side, b, 2), Probe(side, c, 1);
    assert ObeysOrderLaws(side, x, y, z);
    var u, w := Probe(side, c, 3), Probe(side, a, 1);
    assert ObeysOrderLaws(side, u, y, w);
  }

  /**
   * The comparators obey the heap's laws exactly on the price sets where "within EPSILON" is transitive. Whatever the
   * prices, one order is served before another when it is the earlier of two within EPSILON, or better priced by more.
   */
  lemma ComparatorIsOrderIff(side: Side, prices: iset<real>)
    ensures StrictWeakOrder(side, prices) <==> NearIsTransitive(prices)
    ensures forall x: Order, y: Order | -EPSILON < x.price - y.price < EPSILON ::
              Behind(side, y, x) <==> x.timestamp < y.timestamp
    ensures forall x: Order, y: Order | !(-EPSILON < x.price - y.price < EPSILON) ::
              Behind(side, y, x) <==> if side == Buy then x.price > y.price else x.price < y.price
  {
    if StrictWeakOrder(side, prices) {
      forall a, b, c | a in prices && b in prices && c in prices && Near(a, b) && Near(b, c)
        ensures Near(a, c)
      {
        OrderForcesNearness(side, prices, a, b, c);
      }
    }
    if NearIsTransitive(prices) {
      forall x: Order, y: Order, z: Order | x.price in prices && y.price in prices && z.price in prices
        ensures ObeysOrderLaws(side, x, y, z)
      {
        OrderedTriple(side, prices, x, y, z);
      }
    }
  }

  /**
   * With distinct prices at least EPSILON apart both comparators are orders, by price and then by time, and crossing
   * means "at or above".
   */
  lemma SpacedPricesAreOrdered(prices: iset<real>)
    requires Spaced(prices)
    ensures StrictWeakOrder(Buy, prices) && StrictWeakOrder(Sell, prices)
    ensures forall b, s | b in prices && s in prices :: Crosses(b, s) <==> b >= s
    ensures forall x: Order, y: Order | x.price in prices && y.price in prices ::
              && (Behind(Buy, y, x) <==> x.price > y.price || (x.price == y.price && x.timestamp < y.timestamp))
              && (Behind(Sell, y, x) <==> x.price < y.price || (x.price == y.price && x.timestamp < y.timestamp))
  {
    ComparatorIsOrderIff(Buy, prices);
    ComparatorIsOrderIff(Sell, prices);
  }

  /** Without spacing they are not: three prices 0.6 microunits apart break transitivity on both sides. */
  lemma ComparatorsAreNotOrdersInGeneral()
    ensures !StrictWeakOrder(Buy, iset{1.0, 1.0000006, 1.0000012})
    ensures !StrictWeakOrder(Sell, iset{1.0, 1.0000006, 1.0000012})
  {
    var prices := iset{1.0, 1.0000006, 1.0000012};
    assert Near(1.0, 1.0000006) && Near(1.0000006, 1.0000012) && !Near(1.0, 1.0000012);
    ComparatorIsOrderIff(Buy, prices);
    ComparatorIsOrderIff(Sell, prices);
  }

  ghost function Prices(orders: multiset<Order>): iset<real> {
    iset o | o in orders :: o.price
  }

  /** No order of `pool` is served before `best`. */
  ghost predicate IsBest(side: Side, best: Order, pool: multiset<Order>) {
    best in pool && forall o | o in pool :: !Behind(side, best, o)
  }

  /** A best order is the earliest of those within EPSILON of its price, and better priced than all the others. */
  lemma BestIsFirst(side: Side, best: Order, pool: multiset<Order>)
    requires IsBest(side, best, pool)
    ensures forall o | o in pool && -EPSILON < o.price - best.price < EPSILON :: best.timestamp <= o.timestamp
    ensures forall o | o in pool && o.price - best.price >= EPSILON :: side == Sell
    ensures forall o | o in pool && o.price - best.price <= -EPSILON :: side == Buy
  {
    forall o | o in pool
      ensures !Behind(side, best, o)
    {
    }
  }
}
