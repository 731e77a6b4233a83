/** What one call of Core::process_orders does to the books, as a sequence of trades (server/core.cpp). */
module Matching {
  import opened Orders
  import opened Sums

  datatype Books = Books(buys: multiset<Order>, sells: multiset<Order>) {
    function Of(side: Side): multiset<Order> {
      if side.Buy? then buys else sells
    }
  }

  function Min(a: int, b: int): int {
    if a < b then a else b
  }

  /** The roubles an amount of dollars costs. */
  function Worth(amount: int, price: real): real {
    amount as real * price
  }

  /** One pass through the matching branch: the two orders as popped, and the clock readings if they complete. */
  datatype Trade = Trade(buy: Order, sell: Order, buyTime: int, sellTime: int) {
    function Amount(): int32 {
      Min(sell.amount, buy.amount)
    }

    function Cost(): real {
      Worth(Amount(), buy.price)
    }

    function Before(side: Side): Order {
      if side.Buy? then buy else sell
    }

    function After(side: Side): Order {
      Before(side).(amount := Narrow(Before(side).amount - Amount()))
    }
  }

  /** A side of the book after a trade: the order leaves it, and only a positive remainder goes back. */
  function TakeSide(m: multiset<Order>, t: Trade, side: Side): multiset<Order> {
    var rest := t.After(side);
    if rest.amount > 0 then More(Less(m, t.Before(side)), rest) else Less(m, t.Before(side))
  }

  function Apply(b: Books, t: Trade): Books {
    Books(TakeSide(b.buys, t, Buy), TakeSide(b.sells, t, Sell))
  }

  /** The books after a sequence of trades. */
  function Replay(b: Books, log: seq<Trade>): Books {
    if log == [] then b else Apply(Replay(b, log[..|log| - 1]), log[|log| - 1])
  }

  predicate Tradable(b: Books, t: Trade) {
    t.buy in b.buys && t.sell in b.sells && Crosses(t.buy.price, t.sell.price)
  }

  /** Every trade takes two crossing orders then on the books. */
  predicate Legal(b: Books, log: seq<Trade>) {
    log == [] || (Legal(b, log[..|log| - 1]) && Tradable(Replay(b, log[..|log| - 1]), log[|log| - 1]))
  }

  /** A trade between a best order of each side. */
  ghost predicate TakesBest(b: Books, t: Trade) {
    IsBest(Buy, t.buy, b.buys) && IsBest(Sell, t.sell, b.sells)
  }

  /** Every trade takes a best order of each side. */
  ghost predicate BestFirst(b: Books, log: seq<Trade>) {
    log == [] || (BestFirst(b, log[..|log| - 1]) && TakesBest(Replay(b, log[..|log| - 1]), log[|log| - 1]))
  }

  /** No remaining buy crosses any remaining sell. */
  ghost predicate Settled(b: Books) {
    forall x, y | x in b.buys && y in b.sells :: !Crosses(x.price, y.price)
  }

  /** Every order is on its own side and has something open. */
  ghost predicate Positive(b: Books) {
    && (forall o | o in b.buys :: o.amount > 0 && o.side == Buy)
    && (forall o | o in b.sells :: o.amount > 0 && o.side == Sell)
  }

  /** Being within EPSILON is transitive on the prices present: exactly when the comparators order them. */
  ghost predicate Comparable(b: Books) {
    Positive(b) && NearIsTransitive(Prices(b.buys + b.sells))
  }

  /** Distinct prices are at least EPSILON apart, so that crossing means buy >= sell. */
  ghost predicate Sane(b: Books) {
    Positive(b) && Spaced(Prices(b.buys + b.sells))
  }

  ghost predicate UniqueIds(m: multiset<Order>) {
    && (forall o | o in m :: m[o] == 1)
    && (forall o, p | o in m && p in m && o.id == p.id :: o == p)
  }

  // ---------- Termination and integer width ----------

  /** Every match empties at least one of its two orders, whatever their amounts, so the loop runs out of orders. */
  lemma TradeShrinksTheBooks(b: Books, t: Trade)
    requires Tradable(b, t)
    ensures |Apply(b, t).buys| + |Apply(b, t).sells| < |b.buys| + |b.sells|
  {
    assert t.After(Buy).amount == 0 || t.After(Sell).amount == 0;
  }

  /** The 32-bit remainders are exact if and only if the two amounts differ by at most 2^31 - 1. */
  lemma RemaindersAreExactIff(t: Trade)
    ensures (forall side :: t.After(side).amount == t.Before(side).amount - t.Amount())
            <==> -0x8000_0000 < t.buy.amount - t.sell.amount < 0x8000_0000
  {
    assert t.After(Buy).amount == Narrow(t.buy.amount - t.Amount());
    assert t.After(Sell).amount == Narrow(t.sell.amount - t.Amount());
  }

  // ---------- What a trade keeps ----------

  /** The two records are of one order, up to its amount. */
  predicate SameOrder(x: Order, y: Order) {
    x.id == y.id && x.side == y.side && x.price == y.price && x.timestamp == y.timestamp
    && x.volume == y.volume && x.client == y.client
  }

  /** Every order on the books after a trade was there before it, up to its amount. */
  lemma TradeOnlyShrinks(b: Books, t: Trade, side: Side, o: Order) returns (origin: Order)
    requires Tradable(b, t) && o in Apply(b, t).Of(side)
    ensures origin in b.Of(side) && SameOrder(origin, o)
  {
    origin := if o in b.Of(side) then o else t.Before(side);
  }

  lemma TradeAmounts(b: Books, t: Trade)
    requires Positive(b) && Tradable(b, t)
    ensures t.Amount() > 0
    ensures t.After(Buy).amount == t.buy.amount - t.Amount() >= 0
    ensures t.After(Sell).amount == t.sell.amount - t.Amount() >= 0
  {
  }

  lemma SaneTradesMeet(b: Books, t: Trade)
    requires Sane(b) && Tradable(b, t)
    ensures t.buy.price >= t.sell.price
  {
    assert t.buy in b.buys + b.sells && t.sell in b.buys + b.sells;
    assert t.buy.price in Prices(b.buys + b.sells) && t.sell.price in Prices(b.buys + b.sells);
  }

  /** No price appears on the books that was not there before. */
  lemma TradeAddsNoPrice(b: Books, t: Trade)
    requires Tradable(b, t)
    ensures var b' := Apply(b, t); forall p | p in Prices(b'.buys + b'.sells) :: p in Prices(b.buys + b.sells)
  {
    var b' := Apply(b, t);
    forall p | p in Prices(b'.buys + b'.sells)
      ensures p in Prices(b.buys + b.sells)
    {
      var o :| o in b'.buys + b'.sells && o.price == p;
      var origin := TradeOnlyShrinks(b, t, if o in b'.buys then Buy else Sell, o);
      assert origin in b.buys + b.sells;
    }
  }

  lemma TradeKeepsPositive(b: Books, t: Trade)
    requires Positive(b) && Tradable(b, t)
    ensures Positive(Apply(b, t))
  {
    TradeAmounts(b, t);
  }

  lemma TradeKeepsComparable(b: Books, t: Trade)
    requires Comparable(b) && Tradable(b, t)
    ensures Comparable(Apply(b, t))
  {
    TradeKeepsPositive(b, t);
    TradeAddsNoPrice(b, t);
    hide Apply, Prices, Positive;
  }

  lemma TradeKeepsSanity(b: Books, t: Trade)
    requires Sane(b) && Tradable(b, t)
    ensures Sane(Apply(b, t))
  {
    TradeKeepsPositive(b, t);
    TradeAddsNoPrice(b, t);
    hide Apply, Prices, Positive;
  }

  /** Spaced prices are comparable: near then means equal. */
  lemma SaneIsComparable(b: Books)
    requires Sane(b)
    ensures Comparable(b)
  {
  }

  lemma {:induction false} RunKeepsPositive(b: Books, log: seq<Trade>)
    requires Positive(b) && Legal(b, log)
    ensures Positive(Replay(b, log))
  {
    hide Positive, Apply, Tradable;
    if log != [] {
      var n := |log| - 1;
      RunKeepsPositive(b, log[..n]);
      TradeKeepsPositive(Replay(b, log[..n]), log[n]);
    }
  }

  lemma {:induction false} RunKeepsSanity(b: Books, log: seq<Trade>)
    requires Sane(b) && Legal(b, log)
    ensures Sane(Replay(b, log))
  {
    hide Sane, Apply, Tradable;
    if log != [] {
      var n := |log| - 1;
      RunKeepsSanity(b, log[..n]);
      TradeKeepsSanity(Replay(b, log[..n]), log[n]);
    }
  }

  lemma LegalExtend(b: Books, log: seq<Trade>, t: Trade)
    requires Legal(b, log) && Tradable(Replay(b, log), t)
    ensures Legal(b, log + [t]) && Replay(b, log + [t]) == Apply(Replay(b, log), t)
    ensures BestFirst(b, log) && TakesBest(Replay(b, log), t) ==> BestFirst(b, log + [t])
  {
    assert (log + [t])[..|log|] == log;
  }

  // ---------- Clearing volume ----------

  function AtOrAbove(p: real): Order -> int {
    (o: Order) => if o.price >= p then o.amount else 0
  }

  function AtOrBelow(p: real): Order -> int {
    (o: Order) => if o.price <= p then o.amount else 0
  }

  /** What could change hands at a single price p. */
  ghost function VolumeAt(b: Books, p: real): int {
    Min(Total(b.buys, AtOrAbove(p)), Total(b.sells, AtOrBelow(p)))
  }

  /** v is the maximum of VolumeAt over all prices. */
  ghost predicate IsClearingVolume(b: Books, v: int) {
    (forall p: real :: VolumeAt(b, p) <= v) && (exists p: real :: VolumeAt(b, p) == v)
  }

  function Volume(log: seq<Trade>): int {
    if log == [] then 0 else Volume(log[..|log| - 1]) + log[|log| - 1].Amount()
  }

  lemma TotalAfterTrade(b: Books, t: Trade, side: Side, weight: Order -> int)
    requires Positive(b) && Tradable(b, t)
    requires t.After(side).amount == 0 ==> weight(t.After(side)) == 0
    ensures Total(b.Of(side), weight)
         == Total(Apply(b, t).Of(side), weight) + weight(t.Before(side)) - weight(t.After(side))
  {
    TradeAmounts(b, t);
    var m, x, y := b.Of(side), t.Before(side), t.After(side);
    TotalLess(m, x, weight);
    if y.amount > 0 {
      TotalMore(Less(m, x), y, weight);
    }
  }

  lemma SidesNonNegative(b: Books, p: real)
    requires Positive(b)
    ensures Total(b.buys, AtOrAbove(p)) >= 0 && Total(b.sells, AtOrBelow(p)) >= 0
  {
    assert forall o | o in b.buys :: o in b.Of(Buy);
    assert forall o | o in b.sells :: o in b.Of(Sell);
    TotalNonNegative(b.buys, AtOrAbove(p));
    TotalNonNegative(b.sells, AtOrBelow(p));
  }

  /** A best-first trade lowers the volume at exactly the prices between its two limits, by its amount. */
  lemma VolumeAtAfterTrade(b: Books, t: Trade, p: real)
    requires Sane(b) && Tradable(b, t) && TakesBest(b, t)
    ensures t.sell.price <= p <= t.buy.price ==> VolumeAt(b, p) == VolumeAt(Apply(b, t), p) + t.Amount()
    ensures !(t.sell.price <= p <= t.buy.price) ==> VolumeAt(b, p) == 0 == VolumeAt(Apply(b, t), p)
  {
    hide Apply, TakesBest, Tradable, Total, Positive, Spaced;
    TradeAmounts(b, t);
    SaneTradesMeet(b, t);
    TradeKeepsSanity(b, t);
    TotalAfterTrade(b, t, Buy, AtOrAbove(p));
    TotalAfterTrade(b, t, Sell, AtOrBelow(p));
    SidesNonNegative(b, p);
    SidesNonNegative(Apply(b, t), p);
    if p > t.buy.price {
      BestPriceBounds(b, t);
      TotalZero(b.buys, AtOrAbove(p));
    } else if p < t.sell.price {
      BestPriceBounds(b, t);
      TotalZero(b.sells, AtOrBelow(p));
    }
  }

  lemma BestPriceBounds(b: Books, t: Trade)
    requires Sane(b) && TakesBest(b, t)
    ensures forall o | o in b.buys :: o.price <= t.buy.price
    ensures forall o | o in b.sells :: o.price >= t.sell.price
  {
    forall o | o in b.buys + b.sells
      ensures o.price in Prices(b.buys + b.sells)
    {
    }
    forall o | o in b.buys
      ensures o.price <= t.buy.price
    {
      assert o in b.buys + b.sells && t.buy in b.buys + b.sells && !Behind(Buy, t.buy, o);
    }
    forall o | o in b.sells
      ensures o.price >= t.sell.price
    {
      assert o in b.buys + b.sells && t.sell in b.buys + b.sells && !Behind(Sell, t.sell, o);
    }
  }

  lemma ClearingVolumeStep(b: Books, t: Trade, v: int)
    requires Sane(b) && Tradable(b, t) && TakesBest(b, t)
    requires IsClearingVolume(Apply(b, t), v)
    ensures IsClearingVolume(b, v + t.Amount())
  {
    hide Apply, TakesBest, Tradable, Positive, Spaced;
    TradeAmounts(b, t);
    SaneTradesMeet(b, t);
    TradeKeepsSanity(b, t);
    var b' := Apply(b, t);
    SidesNonNegative(b', t.buy.price);
    assert v >= VolumeAt(b', t.buy.price) >= 0;
    hide VolumeAt;
    forall p: real
      ensures VolumeAt(b, p) <= v + t.Amount()
    {
      VolumeAtAfterTrade(b, t, p);
      assert VolumeAt(b', p) <= v;
    }
    var q: real :| VolumeAt(b', q) == v;
    VolumeAtAfterTrade(b, t, q);
    VolumeAtAfterTrade(b, t, t.buy.price);
    assert VolumeAt(b, q) == v + t.Amount() || VolumeAt(b, t.buy.price) == v + t.Amount();
  }

  lemma SettledBooksClearNothing(b: Books)
    requires Sane(b) && Settled(b)
    ensures IsClearingVolume(b, 0)
  {
    forall p: real
      ensures VolumeAt(b, p) == 0
    {
      SidesNonNegative(b, p);
      if x :| x in b.buys && x.price >= p {
        forall y | y in b.sells
          ensures AtOrBelow(p)(y) == 0
        {
          assert !Crosses(x.price, y.price);
        }
        TotalZero(b.sells, AtOrBelow(p));
      } else {
        TotalZero(b.buys, AtOrAbove(p));
      }
    }
    assert VolumeAt(b, 0.0) == 0;
  }

  lemma {:induction false} ClearingVolumeOfRun(b: Books, log: seq<Trade>, v: int)
    requires Sane(b) && Legal(b, log) && BestFirst(b, log)
    requires IsClearingVolume(Replay(b, log), v)
    ensures IsClearingVolume(b, v + Volume(log))
  {
    hide Apply, IsClearingVolume, Sane, TakesBest;
    if log != [] {
      var n := |log| - 1;
      RunKeepsSanity(b, log[..n]);
      ClearingVolumeStep(Replay(b, log[..n]), log[n], v);
      ClearingVolumeOfRun(b, log[..n], v + log[n].Amount());
    }
  }

  /** The engine trades exactly the most that any single price could clear, however the heaps break ties. */
  lemma EngineTradesTheClearingVolume(b: Books, log: seq<Trade>)
    requires Sane(b) && Legal(b, log) && BestFirst(b, log) && Settled(Replay(b, log))
    ensures IsClearingVolume(b, Volume(log))
  {
    hide *;
    RunKeepsSanity(b, log);
    SettledBooksClearNothing(Replay(b, log));
    ClearingVolumeOfRun(b, log, 0);
  }

  // ---------- Fills ----------

  function WithId(id: int): Order -> int {
    (o: Order) => if o.id == id then o.amount else 0
  }

  /** What an order received from a sequence of trades. */
  function Filled(log: seq<Trade>, side: Side, id: int): int {
    if log == [] then 0
    else
      var t := log[|log| - 1];
      Filled(log[..|log| - 1], side, id) + if t.Before(side).id == id then t.Amount() else 0
  }

  /** Fills and open amount of every id add up to what was open at the start. */
  lemma {:induction false} FillsAddUp(b: Books, log: seq<Trade>, side: Side, id: int)
    requires Positive(b) && Legal(b, log)
    ensures Total(b.Of(side), WithId(id)) == Total(Replay(b, log).Of(side), WithId(id)) + Filled(log, side, id)
  {
    hide Apply, Positive;
    if log != [] {
      var n := |log| - 1;
      RunKeepsPositive(b, log[..n]);
      FillsAddUp(b, log[..n], side, id);
      TradeAmounts(Replay(b, log[..n]), log[n]);
      TotalAfterTrade(Replay(b, log[..n]), log[n], side, WithId(id));
    }
  }

  function AnyAmount(): Order -> int {
    (o: Order) => o.amount
  }

  /** At every loop head the buys and the sells have lost the same quantity: the volume traded so far. */
  lemma {:induction false} SidesFillAlike(b: Books, log: seq<Trade>, side: Side)
    requires Positive(b) && Legal(b, log)
    ensures Total(b.Of(side), AnyAmount()) - Total(Replay(b, log).Of(side), AnyAmount()) == Volume(log)
  {
    hide Apply, Positive;
    if log != [] {
      var n := |log| - 1;
      RunKeepsPositive(b, log[..n]);
      SidesFillAlike(b, log[..n], side);
      TradeAmounts(Replay(b, log[..n]), log[n]);
      TotalAfterTrade(Replay(b, log[..n]), log[n], side, AnyAmount());
    }
  }

  lemma {:induction false} OpenAmountOfUniqueId(m: multiset<Order>, x: Order)
    requires UniqueIds(m) && x in m
    ensures Total(m, WithId(x.id)) == x.amount
  {
    TotalLess(m, x, WithId(x.id));
    TotalZero(Less(m, x), WithId(x.id));
  }

  // ---------- No trade-through ----------

  /** Every order on the books after some trades was there at the start, up to its amount. */
  lemma {:induction false} BooksOnlyShrink(b: Books, log: seq<Trade>, side: Side, o: Order) returns (origin: Order)
    requires Legal(b, log) && o in Replay(b, log).Of(side)
    ensures origin in b.Of(side) && SameOrder(origin, o)
  {
    origin := o;
    if log != [] {
      var n := |log| - 1;
      origin := TradeOnlyShrinks(Replay(b, log[..n]), log[n], side, o);
      origin := BooksOnlyShrink(b, log[..n], side, origin);
    }
  }

  /** When an order trades, no order strictly ahead of it in (price, time) is left at the end. */
  lemma {:induction false} NothingAheadSurvives(b: Books, log: seq<Trade>, side: Side, i: nat, o: Order)
    requires Legal(b, log) && BestFirst(b, log) && i < |log| && o in Replay(b, log).Of(side)
    ensures !Behind(side, log[i].Before(side), o)
    decreases |log|
  {
    hide Apply, Tradable;
    var n := |log| - 1;
    var origin := TradeOnlyShrinks(Replay(b, log[..n]), log[n], side, o);
    if i < n {
      NothingAheadSurvives(b, log[..n], side, i, origin);
      assert log[..n][i] == log[i];
    } else {
      assert TakesBest(Replay(b, log[..n]), log[n]);
    }
  }

  /** Each trade takes the earliest order within EPSILON of its price, and no order then on its book is better priced. */
  lemma {:induction false} TradesTakeTheFirst(b: Books, log: seq<Trade>, side: Side, i: nat, o: Order)
    requires BestFirst(b, log) && i < |log| && o in Replay(b, log[..i]).Of(side)
    ensures var x := log[i].Before(side);
            && x in Replay(b, log[..i]).Of(side)
            && (-EPSILON < o.price - x.price < EPSILON ==> x.timestamp <= o.timestamp)
            && (o.price - x.price >= EPSILON ==> side == Sell)
            && (o.price - x.price <= -EPSILON ==> side == Buy)
    decreases |log|
  {
    hide Replay;
    var n := |log| - 1;
    if i < n {
      assert log[..n][..i] == log[..i];
      TradesTakeTheFirst(b, log[..n], side, i, o);
    } else {
      BestIsFirst(side, log[i].Before(side), Replay(b, log[..i]).Of(side));
    }
  }

  /**
   * No trade-through: if any of an order's quantity traded, every order of its side that was earlier at a price within
   * EPSILON, or better priced by EPSILON or more, is gone at the end, filled to the last unit.
   */
  lemma NoTradeThrough(b: Books, log: seq<Trade>, side: Side, i: nat, x: Order)
    requires Positive(b) && UniqueIds(b.Of(side)) && Legal(b, log) && BestFirst(b, log)
    requires i < |log| && x in b.Of(side)
    requires var traded := log[i].Before(side);
             || (-EPSILON < x.price - traded.price < EPSILON && x.timestamp < traded.timestamp)
             || (side == Buy && x.price - traded.price >= EPSILON)
             || (side == Sell && traded.price - x.price >= EPSILON)
    ensures Filled(log, side, x.id) == x.amount
    ensures forall o | o in Replay(b, log).Of(side) :: o.id != x.id
  {
    hide Replay, Legal, BestFirst, Positive;
    forall o | o in Replay(b, log).Of(side)
      ensures o.id != x.id
    {
      NothingAheadSurvives(b, log, side, i, o);
      var origin := BooksOnlyShrink(b, log, side, o);
    }
    FillsAddUp(b, log, side, x.id);
    TotalZero(Replay(b, log).Of(side), WithId(x.id));
    OpenAmountOfUniqueId(b.Of(side), x);
  }

  /** On spaced prices: every order at a better price, and every earlier one at the same, is filled before. */
  lemma SpacedNoTradeThrough(b: Books, log: seq<Trade>, side: Side, i: nat, x: Order)
    requires Sane(b) && UniqueIds(b.Of(side)) && Legal(b, log) && BestFirst(b, log)
    requires i < |log| && x in b.Of(side)
    requires var traded := log[i].Before(side);
             || (x.price == traded.price && x.timestamp < traded.timestamp)
             || (side == Buy && x.price > traded.price)
             || (side == Sell && x.price < traded.price)
    ensures Filled(log, side, x.id) == x.amount
    ensures forall o | o in Replay(b, log).Of(side) :: o.id != x.id
  {
    hide Replay, Legal, BestFirst, Positive;
    TradedPricesArePresent(b, log, side, i);
    assert x in b.buys + b.sells && x.price in Prices(b.buys + b.sells);
    assert Near(x.price, log[i].Before(side).price) ==> x.price == log[i].Before(side).price;
    NoTradeThrough(b, log, side, i, x);
  }

  /** What trades was priced by an order on the books at the start. */
  lemma {:induction false} TradedPricesArePresent(b: Books, log: seq<Trade>, side: Side, i: nat)
    requires Legal(b, log) && i < |log|
    ensures log[i].Before(side).price in Prices(b.buys + b.sells)
    decreases |log|
  {
    hide Apply;
    var n := |log| - 1;
    if i < n {
      assert log[..n][i] == log[i];
      TradedPricesArePresent(b, log[..n], side, i);
    } else {
      var origin := BooksOnlyShrink(b, log[..n], side, log[n].Before(side));
      assert origin in b.buys + b.sells;
    }
  }
}
