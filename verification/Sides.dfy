/** One side of the market without its active map: where every order placed on it is, and how much of it is left. */
module Sides {
  import opened Orders
  import opened Sums
  import opened PriorityQueue
  import opened Matching

  /**
   * queue: accepted, not yet absorbed; book: in the heap; held: popped by the matcher, with what it will have left;
   * saved: written to the tables when the matching loop ended.
   */
  datatype Rest = Rest(queue: seq<Order>, book: multiset<Order>, held: seq<Order>, saved: multiset<Order>)
  {
    ghost predicate Live(o: Order) {
      o in queue || o in book || o in held || o in saved
    }

    /** Every live order is in one place, once, under an id of its own. */
    ghost predicate Orderly() {
      && (forall o | o in queue :: o !in book && o !in held && o !in saved)
      && (forall o | o in book :: book[o] == 1 && o !in held && o !in saved)
      && (forall o | o in saved :: saved[o] == 1 && o !in held)
      && (forall i, j | 0 <= i < j < |queue| :: queue[i] != queue[j])
      && |held| <= 1
      && (forall o, p | Live(o) && Live(p) && o.id == p.id :: o == p)
    }

    ghost predicate Has(id: int) {
      exists o :: Live(o) && o.id == id
    }
  }

  /** What has happened: every order placed, every trade, and the ids completed or cancelled. */
  datatype Past = Past(placed: map<int, Order>, trades: seq<Trade>, ended: set<int>)

  /** A live order is the one placed under its id, has not ended, and its fills and open amount add up. */
  ghost predicate Fact(p: Past, side: Side, o: Order) {
    && o.side == side && o.id in p.placed && SameOrder(p.placed[o.id], o) && o.id !in p.ended
    && Filled(p.trades, side, o.id) + o.amount == p.placed[o.id].amount
  }

  ghost predicate Facts(r: Rest, p: Past, side: Side) {
    && (forall o | r.Live(o) :: Fact(p, side, o))
    && (forall o | o in r.queue || o in r.book || o in r.saved :: o.amount > 0)
  }

  /** Nothing is lost: an order placed on this side is live until it ends. */
  ghost predicate Found(r: Rest, p: Past, side: Side) {
    forall id | id in p.placed && p.placed[id].side == side && id !in p.ended :: r.Has(id)
  }

  ghost predicate Kept(r: Rest, p: Past, side: Side) {
    r.Orderly() && Facts(r, p, side) && Found(r, p, side)
  }

  ghost predicate PastFits(p: Past) {
    && (forall id | id in p.placed :: p.placed[id].id == id && p.placed[id].amount > 0)
    && (forall t | t in p.trades :: t.buy.id in p.placed && t.sell.id in p.placed)
    && (forall id | id in p.ended :: id in p.placed)
  }

  predicate GoodTrade(t: Trade) {
    t.buy.side == Buy && t.sell.side == Sell && t.buy.amount > 0 && t.sell.amount > 0
    && Crosses(t.buy.price, t.sell.price)
  }

  lemma GoodTradeAmounts(t: Trade)
    requires GoodTrade(t)
    ensures t.Amount() > 0
    ensures forall side :: t.After(side).amount == t.Before(side).amount - t.Amount() >= 0
    ensures forall side :: SameOrder(t.Before(side), t.After(side)) && t.Before(side).side == side
  {
  }

  // ---------- Fills ----------

  lemma {:induction false} UnnamedOrdersAreUnfilled(log: seq<Trade>, side: Side, id: int)
    requires forall t | t in log :: t.Before(side).id != id
    ensures Filled(log, side, id) == 0
  {
    if log != [] {
      assert log[|log| - 1] in log;
      UnnamedOrdersAreUnfilled(log[..|log| - 1], side, id);
    }
  }

  lemma FilledByNext(log: seq<Trade>, t: Trade, side: Side, id: int)
    ensures Filled(log + [t], side, id) == Filled(log, side, id) + if t.Before(side).id == id then t.Amount() else 0
  {
    assert (log + [t])[..|log|] == log;
  }

  // ---------- Moving to a place with the same order in it ----------

  /** The same orders are live, in other places. */
  lemma SameLive(r: Rest, r': Rest, p: Past, side: Side)
    requires Kept(r, p, side) && r'.Orderly()
    requires forall o :: r'.Live(o) <==> r.Live(o)
    requires forall o | o in r'.queue || o in r'.book || o in r'.saved :: o.amount > 0
    ensures Kept(r', p, side)
  {
    hide Fact, Rest.Live, Rest.Orderly;
    forall id | id in p.placed && p.placed[id].side == side && id !in p.ended
      ensures r'.Has(id)
    {
      assert r.Has(id);
      var o :| r.Live(o) && o.id == id;
      assert r'.Live(o);
    }
  }

  lemma AbsorbedIsOrderly(r: Rest)
    requires r.Orderly() && r.queue != []
    ensures var r' := r.(queue := r.queue[1..], book := More(r.book, r.queue[0]));
            r'.Orderly() && forall o :: r'.Live(o) <==> r.Live(o)
  {
    var r' := r.(queue := r.queue[1..], book := More(r.book, r.queue[0]));
    assert r.queue == [r.queue[0]] + r'.queue && r.queue[0] in r.queue;
    assert forall o | o in r'.queue :: o in r.queue && o != r.queue[0];
    assert forall o :: r'.Live(o) <==> r.Live(o);
  }

  lemma AbsorbedKept(r: Rest, p: Past, side: Side)
    requires Kept(r, p, side) && r.queue != []
    ensures Kept(r.(queue := r.queue[1..], book := More(r.book, r.queue[0])), p, side)
  {
    hide Rest.Orderly, Rest.Live, Fact, Found;
    var r' := r.(queue := r.queue[1..], book := More(r.book, r.queue[0]));
    AbsorbedIsOrderly(r);
    assert forall o | o in r'.queue :: o in r.queue;
    assert r.queue[0] in r.queue;
    SameLive(r, r', p, side);
  }

  lemma PutBackKept(r: Rest, p: Past, side: Side)
    requires Kept(r, p, side) && |r.held| == 1 && r.held[0].amount > 0
    ensures Kept(r.(book := More(r.book, r.held[0]), held := []), p, side)
  {
    var r' := r.(book := More(r.book, r.held[0]), held := []);
    assert r.held == [r.held[0]];
    assert forall o :: r'.Live(o) <==> r.Live(o);
    hide Fact;
    assert r'.Orderly();
    SameLive(r, r', p, side);
  }

  lemma SavedKept(r: Rest, p: Past, side: Side)
    requires Kept(r, p, side) && r.saved == multiset{}
    ensures Kept(r.(book := multiset{}, saved := r.book), p, side)
  {
    var r' := r.(book := multiset{}, saved := r.book);
    assert forall o :: r'.Live(o) <==> r.Live(o);
    hide Fact;
    assert r'.Orderly();
    SameLive(r, r', p, side);
  }

  // ---------- A new order ----------

  lemma PlacedKeepsFact(p: Past, side: Side, o: Order, x: Order)
    requires Fact(p, side, x) && o.id !in p.placed
    ensures Fact(p.(placed := p.placed[o.id := o]), side, x)
  {
  }

  lemma NewOrderIsAFact(p: Past, o: Order)
    requires PastFits(p) && o.id !in p.placed
    ensures Fact(p.(placed := p.placed[o.id := o]), o.side, o)
  {
    assert forall t | t in p.trades :: t.Before(o.side).id != o.id;
    UnnamedOrdersAreUnfilled(p.trades, o.side, o.id);
  }

  lemma PlacedElsewhereKept(r: Rest, p: Past, side: Side, o: Order)
    requires Kept(r, p, side) && o.id !in p.placed && o.side != side
    ensures Kept(r, p.(placed := p.placed[o.id := o]), side)
  {
    hide Fact, Rest.Orderly, Rest.Live;
    var p' := p.(placed := p.placed[o.id := o]);
    forall x | r.Live(x)
      ensures Fact(p', side, x)
    {
      assert Fact(p, side, x);
      PlacedKeepsFact(p, side, o, x);
    }
    assert forall id | id in p'.placed && p'.placed[id].side == side :: id in p.placed && p.placed[id].side == side;
  }

  lemma QueuedIsOrderly(r: Rest, o: Order)
    requires r.Orderly() && forall x | r.Live(x) :: x.id != o.id
    ensures var r' := r.(queue := r.queue + [o]);
            r'.Orderly() && forall x :: r'.Live(x) <==> r.Live(x) || x == o
  {
    var r' := r.(queue := r.queue + [o]);
    assert o in r'.queue && forall x | x in r'.queue :: x in r.queue || x == o;
    assert forall x | r'.Live(x) :: r.Live(x) || x == o;
    assert !r.Live(o);
  }

  /** One more order is placed and live. */
  lemma PlacedIsFound(r: Rest, r': Rest, p: Past, o: Order)
    requires Found(r, p, o.side) && forall x :: r'.Live(x) <==> r.Live(x) || x == o
    ensures Found(r', p.(placed := p.placed[o.id := o]), o.side)
  {
    hide Rest.Live;
    forall id | id in p.placed && p.placed[id].side == o.side && id !in p.ended
      ensures r'.Has(id)
    {
      assert r.Has(id);
      var x :| r.Live(x) && x.id == id;
      assert r'.Live(x);
    }
    assert r'.Live(o);
  }

  lemma PlacedHereKept(r: Rest, p: Past, o: Order)
    requires Kept(r, p, o.side) && PastFits(p) && o.id !in p.placed && o.amount > 0
    ensures Kept(r.(queue := r.queue + [o]), p.(placed := p.placed[o.id := o]), o.side)
  {
    hide Rest.Live, Rest.Orderly;
    var r', p' := r.(queue := r.queue + [o]), p.(placed := p.placed[o.id := o]);
    assert forall x | r.Live(x) :: Fact(p, o.side, x) && x.id in p.placed;
    QueuedIsOrderly(r, o);
    PlacedIsFound(r, r', p, o);
    NewOrderIsAFact(p, o);
    forall x | r'.Live(x)
      ensures Fact(p', o.side, x)
    {
      if r.Live(x) {
        PlacedKeepsFact(p, o.side, o, x);
      }
    }
    hide Fact, Found;
    assert forall x | x in r'.queue :: x in r.queue || x == o;
  }

  // ---------- A trade ----------

  lemma TradedFact(p: Past, side: Side, t: Trade, x: Order)
    requires Fact(p, side, x) && (x.id != t.Before(side).id || (x == t.Before(side) && GoodTrade(t)))
    ensures Fact(p.(trades := p.trades + [t]), side, if x.id == t.Before(side).id then t.After(side) else x)
  {
    FilledByNext(p.trades, t, side, x.id);
    hide Filled;
    if x.id == t.Before(side).id {
      GoodTradeAmounts(t);
    }
  }

  lemma TakenIsOrderly(r: Rest, x: Order, y: Order)
    requires r.Orderly() && x in r.book && r.held == [] && y.id == x.id
    ensures r.(book := Less(r.book, x), held := [y]).Orderly()
    ensures forall o :: r.(book := Less(r.book, x), held := [y]).Live(o) <==> o == y || (r.Live(o) && o != x)
  {
    var r' := r.(book := Less(r.book, x), held := [y]);
    assert r.Live(x);
    assert y in r'.held && x !in r'.book;
    assert forall o | r'.Live(o) :: o == y || (r.Live(o) && o != x);
    assert forall o | r.Live(o) && o != x :: o.id != y.id;
  }

  lemma TakenKept(r: Rest, p: Past, side: Side, t: Trade)
    requires Kept(r, p, side) && t.Before(side) in r.book && r.held == [] && GoodTrade(t)
    ensures Kept(r.(book := Less(r.book, t.Before(side)), held := [t.After(side)]), p.(trades := p.trades + [t]), side)
  {
    GoodTradeAmounts(t);
    var x, y := t.Before(side), t.After(side);
    var r', p' := r.(book := Less(r.book, x), held := [y]), p.(trades := p.trades + [t]);
    TakenIsOrderly(r, x, y);
    assert r.Live(x);
    forall o | r'.Live(o)
      ensures Fact(p', side, o)
    {
      TradedFact(p, side, t, if o == y then x else o);
    }
    hide Fact, Trade.After, GoodTrade, Rest.Orderly, Rest.Live;
    TakenIsFound(r, r', p, side, x, y);
    assert Found(r', p', side);
    assert forall o | o in r'.book :: o in r.book;
  }

  /** One live order has been replaced by another of the same id. */
  lemma TakenIsFound(r: Rest, r': Rest, p: Past, side: Side, x: Order, y: Order)
    requires Found(r, p, side) && x.id == y.id && forall o :: r'.Live(o) <==> o == y || (r.Live(o) && o != x)
    ensures Found(r', p, side)
  {
    hide Rest.Live;
    forall id | id in p.placed && p.placed[id].side == side && id !in p.ended
      ensures r'.Has(id)
    {
      assert r.Has(id);
      var o :| r.Live(o) && o.id == id;
      assert r'.Live(if o == x then y else o);
    }
  }

  // ---------- An end ----------

  /** The orders of one id go, and the id has ended: nothing changes for any other order of the side. */
  lemma EndedKept(r: Rest, r': Rest, p: Past, side: Side, id: int)
    requires Kept(r, p, side) && r'.Orderly()
    requires forall o :: r'.Live(o) <==> r.Live(o) && o.id != id
    requires forall o | o in r'.queue || o in r'.book || o in r'.saved :: o.amount > 0
    ensures Kept(r', p.(ended := p.ended + {id}), side)
  {
    var p' := p.(ended := p.ended + {id});
    hide Rest.Orderly, Rest.Live;
    assert forall o | r'.Live(o) :: Fact(p, side, o) && Fact(p', side, o);
    hide Fact;
    forall i | i in p'.placed && p'.placed[i].side == side && i !in p'.ended
      ensures r'.Has(i)
    {
      assert r.Has(i);
      var o :| r.Live(o) && o.id == i;
      assert r'.Live(o);
    }
  }

  lemma EndedElsewhereKept(r: Rest, p: Past, side: Side, id: int)
    requires Kept(r, p, side) && id in p.placed && p.placed[id].side != side
    ensures Kept(r, p.(ended := p.ended + {id}), side)
  {
    hide Rest.Orderly, Rest.Live, Filled;
    assert forall o | r.Live(o) :: Fact(p, side, o) && o.id != id;
    EndedKept(r, r, p, side, id);
  }

  lemma FinishedKept(r: Rest, p: Past, side: Side, x: Order)
    requires Kept(r, p, side) && r.held == [x]
    ensures Kept(r.(held := []), p.(ended := p.ended + {x.id}), side)
  {
    var r' := r.(held := []);
    assert x in r.held && r.Live(x);
    assert forall o :: r'.Live(o) <==> r.Live(o) && o.id != x.id;
    hide Fact;
    assert r'.Orderly();
    EndedKept(r, r', p, side, x.id);
  }

  lemma RemovedIsOrderly(r: Rest, id: int)
    requires r.Orderly() && HasId(r.book, id)
    ensures var r' := r.(book := Without(r.book, id));
            r'.Orderly() && forall o :: r'.Live(o) <==> r.Live(o) && o.id != id
  {
    hide Without;
    var r' := r.(book := Without(r.book, id));
    var x :| x in r.book && x.id == id;
    assert r.Live(x);
    forall o | r.Live(o)
      ensures o.id == id <==> o == x
    {
    }
    assert forall o :: o in r'.book <==> o in r.book && o.id != id;
    assert forall o :: r'.Live(o) <==> r.Live(o) && o != x;
  }

  lemma RemovedKept(r: Rest, p: Past, side: Side, id: int)
    requires Kept(r, p, side) && HasId(r.book, id)
    ensures Kept(r.(book := Without(r.book, id)), p.(ended := p.ended + {id}), side)
  {
    hide Rest.Live, Rest.Orderly, Fact, Found, HasId;
    RemovedIsOrderly(r, id);
    EndedKept(r, r.(book := Without(r.book, id)), p, side, id);
  }
}
