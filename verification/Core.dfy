/** Core: the matching engine over its two heaps (server/core.cpp). */
module Core {
  import opened Orders
  import opened Sums
  import opened PriorityQueue
  import opened Matching
  import opened Ledger
  import opened Clients

  class Engine {
    const buyBook: OrderBook
    const sellBook: OrderBook
    const clients: ClientDataManager

    ghost predicate Valid()
      reads this
    {
      buyBook != sellBook && buyBook.side == Buy && sellBook.side == Sell
    }

    ghost function View(): Books
      reads this, buyBook, sellBook
    {
      Books(buyBook.Contents(), sellBook.Contents())
    }

    /** Both heaps are heaps under comparators that are orders on the prices present. */
    ghost predicate Sound()
      reads this, buyBook, sellBook
    {
      buyBook.Sound() && sellBook.Sound()
    }

    constructor (clients: ClientDataManager)
      ensures Valid() && Sound() && View() == Books(multiset{}, multiset{}) && this.clients == clients
      ensures fresh(buyBook) && fresh(sellBook)
    {
      this.clients := clients;
      buyBook := new OrderBook(Buy);
      sellBook := new OrderBook(Sell);
    }

    /** place_order_to_priority_queue. */
    method PlaceOrder(order: Order)
      requires Valid()
      modifies buyBook, sellBook
      ensures View() == if order.side.Buy? then old(View()).(buys := More(old(View()).buys, order))
                                           else old(View()).(sells := More(old(View()).sells, order))
      ensures old(Sound()) && Lawful(Buy, View().buys) && Lawful(Sell, View().sells) ==> Sound()
    {
      hide IsHeap, Lawful;
      if order.side.Buy? {
        buyBook.Push(order);
      } else {
        sellBook.Push(order);
      }
    }

    /**
     * remove_order_by_id: the book of that side loses exactly the orders with the id; the answer is whether it
     * had one.
     */
    method RemoveOrderById(id: int, side: Side) returns (found: bool)
      requires Valid()
      modifies buyBook, sellBook
      ensures found <==> HasId(old(View()).Of(side), id)
      ensures View() == if side.Buy? then old(View()).(buys := Without(old(View()).buys, id))
                                     else old(View()).(sells := Without(old(View()).sells, id))
      ensures old(Sound()) ==> Sound()
    {
      if side.Buy? {
        found := buyBook.RemoveById(id);
      } else {
        found := sellBook.RemoveById(id);
      }
    }

    /**
     * match_orders: the amounts are lowered first; an order missing from the active maps or an unknown client stops
     * the rest, and so does the database last of all. The answer only goes to the log.
     */
    method MatchOrders(sell: Order, buy: Order, dbOk: bool, ghost t: Trade) returns (sell': Order, buy': Order, ok: bool)
      requires t.buy == buy && t.sell == sell
      modifies clients
      ensures sell' == t.After(Sell) && buy' == t.After(Buy)
      ensures clients.View() == Settle(old(clients.View()), t).0
      ensures ok <==> Settle(old(clients.View()), t).1 && dbOk
    {
      var amount: int32 := Min(sell.amount, buy.amount);
      var cost := Worth(amount, buy.price);
      sell' := sell.(amount := Narrow(sell.amount - amount));
      buy' := buy.(amount := Narrow(buy.amount - amount));
      ok := clients.UpdateActiveOrderUsdAmount(sell', amount);
      if !ok {
        return;
      }
      ok := clients.UpdateActiveOrderUsdAmount(buy', amount);
      if !ok {
        return;
      }
      ok := clients.ChangeClientBalancesAccordingMatch(sell'.client, buy'.client, amount, cost, dbOk);
    }

    method MoveToCompletedIfEmpty(order: Order, now: int)
      modifies clients
      ensures clients.View() == CompleteIfEmpty(old(clients.View()), order, now)
    {
      if order.amount == 0 {
        var dbOk: bool := *;
        var ok := clients.AddOrderToCompleted(order, now, dbOk);
      }
    }

    /** The two best orders, if both books have one: each is off its book afterwards. */
    method PopBoth() returns (buy: Order, sell: Order)
      requires Valid() && buyBook.heap != [] && sellBook.heap != []
      modifies buyBook, sellBook
      ensures buy in old(View()).buys && sell in old(View()).sells
      ensures View() == Books(Less(old(View()).buys, buy), Less(old(View()).sells, sell))
      ensures old(Sound()) ==> Sound() && IsBest(Buy, buy, old(View()).buys) && IsBest(Sell, sell, old(View()).sells)
    {
      buy := buyBook.Pop();
      sell := sellBook.Pop();
    }

    /** Remainders go back only while positive. */
    method PushRemainders(buy: Order, sell: Order)
      requires Valid()
      modifies buyBook, sellBook
      ensures View().buys == if buy.amount > 0 then More(old(View()).buys, buy) else old(View()).buys
      ensures View().sells == if sell.amount > 0 then More(old(View()).sells, sell) else old(View()).sells
      ensures old(Sound()) && Lawful(Buy, View().buys) && Lawful(Sell, View().sells) ==> Sound()
    {
      if buy.amount > 0 {
        buyBook.Push(buy);
      }
      if sell.amount > 0 {
        sellBook.Push(sell);
      }
    }

    method PushBoth(buy: Order, sell: Order)
      requires Valid()
      modifies buyBook, sellBook
      ensures View() == Books(More(old(View()).buys, buy), More(old(View()).sells, sell))
      ensures old(Sound()) && Lawful(Buy, View().buys) && Lawful(Sell, View().sells) ==> Sound()
    {
      buyBook.Push(buy);
      sellBook.Push(sell);
    }

    /**
     * process_orders. Always terminates, and only with a book empty or on meeting two orders that do not cross. Its
     * effect is a sequence of legal trades, recorded in the client data one by one. Where the comparators order the
     * prices present and the heaps are sound, each trade takes the best order of each side and nothing is left
     * crossing; where distinct prices are spaced, it trades the clearing volume.
     */
    method ProcessOrders() returns (ghost log: seq<Trade>)
      requires Valid()
      modifies buyBook, sellBook, clients
      ensures Legal(old(View()), log) && View() == Replay(old(View()), log)
      ensures clients.View() == RecordAll(old(clients.View()), log)
      ensures View().buys == multiset{} || View().sells == multiset{}
              || exists x, y :: x in View().buys && y in View().sells && !Crosses(x.price, y.price)
      ensures old(Sound() && Comparable(View())) ==>
                Sound() && Comparable(View()) && BestFirst(old(View()), log) && Settled(View())
      ensures old(Sound() && Sane(View())) ==> IsClearingVolume(old(View()), Volume(log))
    {
      ghost var start, data, fit := View(), clients.View(), Sound() && Comparable(View());
      log := [];
      assert Legal(start, log) && Replay(start, log) == start && RecordAll(data, log) == data && BestFirst(start, log);
      hide Legal, Replay, RecordAll, BestFirst, Comparable, Sane, Settled, Sound, OrderBook.Sound, IsClearingVolume;
      hide Crosses;
      var crossing := true;
      while crossing && buyBook.heap != [] && sellBook.heap != []
        invariant Legal(start, log) && View() == Replay(start, log)
        invariant clients.View() == RecordAll(data, log)
        invariant crossing || exists x, y :: x in View().buys && y in View().sells && !Crosses(x.price, y.price)
        invariant fit ==> Sound() && Comparable(View()) && BestFirst(start, log) && (!crossing ==> Settled(View()))
        decreases crossing, |View().buys| + |View().sells|
      {
        ghost var here := View();
        ghost var t;
        crossing, t := MatchBest();
        if crossing {
          IterationIsATrade(start, here, log, t, View(), fit);
          log := log + [t];
        }
      }
      if fit && crossing {
        EmptySideSettles(View());
      }
      if fit && Sane(start) {
        EngineTradesTheClearingVolume(start, log);
      }
      if Sane(start) {
        SaneIsComparable(start);
      }
    }

    /** The matching branch, on two orders already off their books. */
    method Execute(buy: Order, sell: Order, buyTime: int, sellTime: int)
      requires Valid()
      modifies buyBook, sellBook, clients
      ensures var t := Trade(buy, sell, buyTime, sellTime);
              && clients.View() == Record(old(clients.View()), t)
              && View().buys
                 == (if t.After(Buy).amount > 0 then More(old(View()).buys, t.After(Buy)) else old(View()).buys)
              && View().sells
                 == (if t.After(Sell).amount > 0 then More(old(View()).sells, t.After(Sell)) else old(View()).sells)
      ensures old(Sound()) && Lawful(Buy, View().buys) && Lawful(Sell, View().sells) ==> Sound()
    {
      hide OrderBook.Sound, Lawful, Narrow, CompleteIfEmpty, Settle;
      var dbOk: bool := *;
      var sell', buy', ok := MatchOrders(sell, buy, dbOk, Trade(buy, sell, buyTime, sellTime));
      MoveToCompletedIfEmpty(buy', buyTime);
      MoveToCompletedIfEmpty(sell', sellTime);
      PushRemainders(buy', sell');
    }

    /** One pass of the loop: the best orders trade, or go back and end it. */
    method MatchBest() returns (crossing: bool, ghost t: Trade)
      requires Valid() && buyBook.heap != [] && sellBook.heap != []
      modifies buyBook, sellBook, clients
      ensures !crossing ==> View() == old(View()) && clients.View() == old(clients.View())
      ensures !crossing ==> exists x, y :: x in View().buys && y in View().sells && !Crosses(x.price, y.price)
      ensures crossing ==> Tradable(old(View()), t) && View() == Apply(old(View()), t)
      ensures crossing ==> clients.View() == Record(old(clients.View()), t)
      ensures old(Sound() && Comparable(View())) ==>
                Sound() && if crossing then TakesBest(old(View()), t) else Settled(View())
    {
      ghost var here, fit := View(), Sound() && Comparable(View());
      hide Comparable, Settled, OrderBook.Sound, Lawful, IsHeap, IsBest, Crosses;
      var buy, sell := PopBoth();
      crossing := Crosses(buy.price, sell.price);
      if crossing {
        var buyTime: int, sellTime: int := *, *;
        t := Trade(buy, sell, buyTime, sellTime);
        if fit {
          LawfulAfterTrade(here, t);
        }
        hide Record;
        Execute(buy, sell, buyTime, sellTime);
      } else {
        t := Trade(buy, sell, 0, 0);
        if fit {
          UncrossedTopsSettle(here, buy, sell);
          ComparableIsLawful(here);
        }
        PushBoth(buy, sell);
        assert View() == here && buy in View().buys && sell in View().sells;
      }
    }
  }

  lemma EmptySideSettles(b: Books)
    requires b.buys == multiset{} || b.sells == multiset{}
    ensures Settled(b)
  {
  }

  lemma LawfulAfterTrade(b: Books, t: Trade)
    requires Comparable(b) && Tradable(b, t)
    ensures Lawful(Buy, Apply(b, t).buys) && Lawful(Sell, Apply(b, t).sells)
  {
    TradeKeepsComparable(b, t);
    ComparableIsLawful(Apply(b, t));
  }

  lemma IterationIsATrade(start: Books, here: Books, log: seq<Trade>, t: Trade, after: Books, fit: bool)
    requires Legal(start, log) && here == Replay(start, log) && Tradable(here, t) && after == Apply(here, t)
    ensures Legal(start, log + [t]) && after == Replay(start, log + [t])
    ensures |after.buys| + |after.sells| < |here.buys| + |here.sells|
    ensures forall d :: RecordAll(d, log + [t]) == Record(RecordAll(d, log), t)
    ensures fit && Comparable(here) && BestFirst(start, log) && TakesBest(here, t)
            ==> Comparable(after) && BestFirst(start, log + [t])
  {
    LegalExtend(start, log, t);
    TradeShrinksTheBooks(here, t);
    assert (log + [t])[..|log|] == log;
    if fit && Comparable(here) {
      TradeKeepsComparable(here, t);
    }
  }

  lemma ComparableIsLawful(b: Books)
    requires Comparable(b)
    ensures Lawful(Buy, b.buys) && Lawful(Sell, b.sells)
  {
    var prices := Prices(b.buys + b.sells);
    ComparatorIsOrderIff(Buy, prices);
    ComparatorIsOrderIff(Sell, prices);
    LawfulIsHereditary(Buy, b.buys, b.buys + b.sells);
    LawfulIsHereditary(Sell, b.sells, b.buys + b.sells);
  }

  /**
   * When the two best orders do not cross, no two orders do, wherever nearness is transitive on the prices present:
   * the very condition under which the comparators are orders.
   */
  lemma UncrossedTopsSettle(b: Books, buy: Order, sell: Order)
    requires Comparable(b) && IsBest(Buy, buy, b.buys) && IsBest(Sell, sell, b.sells) && !Crosses(buy.price, sell.price)
    ensures Settled(b)
  {
    var prices := Prices(b.buys + b.sells);
    forall x, y | x in b.buys && y in b.sells
      ensures !Crosses(x.price, y.price)
    {
      assert x in b.buys + b.sells && y in b.buys + b.sells && buy in b.buys + b.sells && sell in b.buys + b.sells;
      assert x.price in prices && y.price in prices && buy.price in prices && sell.price in prices;
      assert !Behind(Buy, buy, x) && !Behind(Sell, sell, y);
      NearChain(prices, buy.price, x.price, y.price, sell.price);
    }
  }

  lemma NearChain(prices: iset<real>, a: real, b: real, c: real, d: real)
    requires NearIsTransitive(prices) && a in prices && b in prices && c in prices && d in prices
    requires Near(a, b) || a > b
    requires Near(c, d) || d < c
    requires !Crosses(a, d)
    ensures !Crosses(b, c)
  {
    assert Near(a, b) && Near(b, c) ==> Near(a, c);
    assert Near(a, c) && Near(c, d) ==> Near(a, d);
    assert Near(b, c) && Near(c, d) ==> Near(b, d);
    assert Near(a, b) && Near(b, d) ==> Near(a, d);
  }
}
