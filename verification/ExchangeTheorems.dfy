/** What the invariants mean to the users of the exchange, and where make-order breaks them. */
module ExchangeTheorems {
  import opened Orders
  import opened Sums
  import opened Matching
  import opened Ledger
  import opened PriorityQueue
  import opened Agreement
  import opened Sides
  import opened Exchange
  import opened ExchangeSafety
  import opened ExchangeAgreement

  /** A run from a good start, the two threads interleaved in any way. */
  ghost predicate Reachable(s: State, acts: seq<Act>) {
    Start(s) && Runs(s, acts)
  }

  lemma ReachableBase(s: State, acts: seq<Act>)
    requires Reachable(s, acts)
    ensures Base(After(s, acts))
  {
    hide Base, Start, Runs;
    EveryRunKeepsBase(s, acts);
  }

  // ---------- Orders ----------

  ghost predicate Completed(s: State, id: int) {
    exists o :: o in s.Log() && o.id == id
  }

  /**
   * An order that was placed is on the market, once, until it is completed or cancelled, never both, with exactly what
   * its fills have left of it; a completed one is filled to the last unit, a cancelled one is not.
   */
  ghost predicate AccountedFor(r: State, id: int)
    requires id in r.placed
  {
    var side := r.placed[id].side;
    var filled := Filled(r.trades, side, id);
    && (RestOf(r, side).Has(id) <==> !Completed(r, id) && id !in r.cancelled)
    && (forall o, p | RestOf(r, side).Live(o) && RestOf(r, side).Live(p) && o.id == p.id == id :: o == p)
    && (forall o | RestOf(r, side).Live(o) && o.id == id :: filled + o.amount == r.placed[id].amount)
    && (Completed(r, id) ==> filled == r.placed[id].amount && id !in r.cancelled)
    && (id in r.cancelled ==> filled < r.placed[id].amount)
  }

  /** No order is lost, duplicated, ended twice or filled beyond what was asked, whatever the interleaving. */
  lemma EveryOrderIsAccountedFor(s: State, acts: seq<Act>, id: int)
    requires Reachable(s, acts) && id in After(s, acts).placed
    ensures AccountedFor(After(s, acts), id)
  {
    hide Start, Runs, After, AccountedFor, SidesFit;
    ReachableBase(s, acts);
    PlacedOrder(After(s, acts), id);
  }

  lemma KeptSide(r: State, side: Side)
    requires SidesFit(r)
    ensures Kept(RestOf(r, side), PastOf(r), side)
  {
    hide Kept, PastFits, LogFits, CancelsFit, RestOf, PastOf;
  }

  lemma PlacedOrder(r: State, id: int)
    requires SidesFit(r) && id in r.placed
    ensures AccountedFor(r, id)
  {
    hide RestOf, LogFits, CancelsFit, PastFits, EndedIds, Filled, Kept, Rest.Live, Rest.Has, Completed;
    KeptSide(r, r.placed[id].side);
    LoggedOrder(r, id);
    EndedOf(r, id);
    KeptOrder(RestOf(r, r.placed[id].side), PastOf(r), r.placed[id].side, id);
  }

  lemma EndedOf(r: State, id: int)
    ensures id in PastOf(r).ended <==> Completed(r, id) || id in r.cancelled
  {
    hide State.Log;
    EndedMeans(r.Log(), r.cancelled);
  }

  lemma KeptOrder(rest: Rest, p: Past, side: Side, id: int)
    requires Kept(rest, p, side) && id in p.placed && p.placed[id].side == side
    ensures rest.Has(id) <==> id !in p.ended
    ensures forall o, x | rest.Live(o) && rest.Live(x) && o.id == x.id == id :: o == x
    ensures forall o | rest.Live(o) && o.id == id :: Filled(p.trades, side, id) + o.amount == p.placed[id].amount
  {
    hide Rest.Live, Filled;
    if rest.Has(id) {
      var o :| rest.Live(o) && o.id == id;
      assert Fact(p, side, o);
    }
  }

  lemma LoggedOrder(r: State, id: int)
    requires LogFits(PastOf(r), r.Log()) && CancelsFit(PastOf(r), r.Log(), r.cancelled) && id in r.placed
    ensures var filled := Filled(r.trades, r.placed[id].side, id);
            && (Completed(r, id) ==> filled == r.placed[id].amount && id !in r.cancelled)
            && (id in r.cancelled ==> filled < r.placed[id].amount)
  {
    hide Filled, EndedIds;
  }

  /**
   * A completed order is filled to its last unit, is completed once and never cancelled, is nowhere on the market, and
   * has one quote, at its price; what was logged before the start stays.
   */
  lemma CompletedOrdersAreDone(s: State, acts: seq<Act>, i: nat)
    requires Reachable(s, acts) && i < |After(s, acts).Log()|
    ensures var r := After(s, acts);
            var o := r.Log()[i];
            && r.data.completed == s.data.completed + r.Log() && r.data.quotes == s.data.quotes + r.Quotes()
            && o.id in r.placed && Filled(r.trades, o.side, o.id) == r.placed[o.id].amount && o.amount == 0
            && o.id !in r.cancelled && !RestOf(r, r.placed[o.id].side).Has(o.id)
            && (forall j | 0 <= j < |r.Log()| && r.Log()[j].id == o.id :: j == i)
            && |r.Quotes()| == |r.Log()| && r.Quotes()[i].price == o.price
  {
    hide Start, Runs, After, SidesFit, RecordsFit, HandlerFits, Accounted, AnswersFit, LoopFits, TradesFit, State.Log;
    hide Filled;
    var r := After(s, acts);
    ReachableBase(s, acts);
    PriorLogsStay(s, acts);
    CompletionsOf(r, i);
    EveryOrderIsAccountedFor(s, acts, r.Log()[i].id);
    LogsAreAppended(r);
  }

  lemma CompletionsOf(r: State, i: nat)
    requires SidesFit(r) && i < |r.Log()|
    ensures var o := r.Log()[i];
            && o.id in r.placed && Filled(r.trades, o.side, o.id) == r.placed[o.id].amount && o.amount == 0
            && Completed(r, o.id) && forall j | 0 <= j < |r.Log()| && r.Log()[j].id == o.id :: j == i
  {
    hide Filled, Kept, EndedIds, CancelsFit, State.Log, RestOf;
    var o := r.Log()[i];
    assert o in r.Log();
    forall j | 0 <= j < |r.Log()| && r.Log()[j].id == o.id
      ensures j == i
    {
      assert !(j < i) && !(i < j);
    }
  }

  lemma LogsAreAppended(r: State)
    requires Logged(r.data, r.logBefore, r.quotesBefore)
    ensures r.data.completed == r.logBefore + r.Log() && r.data.quotes == r.quotesBefore + r.Quotes()
    ensures |r.Quotes()| == |r.Log()| && forall i | 0 <= i < |r.Log()| :: r.Quotes()[i].price == r.Log()[i].price
  {
  }

  lemma {:induction false} PriorLogsStay(s: State, acts: seq<Act>)
    requires Reachable(s, acts)
    ensures After(s, acts).logBefore == s.data.completed && After(s, acts).quotesBefore == s.data.quotes
    decreases |acts|
  {
    hide Next, Enabled, StartSide;
    if acts != [] {
      var n := |acts| - 1;
      PriorLogsStay(s, acts[..n]);
      StepKeepsHistory(After(s, acts[..n]), acts[n]);
    }
  }

  ghost predicate SameHistory(s: State, r: State) {
    r.logBefore == s.logBefore && r.quotesBefore == s.quotesBefore && r.tablesBefore == s.tablesBefore
  }

  lemma HandlerKeepsHistory(s: State, a: Act)
    requires Enabled(s, a) && OfHandler(a)
    ensures SameHistory(s, Next(s, a))
  {
    hide Without, PushActive, RemoveActive, HasId;
  }

  lemma MatcherKeepsHistory(s: State, a: Act)
    requires Enabled(s, a) && !OfHandler(a)
    ensures SameHistory(s, Next(s, a))
  {
    hide UpdateActive, ChangeBalances, Tradable, CompleteIfEmpty, Joined, Rested, Less, More, Trade.After;
  }

  lemma StepKeepsHistory(s: State, a: Act)
    requires Enabled(s, a)
    ensures SameHistory(s, Next(s, a))
  {
    hide SameHistory, Next, Enabled, OfHandler;
    if OfHandler(a) {
      HandlerKeepsHistory(s, a);
    } else {
      MatcherKeepsHistory(s, a);
    }
  }

  /** A quote of a completed order: at its price, with the clock reading of the trade that left it empty. */
  predicate QuotedFrom(t: Trade, o: Order, q: Quote) {
    || (o == t.After(Buy) && q == Quote(o.price, t.buyTime))
    || (o == t.After(Sell) && q == Quote(o.price, t.sellTime))
  }

  ghost predicate QuotedFromSome(trades: seq<Trade>, o: Order, q: Quote) {
    exists t :: t in trades && QuotedFrom(t, o, q)
  }

  ghost predicate QuotesAreTimed(log: seq<Order>, quotes: seq<Quote>, trades: seq<Trade>) {
    |quotes| == |log| && forall i | 0 <= i < |log| :: QuotedFromSome(trades, log[i], quotes[i])
  }

  lemma OneMoreTrade(log: seq<Order>, quotes: seq<Quote>, trades: seq<Trade>, t: Trade)
    requires QuotesAreTimed(log, quotes, trades)
    ensures QuotesAreTimed(log, quotes, trades + [t])
  {
    hide QuotedFrom;
    assert forall u | u in trades :: u in trades + [t];
  }

  lemma OneMoreQuote(log: seq<Order>, quotes: seq<Quote>, trades: seq<Trade>, t: Trade, o: Order, q: Quote)
    requires QuotesAreTimed(log, quotes, trades) && t in trades && QuotedFrom(t, o, q)
    ensures QuotesAreTimed(log + [o], quotes + [q], trades)
  {
    assert QuotedFromSome(trades, o, q);
    hide QuotedFromSome;
  }

  lemma OnlyClosingLogs(s: State, a: Act)
    requires Enabled(s, a) && !a.CloseBuy? && !a.CloseSell?
    ensures Next(s, a).data.completed == s.data.completed && Next(s, a).data.quotes == s.data.quotes
  {
    if a.LowerSell? || a.LowerBuy? || a.MoveMoney? {
      RecordingKeepsLogs(s, a);
    } else {
      hide Without, Tradable, Joined, Rested, HasId, Less, More, Trade.After, UpdateActive, ChangeBalances;
      hide CompleteIfEmpty;
    }
  }

  lemma RecordingKeepsLogs(s: State, a: Act)
    requires Enabled(s, a) && (a.LowerSell? || a.LowerBuy? || a.MoveMoney?)
    ensures Next(s, a).data.completed == s.data.completed && Next(s, a).data.quotes == s.data.quotes
  {
    hide Without, Tradable, Joined, Rested, HasId, Less, More, Trade.After, UpdateActive, ChangeBalances;
    hide CompleteIfEmpty, PushActive, RemoveActive;
    var t := s.matcher.t;
    UpdateKeepsRest(s.data, t.sell.side, t.sell.id, t.Amount());
    UpdateKeepsRest(s.data, t.buy.side, t.buy.id, t.Amount());
    MoneyKeepsOrders(s.data, t.sell.client, t.buy.client, t.Amount(), t.Cost());
  }

  lemma ClosingQuotes(s: State, a: Act)
    requires Base(s) && Enabled(s, a) && (a.CloseBuy? || a.CloseSell?)
    requires QuotesAreTimed(s.Log(), s.Quotes(), s.trades)
    ensures var r := Next(s, a); QuotesAreTimed(r.Log(), r.Quotes(), r.trades)
  {
    hide SidesFit, RecordsFit, HandlerFits, Accounted, AnswersFit, LoopFits, Held, Trade.After, RemoveActive;
    hide QuotesAreTimed, QuotesMatch, GoodTrade;
    CloseHands(s, a);
    var t, r := s.matcher.t, Next(s, a);
    assert t in s.trades;
    var side := if a.CloseBuy? then Buy else Sell;
    var o, time := t.After(side), if a.CloseBuy? then t.buyTime else t.sellTime;
    if o.amount == 0 {
      RemovalKeepsLogs(s.data, o.side, o.id);
      assert r.Log() == s.Log() + [o] && r.Quotes() == s.Quotes() + [Quote(o.price, time)];
      OneMoreQuote(s.Log(), s.Quotes(), s.trades, t, o, Quote(o.price, time));
    }
  }

  lemma RemovalKeepsLogs(d: ClientData, side: Side, id: int)
    ensures var e := RemoveActive(d, side, id).0; e.completed == d.completed && e.quotes == d.quotes
  {
  }

  lemma StepQuotes(s: State, a: Act)
    requires Base(s) && Enabled(s, a) && QuotesAreTimed(s.Log(), s.Quotes(), s.trades)
    ensures var r := Next(s, a); QuotesAreTimed(r.Log(), r.Quotes(), r.trades)
  {
    hide Base, Next, Enabled, QuotesAreTimed;
    if a.CloseBuy? || a.CloseSell? {
      ClosingQuotes(s, a);
    } else {
      OnlyClosingLogs(s, a);
      StepKeepsHistory(s, a);
      PlacedStays(s, a);
      if a.Match? {
        OneMoreTrade(s.Log(), s.Quotes(), s.trades, a.t);
      }
    }
  }

  lemma {:induction false} RunsTimeTheirQuotes(s: State, acts: seq<Act>)
    requires Reachable(s, acts)
    ensures var r := After(s, acts); QuotesAreTimed(r.Log(), r.Quotes(), r.trades)
    decreases |acts|
  {
    hide Next, Enabled, Base, StartSide, State.Log, State.Quotes;
    if acts == [] {
      NothingQuoted(s);
    } else {
      var n := |acts| - 1;
      RunsTimeTheirQuotes(s, acts[..n]);
      ReachableBase(s, acts[..n]);
      StepQuotes(After(s, acts[..n]), acts[n]);
    }
  }

  lemma NothingQuoted(s: State)
    requires Start(s)
    ensures QuotesAreTimed(s.Log(), s.Quotes(), s.trades)
  {
    hide StartSide;
  }

  /**
   * The quotes recorded since the start are those of the completed orders, in order, each with the order's price and
   * the clock reading taken when the trade that emptied it was recorded.
   */
  lemma QuotesCarryCompletionTimes(s: State, acts: seq<Act>, i: nat) returns (t: Trade)
    requires Reachable(s, acts) && i < |After(s, acts).Log()|
    ensures var r := After(s, acts);
            && |r.Quotes()| == |r.Log()| && t in r.trades
            && ((r.Log()[i] == t.After(Buy) && r.Quotes()[i] == Quote(t.buy.price, t.buyTime))
                || (r.Log()[i] == t.After(Sell) && r.Quotes()[i] == Quote(t.sell.price, t.sellTime)))
  {
    RunsTimeTheirQuotes(s, acts);
    hide Start, Runs, After, State.Log, State.Quotes;
    var r := After(s, acts);
    assert QuotedFromSome(r.trades, r.Log()[i], r.Quotes()[i]);
    t :| t in r.trades && QuotedFrom(t, r.Log()[i], r.Quotes()[i]);
  }

  /** A cancel that answered true took its order off the book, once, with something open; it is never completed. */
  lemma CancelledOrdersAreGone(s: State, acts: seq<Act>, i: nat)
    requires Reachable(s, acts) && i < |Successes(After(s, acts).answers)|
    ensures var r := After(s, acts);
            var id := Successes(r.answers)[i];
            && id in r.cancelled && id in r.placed && !Completed(r, id) && !RestOf(r, r.placed[id].side).Has(id)
            && (forall j | 0 <= j < |Successes(r.answers)| && Successes(r.answers)[j] == id :: j == i)
            && Filled(r.trades, r.placed[id].side, id) < r.placed[id].amount
  {
    hide Start, Runs, After, SidesFit, RecordsFit, HandlerFits, Accounted, Logged, LoopFits, TradesFit, State.Log;
    hide Filled, Successes, Completed, Rest.Has;
    var r := After(s, acts);
    ReachableBase(s, acts);
    CancelsOf(r);
    assert r.cancelled[i] == Successes(r.answers)[i];
    EveryOrderIsAccountedFor(s, acts, r.cancelled[i]);
    forall j | 0 <= j < |Successes(r.answers)| && Successes(r.answers)[j] == r.cancelled[i]
      ensures j == i
    {
      assert r.cancelled[j] == Successes(r.answers)[j] && !(j < i) && !(i < j);
    }
  }

  lemma CancelsOf(r: State)
    requires SidesFit(r)
    ensures forall i | 0 <= i < |r.cancelled| :: r.cancelled[i] in r.placed
    ensures forall i, j | 0 <= i < j < |r.cancelled| :: r.cancelled[i] != r.cancelled[j]
  {
    hide Filled, Kept, EndedIds, LogFits, State.Log, RestOf;
    forall i | 0 <= i < |r.cancelled|
      ensures r.cancelled[i] in r.placed
    {
      assert LeftOpen(PastOf(r), r.cancelled[i]);
    }
  }

  // ---------- Accounts ----------

  lemma TradesOf(r: State)
    requires TradesFit(r.matcher, r.trades) && forall t | t in r.settled :: t in r.trades
    ensures forall t | t in r.settled :: t.Amount() >= 0 && Crosses(t.buy.price, t.sell.price)
  {
    forall t | t in r.settled
      ensures t.Amount() >= 0 && Crosses(t.buy.price, t.sell.price)
    {
      assert t in r.trades && GoodTrade(t);
    }
  }

  /** Any two distinct limit prices ever placed are at least EPSILON apart. */
  ghost predicate SpacedMarket(r: State) {
    Spaced(iset id | id in r.placed :: r.placed[id].price)
  }

  lemma AccountOf(r: State, c: string)
    requires Accounted(r.data.funds, r.opening, r.placed, r.trades, r.settled) && c in r.opening
    ensures c in r.data.funds
    ensures r.data.funds[c].usd == r.opening[c].usd + UsdFlow(r.settled, c) as real
    ensures r.data.funds[c].rub == r.opening[c].rub + RubFlow(r.settled, c)
    ensures forall t | t in r.settled :: t in r.trades
  {
    hide UsdFlow, RubFlow;
    assert c in r.data.funds.Keys;
  }

  /**
   * In every reachable state each client's dollars are its opening dollars plus its buys minus its sells over the
   * trades settled, and its roubles never fall below what its own limits promise, give or take EPSILON per dollar sold.
   */
  lemma AccountsFollowTrades(s: State, acts: seq<Act>, c: string)
    requires Reachable(s, acts) && c in After(s, acts).opening
    ensures var r := After(s, acts);
            && c in r.data.funds
            && r.data.funds[c].usd == r.opening[c].usd + UsdFlow(r.settled, c) as real
            && r.data.funds[c].rub == r.opening[c].rub + RubFlow(r.settled, c)
            && r.data.funds[c].rub >= r.opening[c].rub + LimitFlow(r.settled, c, EPSILON)
  {
    hide Start, Runs, After, SidesFit, RecordsFit, HandlerFits, Accounted, Logged, LoopFits, TradesFit, AnswersFit;
    hide UsdFlow, RubFlow, LimitFlow;
    ReachableBase(s, acts);
    var r := After(s, acts);
    AccountOf(r, c);
    TradesOf(r);
    LimitsAreHonoured(r.settled, c, EPSILON);
  }

  ghost predicate TradesArePlaced(s: State) {
    forall t | t in s.trades ::
      && t.buy.id in s.placed && s.placed[t.buy.id].price == t.buy.price
      && t.sell.id in s.placed && s.placed[t.sell.id].price == t.sell.price
  }

  lemma PlacedStays(s: State, a: Act)
    requires Enabled(s, a)
    ensures forall id | id in s.placed :: id in Next(s, a).placed && Next(s, a).placed[id] == s.placed[id]
    ensures Next(s, a).trades == if a.Match? then s.trades + [a.t] else s.trades
  {
    hide UpdateActive, ChangeBalances, Without, Tradable, CompleteIfEmpty, Joined, Rested, PushActive, RemoveActive;
    hide HasId, Less, More, Trade.After;
  }

  lemma TradedPricesWerePlaced(s: State, a: Act)
    requires Base(s) && Enabled(s, a) && TradesArePlaced(s)
    ensures TradesArePlaced(Next(s, a))
  {
    hide SidesFit, RecordsFit, HandlerFits, Accounted, Logged, LoopFits, TradesFit, AnswersFit, Next;
    PlacedStays(s, a);
    if a.Match? {
      TradableFits(s, a.t);
    }
  }

  lemma {:induction false} RunsTradePlacedPrices(s: State, acts: seq<Act>)
    requires Reachable(s, acts)
    ensures TradesArePlaced(After(s, acts))
    decreases |acts|
  {
    hide Next, Enabled, Base, StartSide;
    if acts != [] {
      var n := |acts| - 1;
      RunsTradePlacedPrices(s, acts[..n]);
      ReachableBase(s, acts[..n]);
      TradedPricesWerePlaced(After(s, acts[..n]), acts[n]);
    }
  }

  /** With spaced prices every trade is at or above its seller's limit, so no client falls below its limits. */
  lemma SpacedAccountsHonourLimits(s: State, acts: seq<Act>, c: string)
    requires Reachable(s, acts) && c in After(s, acts).opening && SpacedMarket(After(s, acts))
    ensures var r := After(s, acts);
            c in r.data.funds && r.data.funds[c].rub >= r.opening[c].rub + LimitFlow(r.settled, c, 0.0)
  {
    hide Start, Runs, After, SidesFit, RecordsFit, HandlerFits, Accounted, Logged, LoopFits, TradesFit, AnswersFit;
    hide UsdFlow, RubFlow, LimitFlow;
    ReachableBase(s, acts);
    RunsTradePlacedPrices(s, acts);
    var r := After(s, acts);
    AccountOf(r, c);
    TradesOf(r);
    var prices := iset id | id in r.placed :: r.placed[id].price;
    forall t | t in r.settled
      ensures t.buy.price >= t.sell.price - 0.0
    {
      assert t in r.trades;
      assert t.buy.price in prices && t.sell.price in prices;
    }
    LimitsAreHonoured(r.settled, c, 0.0);
  }

  lemma FundsStay(s: State, a: Act)
    requires Enabled(s, a) && !a.SignUp? && !a.MoveMoney?
    ensures Next(s, a).data.funds == s.data.funds
  {
    hide Without, Tradable, Joined, Rested, HasId, Less, More, Trade.After, UpdateActive, ChangeBalances;
    if a.LowerSell? || a.LowerBuy? {
      var o := if a.LowerSell? then s.matcher.t.sell else s.matcher.t.buy;
      UpdateKeepsRest(s.data, o.side, o.id, s.matcher.t.Amount());
    }
  }

  lemma KeepsMoney(s: State, a: Act)
    requires Base(s) && Enabled(s, a)
    ensures SameSums(s.data, Next(s, a).data)
  {
    hide SidesFit, RecordsFit, HandlerFits, Logged, LoopFits, AnswersFit, UsdFlow, RubFlow, ChangeBalances;
    if a.SignUp? {
      MapSumUpdate(s.data.funds, a.client, Balance(0.0, 0.0), UsdOf());
      MapSumUpdate(s.data.funds, a.client, Balance(0.0, 0.0), RubOf());
    } else if a.MoveMoney? {
      var t := s.matcher.t;
      GoodHand(s);
      GoodTradeAmounts(t);
      assert t in s.trades && t.sell.client in s.data.funds.Keys && t.buy.client in s.data.funds.Keys;
      MatchConservesMoneyIff(s.data, t.sell.client, t.buy.client, t.Amount(), t.Cost());
    } else {
      hide Next;
      FundsStay(s, a);
    }
  }

  /** No run creates or destroys dollars or roubles. */
  lemma {:induction false} MoneyIsConserved(s: State, acts: seq<Act>)
    requires Reachable(s, acts)
    ensures SameSums(s.data, After(s, acts).data)
    decreases |acts|
  {
    hide Next, Enabled, Base, Start;
    if acts != [] {
      var n := |acts| - 1;
      MoneyIsConserved(s, acts[..n]);
      ReachableBase(s, acts[..n]);
      KeepsMoney(After(s, acts[..n]), acts[n]);
    }
  }

  // ---------- Books and active maps ----------

  lemma TimelyInv(s: State, acts: seq<Act>)
    requires Reachable(s, acts) && Timely(s, acts)
    ensures Inv(Caught(After(s, acts)))
    ensures !After(s, acts).handler.Enqueued? ==> Inv(After(s, acts))
  {
    hide Inv, Start, Timely;
    InvIffTimely(s, acts);
  }

  /**
   * Between two turns of the matcher, and with the handler not between the two parts of a make-order or a cancel, the
   * active map of a side holds exactly the orders of its queue and book, each once and with its current amount.
   */
  lemma BookAndActiveMapAgree(s: State, acts: seq<Act>, side: Side, o: Order)
    requires Reachable(s, acts) && Timely(s, acts)
    requires var r := After(s, acts);
             && !InHand(r.matcher) && r.matcher != Out(true)
             && !r.handler.CancelRemoved? && !r.handler.Enqueued?
    ensures var r := After(s, acts);
            && (o.id in r.data.Active(side) && r.data.Active(side)[o.id] == o
                <==> o in r.Queue(side) || o in r.books.Of(side))
            && (o in r.Queue(side) ==> o !in r.books.Of(side))
            && r.books.Of(side)[o] <= 1
  {
    TimelyInv(s, acts);
    hide Start, Runs, Timely, After, Base, Trade.After;
    var r := After(s, acts);
    assert View(r, side).Agrees();
    if o.id in r.data.Active(side) && r.data.Active(side)[o.id] == o {
      assert View(r, side).Live(o);
    } else if o in r.Queue(side) || o in r.books.Of(side) {
      assert View(r, side).Shows(o);
    }
  }

  /** Every trade is paid, but one that is still being recorded. */
  lemma TimelyRunsSettle(s: State, acts: seq<Act>)
    requires Reachable(s, acts) && Timely(s, acts)
    ensures After(s, acts).settled == PaidTrades(After(s, acts))
  {
    hide Start, Runs, Timely, After, Base, InStep, PushActive;
    TimelyInv(s, acts);
    assert Caught(After(s, acts)).settled == After(s, acts).settled;
  }

  lemma HandIsOpen(r: State, side: Side)
    requires Base(r) && Hand(r.matcher, side) != []
    ensures Hand(r.matcher, side)[0].id !in PastOf(r).ended
  {
    hide Base, PastOf;
    var held := Held(r.matcher, side)[0];
    assert held in Held(r.matcher, side) && held.id == Hand(r.matcher, side)[0].id;
    LiveOnMarket(r, side, held);
  }

  lemma LiveOnMarket(r: State, side: Side, o: Order)
    requires Base(r) && (o in r.Queue(side) || o in Shelf(r, side) || o in Held(r.matcher, side))
    ensures o.id !in PastOf(r).ended
  {
    hide Fact, EndedIds, Held, State.Queue, Rest.Orderly, Found;
    assert Kept(RestOf(r, side), PastOf(r), side);
    assert RestOf(r, side).Live(o);
    OpenFact(PastOf(r), side, o);
  }

  lemma OpenFact(p: Past, side: Side, o: Order)
    requires Fact(p, side, o)
    ensures o.id !in p.ended
  {
  }

  lemma EndedIsInactive(r: State, side: Side, id: int)
    requires Inv(r) && id in PastOf(r).ended && id in r.data.Active(side)
    ensures id in Leaving(r.handler, side)
  {
    hide Base, PastOf, Hand, Shelf, Held, PaidTrades;
    var v := View(r, side);
    assert v.Agrees();
    if id !in v.leaving {
      var o := v.active[id];
      assert o.id == id && v.Live(o);
      if o in v.hand {
        HandIsOpen(r, side);
      } else {
        LiveOnMarket(r, side, o);
      }
    }
  }

  /** An order that is completed or cancelled is in no active map, but for the cancel that has not answered yet. */
  lemma EndedOrdersAreInactive(s: State, acts: seq<Act>, side: Side, id: int)
    requires Reachable(s, acts) && Timely(s, acts)
    requires var r := After(s, acts); (Completed(r, id) || id in r.cancelled) && id in r.data.Active(side)
    ensures var r := After(s, acts);
            r.handler.CancelRemoved? && r.handler.side == side && r.handler.id == id && !Completed(r, id)
  {
    hide Start, Runs, Timely, After, Inv, Base, Completed, Caught;
    TimelyInv(s, acts);
    ReachableBase(s, acts);
    EndedIsLeaving(After(s, acts), side, id);
  }

  lemma EndedIsLeaving(r: State, side: Side, id: int)
    requires Base(r) && Inv(Caught(r)) && (Completed(r, id) || id in r.cancelled) && id in r.data.Active(side)
    ensures r.handler.CancelRemoved? && r.handler.side == side && r.handler.id == id && !Completed(r, id)
  {
    hide Base, Inv, EndedIds, Caught;
    CaughtHistory(r, side, id);
    EndedMeans(r.Log(), r.cancelled);
    EndedIsInactive(Caught(r), side, id);
    LeavingIsCancelled(r, id);
  }

  lemma CaughtHistory(r: State, side: Side, id: int)
    requires id in r.data.Active(side)
    ensures PastOf(Caught(r)) == PastOf(r) && id in Caught(r).data.Active(side)
    ensures !r.handler.CancelRemoved? ==> Leaving(Caught(r).handler, side) == {}
    ensures r.handler.CancelRemoved? ==> Caught(r) == r
  {
    hide EndedIds;
  }

  lemma LeavingIsCancelled(r: State, id: int)
    requires Base(r) && r.handler.CancelRemoved? && r.handler.id == id
    ensures !Completed(r, id)
  {
    hide Kept, LogFits, EndedIds;
    assert id in r.cancelled;
  }

  // ---------- The fine steps of one match make up one trade ----------

  /** The two orders of a match are in their active maps, so both updates find them. */
  lemma MatchedOrdersAreActive(s: State, t: Trade)
    requires Inv(s) && Enabled(s, Match(t))
    ensures t.buy.side == Buy && t.sell.side == Sell
    ensures var (d, ok) := UpdateActive(s.data, Sell, t.sell.id, t.Amount());
            ok && UpdateActive(d, Buy, t.buy.id, t.Amount()).1
  {
    hide Base, PaidTrades, InStep, Crosses;
    MatchedOrdersFit(s, t);
    TakenAreShown(s, t);
    hide Inv, Narrow;
  }

  lemma MatchedOrdersFit(s: State, t: Trade)
    requires Base(s) && Enabled(s, Match(t))
    ensures t.buy.side == Buy && t.sell.side == Sell
  {
    hide SidesFit;
    TradableFits(s, t);
  }

  lemma TakenAreShown(s: State, t: Trade)
    requires InStep(s) && Enabled(s, Match(t))
    ensures t.buy.id in s.data.activeBuys && t.sell.id in s.data.activeSells
  {
    hide Crosses, Hand;
    assert t.buy in s.books.Of(Buy) && t.sell in s.books.Of(Sell);
    assert View(s, Buy).Shows(t.buy) && View(s, Sell).Shows(t.sell);
  }

  lemma SettlingStates(s: State, t: Trade)
    requires Enabled(s, Match(t)) && t.buy.side == Buy && t.sell.side == Sell
    requires var (d, ok) := UpdateActive(s.data, Sell, t.sell.id, t.Amount());
             ok && UpdateActive(d, Buy, t.buy.id, t.Amount()).1
    ensures var r1 := Next(s, Match(t));
            && Enabled(r1, LowerSell) && Enabled(Next(r1, LowerSell), LowerBuy)
            && Enabled(Next(Next(r1, LowerSell), LowerBuy), MoveMoney)
            && r1 == s.(books := Books(Less(s.books.buys, t.buy), Less(s.books.sells, t.sell)), matcher := Popped(t),
                        trades := s.trades + [t])
    ensures var r1 := Next(s, Match(t));
            var r := Next(Next(Next(r1, LowerSell), LowerBuy), MoveMoney);
            r == r1.(data := Settle(s.data, t).0, matcher := Matched(t), settled := r.settled)
  {
    hide UpdateActive, ChangeBalances, Tradable, Less;
  }

  lemma LeadsNowhere(s: State)
    ensures Leads(s, [], s)
  {
  }

  lemma MatchStepsSettle(s: State, t: Trade) returns (r: State)
    requires Inv(s) && Enabled(s, Match(t))
    ensures Leads(s, [] + [Match(t)] + [LowerSell] + [LowerBuy] + [MoveMoney], r) && Inv(r)
    ensures r == s.(data := Settle(s.data, t).0, matcher := Matched(t), trades := s.trades + [t], settled := r.settled,
                    books := Books(Less(s.books.buys, t.buy), Less(s.books.sells, t.sell)))
  {
    hide Leads, Inv, Next, Enabled, UpdateActive, Settle, Less;
    MatchedOrdersAreActive(s, t);
    SettlingStates(s, t);
    LeadsNowhere(s);
    var acts;
    r, acts := StepOn(s, [], s, Match(t));
    r, acts := StepOn(s, acts, r, LowerSell);
    r, acts := StepOn(s, acts, r, LowerBuy);
    r, acts := StepOn(s, acts, r, MoveMoney);
  }

  /** With the matcher at its loop head, a match and the six steps that follow it record one trade. */
  lemma MatchStepsRecordATrade(s: State, t: Trade) returns (r: State)
    requires Inv(s) && s.matcher.LoopHead? && Tradable(s.books, t)
    ensures Leads(s, [] + [Match(t)] + [LowerSell] + [LowerBuy] + [MoveMoney] + [CloseBuy] + [CloseSell] + [PutBack], r)
    ensures r == s.(data := Record(s.data, t), books := Apply(s.books, t), trades := s.trades + [t],
                    settled := s.trades + [t])
    ensures Inv(r)
  {
    hide Leads, Inv, Settle, CompleteIfEmpty, Tradable, Next, Apply, Less;
    r := MatchStepsSettle(s, t);
    ClosingStates(s, r, t);
    var acts := [] + [Match(t)] + [LowerSell] + [LowerBuy] + [MoveMoney];
    r, acts := StepOn(s, acts, r, CloseBuy);
    r, acts := StepOn(s, acts, r, CloseSell);
    r, acts := StepOn(s, acts, r, PutBack);
    PaidAtRest(r);
  }

  lemma ClosingStates(s: State, r: State, t: Trade)
    requires r.matcher == Matched(t)
    requires r.data == Settle(s.data, t).0 && r.books == Books(Less(s.books.buys, t.buy), Less(s.books.sells, t.sell))
    ensures Enabled(r, CloseBuy) && Enabled(Next(r, CloseBuy), CloseSell)
    ensures Enabled(Next(Next(r, CloseBuy), CloseSell), PutBack)
    ensures Next(Next(Next(r, CloseBuy), CloseSell), PutBack)
         == r.(data := Record(s.data, t), books := Apply(s.books, t), matcher := LoopHead)
  {
    hide Settle, CompleteIfEmpty, Less, More, Trade.After;
  }

  lemma PaidAtRest(r: State)
    requires Inv(r) && r.matcher.LoopHead?
    ensures r.settled == r.trades
  {
    hide Base, InStep;
  }

  lemma StepOn(s: State, before: seq<Act>, r: State, a: Act) returns (r': State, acts: seq<Act>)
    requires Leads(s, before, r) && Inv(r) && Enabled(r, a) && !a.Enqueue?
    ensures acts == before + [a] && r' == Next(r, a) && Leads(s, acts, r') && Inv(r')
  {
    hide Leads, Inv, Enabled, Next;
    LeadsOn(s, before, r, a);
    KeepsInv(r, a);
    r', acts := Next(r, a), before + [a];
  }

  /** The actions lead from s to r. */
  ghost predicate Leads(s: State, acts: seq<Act>, r: State) {
    Runs(s, acts) && After(s, acts) == r
  }

  lemma LeadsOn(s: State, acts: seq<Act>, r: State, a: Act)
    requires Leads(s, acts, r) && Enabled(r, a)
    ensures Leads(s, acts + [a], Next(r, a))
  {
    assert (acts + [a])[..|acts|] == acts;
    hide Next, Enabled;
  }

  // ---------- make-order is atomic along timely runs ----------

  /** Every timely run is a run of the exchange whose make-order is one step. */
  lemma {:induction false} TimelyRunsRefineAtomicMake(s: State, acts: seq<Act>) returns (trace: seq<State>)
    requires Reachable(s, acts) && Timely(s, acts)
    ensures |trace| == |acts| + 1 && trace[0] == s && trace[|acts|] == Caught(After(s, acts))
    ensures forall i | 0 <= i < |acts| :: AtomicMakeStep(trace[i], trace[i + 1])
    decreases |acts|
  {
    hide AtomicMakeStep, Caught, Start, After, Runs, Timely;
    if acts == [] {
      StartCaught(s);
      NoActs(s);
      trace := [s];
    } else {
      LastMakeStep(s, acts);
      trace := TimelyRunsRefineAtomicMake(s, acts[..|acts| - 1]);
      trace := trace + [Caught(After(s, acts))];
    }
  }

  lemma NoActs(s: State)
    ensures Runs(s, []) && After(s, []) == s
  {
  }

  lemma StartCaught(s: State)
    requires Start(s)
    ensures InvOnceCaught(s) && Caught(s) == s
  {
    hide Start, InvOnceCaught, Inv, Caught, Owed;
    StartSatisfiesInv(s);
    CaughtUp(s);
  }

  lemma LastMakeStep(s: State, acts: seq<Act>)
    requires Reachable(s, acts) && Timely(s, acts) && acts != []
    ensures var before := acts[..|acts| - 1];
            && Reachable(s, before) && Timely(s, before)
            && AtomicMakeStep(Caught(After(s, before)), Caught(After(s, acts)))
  {
    hide AtomicMakeStep, Next, Enabled, InvOnceCaught, Misses, Caught, Start;
    var n := |acts| - 1;
    StartCaught(s);
    TimelyRunsKeepInv(s, acts[..n]);
    KeepsInvOnceCaught(After(s, acts[..n]), acts[n]);
  }

  // ---------- A run that is not timely ----------

  function Ask(): Order {
    Order(Sell, 61.0, 10, 1, 1, 10, "maker")
  }

  function Bid(): Order {
    Order(Buy, 62.0, 10, 2, 2, 10, "taker")
  }

  /** One resting ask, two known clients. */
  function TwoClients(): State {
    var funds := map["maker" := Balance(0.0, 0.0), "taker" := Balance(0.0, 0.0)];
    var none := Books(multiset{}, multiset{});
    State(true, [], [], Books(multiset{}, multiset{Ask()}), none, ClientData(funds, map[], map[1 := Ask()], [], []),
          AtGuard, Idle, none, [], [], funds, map[1 := Ask()], [], [], [], [], none)
  }

  function LateTrade(): Trade {
    Trade(Bid(), Ask(), 3, 3)
  }

  /** The bid is absorbed before it is in the active map. */
  function BidAbsorbed(): State {
    TwoClients().(books := Books(multiset{Bid()}, multiset{Ask()}), matcher := LoopHead, handler := Enqueued(Bid()),
                  placed := map[1 := Ask(), 2 := Bid()])
  }

  /** It has traded: the ask's record is lowered, the bid's is not found, and no money has moved. */
  function BidTraded(): State {
    BidAbsorbed().(books := Books(multiset{}, multiset{}), matcher := Matched(LateTrade()), trades := [LateTrade()],
                   data := TwoClients().data.(activeSells := map[1 := Ask().(amount := 0)]))
  }

  /** Both are logged as completed; then the handler inserts the bid as it was accepted. */
  function BidInserted(): State {
    BidTraded().(
      matcher := AtGuard, handler := Idle,
      data := ClientData(TwoClients().opening, map[2 := Bid()], map[],
                         [Bid().(amount := 0), Ask().(amount := 0)], [Quote(62.0, 3), Quote(61.0, 3)]))
  }

  lemma WakesUp() returns (acts: seq<Act>)
    ensures Leads(TwoClients(), acts, Accepted(TwoClients(), Bid()).(handler := Enqueued(Bid()), matcher := Absorbing(Buy)))
  {
    var s := TwoClients();
    LeadsNowhere(s);
    hide Leads;
    var r := Next(s, Enqueue(Bid()));
    LeadsOn(s, [], s, Enqueue(Bid()));
    acts := [] + [Enqueue(Bid())];
    LeadsOn(s, acts, r, ReadGuard);
    acts := acts + [ReadGuard];
    LeadsOn(s, acts, r.(matcher := Waiting), Enter);
    acts := acts + [Enter];
  }

  lemma AbsorbsEarly() returns (acts: seq<Act>)
    ensures Leads(TwoClients(), acts, BidAbsorbed())
  {
    var s := TwoClients();
    hide Leads;
    acts := WakesUp();
    var r := Accepted(s, Bid()).(handler := Enqueued(Bid()), matcher := Absorbing(Buy));
    LeadsOn(s, acts, r, Absorb);
    acts := acts + [Absorb];
    var q := Next(r, Absorb);
    assert q == BidAbsorbed().(matcher := Absorbing(Buy));
    LeadsOn(s, acts, q, NextQueue);
    acts := acts + [NextQueue];
    LeadsOn(s, acts, q.(matcher := Absorbing(Sell)), NextQueue);
    acts := acts + [NextQueue];
    LeadsOn(s, acts, q.(matcher := AtCheck), ReadFlag);
    acts := acts + [ReadFlag];
  }

  lemma TradesUnrecorded(s: State, before: seq<Act>) returns (acts: seq<Act>)
    requires Leads(s, before, BidAbsorbed())
    ensures Leads(s, acts, BidTraded())
  {
    hide Leads;
    var t, r := LateTrade(), BidAbsorbed();
    assert Less(r.books.buys, Bid()) == multiset{} && Less(r.books.sells, Ask()) == multiset{};
    LeadsOn(s, before, r, Match(t));
    var r1 := r.(books := Books(multiset{}, multiset{}), matcher := Popped(t), trades := [t]);
    assert Next(r, Match(t)) == r1;
    LeadsOn(s, before + [Match(t)], r1, LowerSell);
    var r2 := BidTraded().(matcher := SellLowered(t));
    assert r1.data.activeSells[1 := Ask().(amount := 0)] == r2.data.activeSells;
    assert Next(r1, LowerSell) == r2;
    LeadsOn(s, before + [Match(t)] + [LowerSell], r2, LowerBuy);
    acts := before + [Match(t)] + [LowerSell] + [LowerBuy];
  }

  /** Both orders have been logged as completed. */
  function BothLogged(): State {
    BidInserted().(matcher := BothClosed(LateTrade()), handler := Enqueued(Bid()),
                   data := BidInserted().data.(activeBuys := map[]))
  }

  lemma ClosesBoth(s: State, before: seq<Act>) returns (acts: seq<Act>)
    requires Leads(s, before, BidTraded())
    ensures Leads(s, acts, BothLogged())
  {
    hide Leads;
    var t, r := LateTrade(), BidTraded();
    LeadsOn(s, before, r, CloseBuy);
    var r1 := r.(matcher := BuyClosed(t),
                 data := r.data.(completed := [t.After(Buy)], quotes := [Quote(62.0, 3)]));
    assert RemoveActive(r.data, Buy, 2).0 == r.data;
    assert r.data.quotes + [Quote(62.0, 3)] == r1.data.quotes && r.data.completed + [t.After(Buy)] == r1.data.completed;
    assert Next(r, CloseBuy) == r1;
    LeadsOn(s, before + [CloseBuy], r1, CloseSell);
    assert r1.data.activeSells - {1} == map[];
    assert Next(r1, CloseSell) == BothLogged();
    acts := before + [CloseBuy] + [CloseSell];
  }

  lemma InsertsLate(s: State, before: seq<Act>) returns (acts: seq<Act>)
    requires Leads(s, before, BothLogged())
    ensures Leads(s, acts, BidInserted())
  {
    hide Leads;
    var r := BothLogged();
    LeadsOn(s, before, r, PutBack);
    assert Next(r, PutBack) == r.(matcher := LoopHead);
    LeadsOn(s, before + [PutBack], r.(matcher := LoopHead), Leave);
    acts := before + [PutBack] + [Leave];
    LeadsOn(s, acts, r.(matcher := AtGuard), Insert);
    assert Next(r.(matcher := AtGuard), Insert) == BidInserted();
    acts := acts + [Insert];
  }

  lemma LateInsertionDisagrees()
    ensures !InStep(BidInserted()) && BidInserted().settled == [] && PaidTrades(BidInserted()) == [LateTrade()]
  {
    var r := BidInserted();
    assert !View(r, Buy).Agrees() by {
      assert r.data.activeBuys[2] == Bid() && !View(r, Buy).Live(Bid());
    }
  }

  lemma TwoClientsIsAStart()
    ensures Start(TwoClients())
  {
  }

  /**
   * Taken in two steps, make-order loses agreement: a run from a good start, with the matcher's turn between the
   * queue push and the active-map insertion, ends with a completed order listed as active and a trade nobody paid.
   */
  lemma SplitMakeOrderBreaksAgreement() returns (acts: seq<Act>)
    ensures Start(TwoClients()) && Leads(TwoClients(), acts, BidInserted())
    ensures !InStep(BidInserted()) && BidInserted().settled == [] && PaidTrades(BidInserted()) == [LateTrade()]
    ensures Bid().id in BidInserted().data.activeBuys && Bid().(amount := 0) in BidInserted().data.completed
  {
    TwoClientsIsAStart();
    LateInsertionDisagrees();
    BidIsListedAndLogged();
    hide *;
    acts := AbsorbsEarly();
    acts := TradesUnrecorded(TwoClients(), acts);
    acts := ClosesBoth(TwoClients(), acts);
    acts := InsertsLate(TwoClients(), acts);
  }

  lemma BidIsListedAndLogged()
    ensures Bid().id in BidInserted().data.activeBuys && Bid().(amount := 0) in BidInserted().data.completed
  {
    assert BidInserted().data.completed[0] == Bid().(amount := 0);
  }
}
