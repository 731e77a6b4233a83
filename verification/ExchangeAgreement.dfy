/**
 * Books and active maps: they stay in step along every run in which the matcher never looks for the record of an order
 * that make-order has queued and not yet inserted, and they fall out of step for good on every other run.
 */
module ExchangeAgreement {
  import opened Orders
  import opened Sums
  import opened Matching
  import opened Ledger
  import opened PriorityQueue
  import opened Agreement
  import opened Sides
  import opened Exchange
  import opened ExchangeSafety

  // ---------- Every step but the first half of make-order keeps the two in step ----------

  lemma GoodHand(s: State)
    requires Base(s) && InHand(s.matcher)
    ensures GoodTrade(s.matcher.t)
  {
  }

  lemma UnplacedIsInactive(s: State, side: Side, id: int)
    requires Base(s) && id !in s.placed
    ensures id !in s.data.Active(side)
  {
  }

  lemma MadeViews(s: State, o: Order)
    ensures var r, v := Accepted(s, o).(data := PushActive(s.data, o)), View(s, o.side);
            && View(r, o.side) == v.(queue := v.queue + [o], active := v.active[o.id := o])
            && View(r, Other(o.side)) == View(s, Other(o.side))
  {
    hide Hand;
  }

  lemma MakeInStep(s: State, o: Order)
    requires Inv(s) && Enabled(s, Make(o))
    ensures InStep(Next(s, Make(o)))
  {
    hide Base, SideView.Agrees, PaidTrades, Accepted, PushActive, View;
    UnplacedIsInactive(s, o.side, o.id);
    MakeIsAccepting(s, o);
    hide Next, Enabled;
    MadeViews(s, o);
    assert View(s, o.side).Agrees() && View(s, Other(o.side)).Agrees();
    ViewActive(s, o.side);
    Arrive(View(s, o.side), o);
  }

  lemma ViewActive(s: State, side: Side)
    ensures View(s, side).active == s.data.Active(side)
  {
  }

  lemma MakeIsAccepting(s: State, o: Order)
    requires Enabled(s, Make(o))
    ensures Acceptable(s, o) && Next(s, Make(o)) == Accepted(s, o).(data := PushActive(s.data, o))
  {
    hide Accepted, PushActive;
  }

  /** Nothing that the two views show has changed. */
  lemma SameViews(s: State, r: State)
    requires InStep(s) && r.queueBuys == s.queueBuys && r.queueSells == s.queueSells
    requires Shelf(r, Buy) == Shelf(s, Buy) && Shelf(r, Sell) == Shelf(s, Sell)
    requires Hand(r.matcher, Buy) == Hand(s.matcher, Buy) && Hand(r.matcher, Sell) == Hand(s.matcher, Sell)
    requires r.data.activeBuys == s.data.activeBuys && r.data.activeSells == s.data.activeSells
    requires Leaving(r.handler, Buy) == Leaving(s.handler, Buy) && Leaving(r.handler, Sell) == Leaving(s.handler, Sell)
    ensures InStep(r)
  {
    hide SideView.Agrees, Shelf, Hand, Leaving;
    assert View(r, Buy) == View(s, Buy) && View(r, Sell) == View(s, Sell);
  }

  lemma CancelledViews(s: State, side: Side)
    requires Enabled(s, CancelRemove) && side == s.handler.side
    ensures var r, v, id := Next(s, CancelRemove), View(s, side), s.handler.id;
            && View(r, Other(side)) == View(s, Other(side)) && v.leaving == {}
            && (HasId(v.book, id) ==> View(r, side) == v.(book := Without(v.book, id), leaving := {id}))
            && (!HasId(v.book, id) ==> View(r, side) == v)
  {
    hide Hand, Without, HasId;
  }

  lemma CancelledView(s: State)
    requires Enabled(s, CancelRemove) && View(s, s.handler.side).Agrees() && View(s, Other(s.handler.side)).Agrees()
    ensures InStep(Next(s, CancelRemove))
  {
    hide SideView.Agrees, Without, HasId, View, Next;
    var v := View(s, s.handler.side);
    CancelledViews(s, s.handler.side);
    if HasId(v.book, s.handler.id) {
      TakeOff(v, s.handler.id);
    }
  }

  lemma ForgottenView(s: State)
    requires Enabled(s, CancelForget) && View(s, s.handler.side).Agrees() && View(s, Other(s.handler.side)).Agrees()
    requires s.handler.id in s.data.Active(s.handler.side)
    ensures InStep(Next(s, CancelForget))
  {
    hide SideView.Agrees, Hand;
    var side, r := s.handler.side, Next(s, CancelForget);
    var v := View(s, side);
    Forget(v, s.handler.id);
    assert View(r, Other(side)) == View(s, Other(side));
    assert View(r, side) == v.(active := v.active - {s.handler.id}, leaving := {});
  }

  lemma CancelInStep(s: State, a: Act)
    requires Inv(s) && Enabled(s, a) && (a.CancelRemove? || a.CancelForget?)
    ensures InStep(Next(s, a))
  {
    hide Base, SideView.Agrees, View, PaidTrades, Next;
    assert View(s, Buy).Agrees() && View(s, Sell).Agrees();
    assert s.handler.side == Buy || s.handler.side == Sell;
    if a.CancelForget? {
      InStepHasLeaving(s);
      ForgottenView(s);
    } else {
      CancelledView(s);
    }
  }

  lemma InStepHasLeaving(s: State)
    requires InStep(s) && s.handler.CancelRemoved?
    ensures s.handler.id in s.data.Active(s.handler.side)
  {
    assert View(s, s.handler.side).Agrees();
    assert s.handler.id in View(s, s.handler.side).leaving;
  }

  lemma QueuedSide(s: State, side: Side)
    requires Base(s) && s.Queue(side) != []
    ensures s.Queue(side)[0].side == side
  {
    assert s.Queue(side)[0] in s.Queue(side);
    LiveOnBook(s, side, s.Queue(side)[0]);
  }

  lemma AbsorbedViews(s: State)
    requires Enabled(s, Absorb) && s.Queue(s.matcher.side)[0].side == s.matcher.side
    ensures var r, side := Next(s, Absorb), s.matcher.side;
            var v := View(s, side);
            && v.queue == s.Queue(side)
            && View(r, side) == v.(queue := v.queue[1..], book := More(v.book, v.queue[0]))
            && View(r, Other(side)) == View(s, Other(side))
  {
    hide Hand, More;
  }

  lemma AbsorbInStep(s: State)
    requires Inv(s) && Enabled(s, Absorb)
    ensures InStep(Next(s, Absorb))
  {
    hide Base, SideView.Agrees, PaidTrades, View, Next;
    var side := s.matcher.side;
    QueuedSide(s, side);
    AbsorbedViews(s);
    Agreement.Absorb(View(s, side));
  }

  lemma TakenViews(s: State, t: Trade)
    requires Enabled(s, Match(t))
    ensures var r := Next(s, Match(t));
            && View(s, Buy).hand == [] && t.buy in View(s, Buy).book
            && View(s, Sell).hand == [] && t.sell in View(s, Sell).book
            && View(r, Buy) == View(s, Buy).(book := Less(View(s, Buy).book, t.buy), hand := [t.buy])
            && View(r, Sell) == View(s, Sell).(book := Less(View(s, Sell).book, t.sell), hand := [t.sell])
  {
    hide Trade.After, Less, Crosses;
  }

  lemma MatchInStep(s: State, t: Trade)
    requires Inv(s) && Enabled(s, Match(t))
    ensures InStep(Next(s, Match(t)))
  {
    hide Base, SideView.Agrees, PaidTrades, View, Next;
    TakenViews(s, t);
    TakeHand(View(s, Buy), t.buy);
    TakeHand(View(s, Sell), t.sell);
  }

  lemma PutBackView(s: State, r: State, side: Side)
    requires View(s, side).Agrees() && s.matcher.BothClosed? && GoodTrade(s.matcher.t)
    requires r == s.(books := r.books, matcher := LoopHead)
    requires r.books.Of(side) == Rested(s.books.Of(side), s.matcher.t.After(side))
    ensures View(r, side).Agrees()
  {
    GoodTradeAmounts(s.matcher.t);
    hide SideView.Agrees, GoodTrade, Trade.After;
    var o, v := s.matcher.t.After(side), View(s, side);
    if o.amount > 0 {
      Agreement.PutBack(v, o);
      assert View(r, side) == v.(hand := [], book := More(v.book, o));
    } else {
      assert View(r, side) == v;
    }
  }

  lemma PutBackInStep(s: State)
    requires Inv(s) && Enabled(s, PutBack)
    ensures InStep(Next(s, PutBack))
  {
    hide Base, SideView.Agrees, PaidTrades, GoodTrade, Rested, View, Trade.After;
    GoodHand(s);
    PutBackView(s, Next(s, PutBack), Buy);
    PutBackView(s, Next(s, PutBack), Sell);
  }

  lemma MoveMoneyInStep(s: State)
    requires Inv(s) && Enabled(s, MoveMoney)
    ensures InStep(Next(s, MoveMoney))
  {
    hide Base, SideView.Agrees, ChangeBalances, Trade.After, PaidTrades;
    var t := s.matcher.t;
    MoneyKeepsOrders(s.data, t.sell.client, t.buy.client, t.Amount(), t.Cost());
  }

  /** Of what the views show, the step leaves everything but perhaps where a thread stands. */
  ghost predicate Quiet(s: State, r: State) {
    && r.data == s.data.(funds := r.data.funds) && r.books == s.books && r.saved == s.saved
    && r.queueBuys == s.queueBuys && r.queueSells == s.queueSells
    && (r.matcher == s.matcher
        || (!InHand(s.matcher) && !InHand(r.matcher) && !s.matcher.Out? && r.matcher != Out(true)))
    && (r.handler == s.handler || (!s.handler.CancelRemoved? && !r.handler.CancelRemoved?))
  }

  lemma QuietHandler(s: State, a: Act)
    requires Enabled(s, a) && (a.SignUp? || a.CancelCheck? || a.Stop?)
    ensures Quiet(s, Next(s, a))
  {
  }

  lemma QuietMatcher(s: State, a: Act)
    requires Enabled(s, a) && (a.ReadGuard? || a.Enter? || a.NextQueue? || a.ReadFlag? || a.Leave?)
    ensures Quiet(s, Next(s, a))
  {
  }

  lemma QuietStep(s: State, a: Act)
    requires a.SignUp? || a.CancelCheck? || a.Stop? || a.ReadGuard? || a.Enter? || a.NextQueue? || a.ReadFlag? || a.Leave?
    requires Enabled(s, a)
    ensures Quiet(s, Next(s, a))
  {
    hide Quiet, Next, Enabled;
    if a.SignUp? || a.CancelCheck? || a.Stop? {
      QuietHandler(s, a);
    } else {
      QuietMatcher(s, a);
    }
  }

  lemma QuietInStep(s: State, a: Act)
    requires Inv(s) && Enabled(s, a)
    requires a.SignUp? || a.CancelCheck? || a.Stop? || a.ReadGuard? || a.Enter? || a.NextQueue? || a.ReadFlag? || a.Leave?
    ensures InStep(Next(s, a))
  {
    hide SidesFit, TradesFit, RecordsFit, HandlerFits, Logged, Accounted, AnswersFit, LoopFits, InStep, Next, Enabled;
    hide PaidTrades, Awaited, Trade.After;
    QuietStep(s, a);
    SameViews(s, Next(s, a));
  }

  lemma SaveInStep(s: State)
    requires Inv(s) && Enabled(s, Save)
    ensures InStep(Next(s, Save))
  {
    hide Base, InStep, PaidTrades, Joined;
    SameViews(s, Next(s, Save));
  }

  lemma HandIsShown(s: State, side: Side)
    requires InStep(s) && Hand(s.matcher, side) != []
    ensures var o := Hand(s.matcher, side)[0]; o.id in s.data.Active(side) && s.data.Active(side)[o.id] == o
  {
    assert View(s, side).Agrees();
    assert View(s, side).hand[0] in View(s, side).hand;
  }

  /** The two look-ups of a trade, when the record is there: it is lowered with the order in hand. */
  lemma LoweredViews(s: State, a: Act, side: Side)
    requires Enabled(s, a) && (a.LowerSell? || a.LowerBuy?) && side == if a.LowerSell? then Sell else Buy
    requires s.matcher.t.Before(side).side == side
    requires var o := s.matcher.t.Before(side); o.id in s.data.Active(side) && s.data.Active(side)[o.id] == o
    ensures var r, v, o := Next(s, a), View(s, side), s.matcher.t.After(side);
            && !r.matcher.Matched? && v.hand == [s.matcher.t.Before(side)]
            && View(r, side) == v.(hand := [o], active := v.active[o.id := o])
            && View(r, Other(side)) == View(s, Other(side))
  {
    hide Crosses, Narrow;
  }

  /** The matcher finds both of its orders in the active maps, so neither update fails. */
  lemma LowerInStep(s: State, a: Act)
    requires Inv(s) && Enabled(s, a) && (a.LowerSell? || a.LowerBuy?)
    ensures InStep(Next(s, a)) && !Next(s, a).matcher.Matched?
  {
    hide Base, PaidTrades, SideView.Agrees, GoodTrade, View, Next;
    var t := s.matcher.t;
    var lowered := if a.LowerSell? then Sell else Buy;
    GoodHand(s);
    HandIsShown(s, lowered);
    GoodTradeAmounts(t);
    LoweredViews(s, a, lowered);
    Lower(View(s, lowered), t.Before(lowered), t.After(lowered));
  }

  /** What CloseHands says of the order in hand, as the views show it. */
  lemma ClosedView(s: State, r: State, side: Side, o: Order, time: int)
    requires View(s, side).Agrees() && Held(s.matcher, side) == [o] && o.side == side
    requires r == s.(matcher := r.matcher, data := CompleteIfEmpty(s.data, o, time))
    requires s.matcher.Matched? || s.matcher.BuyClosed?
    requires r.matcher.BuyClosed? || r.matcher.BothClosed?
    requires Held(r.matcher, side) == if o.amount == 0 then [] else [o]
    ensures View(r, side).Agrees()
  {
    hide SideView.Agrees, Held;
    var v := View(s, side);
    assert v.hand == [o];
    if o.amount == 0 {
      HandShows(v, o);
      Finish(v, o);
      assert View(r, side) == v.(hand := [], active := v.active - {o.id});
    } else {
      assert View(r, side) == v;
    }
  }

  lemma HandShows(v: SideView, o: Order)
    requires v.Agrees() && v.hand == [o]
    ensures o.id in v.active && v.active[o.id] == o
  {
    assert o in v.hand;
  }

  lemma ClosedElsewhere(s: State, r: State, side: Side, o: Order, time: int)
    requires View(s, Other(side)).Agrees() && o.side == side
    requires r == s.(matcher := r.matcher, data := CompleteIfEmpty(s.data, o, time))
    requires s.matcher.Matched? || s.matcher.BuyClosed?
    requires r.matcher.BuyClosed? || r.matcher.BothClosed?
    requires Held(r.matcher, Other(side)) == Held(s.matcher, Other(side))
    ensures View(r, Other(side)).Agrees()
  {
    hide SideView.Agrees, Held;
    assert View(r, Other(side)) == View(s, Other(side));
  }

  lemma CloseInStep(s: State, a: Act)
    requires Inv(s) && Enabled(s, a) && (a.CloseBuy? || a.CloseSell?)
    ensures InStep(Next(s, a))
  {
    hide Base, PaidTrades, SideView.Agrees, View, Held, CompleteIfEmpty, Trade.After, TradesFit, Next;
    BaseMoney(s);
    CloseHands(s, a);
    var t, r := s.matcher.t, Next(s, a);
    var closed, time := if a.CloseBuy? then Buy else Sell, if a.CloseBuy? then t.buyTime else t.sellTime;
    CloseFollows(s, a);
    ClosedView(s, r, closed, t.After(closed), time);
    ClosedElsewhere(s, r, closed, t.After(closed), time);
  }

  lemma CloseFollows(s: State, a: Act)
    requires Enabled(s, a) && (a.CloseBuy? || a.CloseSell?)
    ensures Next(s, a).matcher.BuyClosed? || Next(s, a).matcher.BothClosed?
  {
    hide CompleteIfEmpty, Trade.After;
  }

  lemma KeepsInStep(s: State, a: Act)
    requires Inv(s) && Enabled(s, a) && !a.Enqueue?
    ensures InStep(Next(s, a))
  {
    assert !a.Insert?;
    hide Inv, InStep, Next, Enabled;
    match a
    case Make(o) => MakeInStep(s, o);
    case CancelRemove | CancelForget => CancelInStep(s, a);
    case Absorb => AbsorbInStep(s);
    case Match(t) => MatchInStep(s, t);
    case LowerSell | LowerBuy => LowerInStep(s, a);
    case CloseBuy | CloseSell => CloseInStep(s, a);
    case PutBack => PutBackInStep(s);
    case MoveMoney => MoveMoneyInStep(s);
    case Save => SaveInStep(s);
    case SignUp(_) => QuietInStep(s, a);
    case CancelCheck(_, _, _) => QuietInStep(s, a);
    case Stop | ReadGuard | Enter | NextQueue | ReadFlag | Leave => QuietInStep(s, a);
  }

  /** With both look-ups of a trade succeeding, its money moves. */
  lemma KeepsPaid(s: State, a: Act)
    requires Base(s) && s.settled == PaidTrades(s) && Enabled(s, a)
    requires a.LowerSell? || a.LowerBuy? ==> !Next(s, a).matcher.Matched?
    ensures Next(s, a).settled == PaidTrades(Next(s, a))
  {
    hide Base, Next;
    if a.MoveMoney? {
      BaseMoney(s);
      MoneyMoves(s);
      LastTrade(s);
      assert s.trades == s.trades[..|s.trades| - 1] + [s.matcher.t];
    } else {
      hide Enabled;
      OthersKeepPaid(s, a);
    }
  }

  lemma OthersKeepPaid(s: State, a: Act)
    requires s.settled == PaidTrades(s) && Enabled(s, a) && !a.MoveMoney?
    requires a.LowerSell? || a.LowerBuy? ==> !Next(s, a).matcher.Matched?
    ensures Next(s, a).settled == PaidTrades(Next(s, a))
  {
    if OfHandler(a) {
      hide Next, Enabled;
      HandlerStep(s, a);
    } else if a.Match? {
      hide Less, Tradable;
      assert (s.trades + [a.t])[..|s.trades|] == s.trades;
    } else {
      hide Next, Enabled;
      MatcherStep(s, a);
    }
  }

  lemma LastTrade(s: State)
    requires Base(s) && InHand(s.matcher)
    ensures s.trades != [] && s.trades[|s.trades| - 1] == s.matcher.t
  {
  }

  lemma KeepsInv(s: State, a: Act)
    requires Inv(s) && Enabled(s, a) && !a.Enqueue?
    ensures Inv(Next(s, a))
  {
    hide Next, Base, InStep, PaidTrades;
    KeepsInStep(s, a);
    KeepsBase(s, a);
    if a.LowerSell? || a.LowerBuy? {
      LowerInStep(s, a);
    }
    KeepsPaid(s, a);
    StaysUnqueued(s, a);
  }

  lemma StaysUnqueued(s: State, a: Act)
    requires Enabled(s, a) && !s.handler.Enqueued? && !a.Enqueue?
    ensures !Next(s, a).handler.Enqueued?
  {
    hide Next, Enabled, OfHandler;
    if OfHandler(a) {
      HandlerStep(s, a);
    } else {
      MatcherStep(s, a);
    }
  }

  // ---------- make-order in its two real steps ----------

  /** The state once a make-order in progress has done its second half. */
  ghost function Caught(s: State): State {
    if s.handler.Enqueued? then Next(s, Insert) else s
  }

  /** The matcher looks for the record of the order that is queued and not yet inserted. */
  predicate Misses(s: State, a: Act) {
    s.handler.Enqueued? && LooksFor(s.matcher, a, s.handler.o)
  }

  predicate LooksFor(m: Matcher, a: Act, o: Order) {
    || (a.LowerSell? && m.Popped? && o.side.Sell? && m.t.sell.id == o.id)
    || (a.LowerBuy? && m.SellLowered? && o.side.Buy? && m.t.buy.id == o.id)
  }

  /** No look-up along the run comes before the insertion it needs. */
  ghost predicate Timely(s: State, acts: seq<Act>)
    requires Runs(s, acts)
  {
    acts == []
    || (Timely(s, acts[..|acts| - 1]) && !Misses(After(s, acts[..|acts| - 1]), acts[|acts| - 1]))
  }

  /** If the matcher holds the awaited order, it has not looked for its record yet. */
  predicate NotYet(s: State) {
    var m := s.matcher;
    s.handler.Enqueued? && InHand(m) && m.t.Before(s.handler.o.side).id == s.handler.o.id ==>
      m.Popped? || (m.SellLowered? && s.handler.o.side.Buy?)
  }

  ghost predicate InvOnceCaught(s: State) {
    Base(s) && Inv(Caught(s)) && NotYet(s)
  }

  /** The client data with the awaited order inserted. */
  lemma UpdateAfterPush(d: ClientData, o: Order, side: Side, id: int, amount: int32)
    requires side == o.side ==> id != o.id
    ensures UpdateActive(PushActive(d, o), side, id, amount).1 == UpdateActive(d, side, id, amount).1
    ensures UpdateActive(PushActive(d, o), side, id, amount).0 == PushActive(UpdateActive(d, side, id, amount).0, o)
  {
    hide Narrow;
    var e := UpdateActive(d, side, id, amount).0;
    if side == o.side && id in d.Active(side) {
      assert UpdateActive(PushActive(d, o), side, id, amount).0.Active(side) == PushActive(e, o).Active(side);
    }
  }

  lemma CompleteAfterPush(d: ClientData, o: Order, p: Order, time: int)
    requires p.side == o.side ==> p.id != o.id
    ensures CompleteIfEmpty(PushActive(d, o), p, time) == PushActive(CompleteIfEmpty(d, p, time), o)
  {
    if p.side == o.side && p.id in d.Active(o.side) {
      assert d.Active(o.side)[o.id := o] - {p.id} == (d.Active(o.side) - {p.id})[o.id := o];
    }
  }

  lemma MoneyAfterPush(d: ClientData, o: Order, seller: string, buyer: string, amount: int, cost: real)
    ensures var (e, ok) := ChangeBalances(d, seller, buyer, amount, cost);
            ChangeBalances(PushActive(d, o), seller, buyer, amount, cost) == (PushActive(e, o), ok)
  {
  }

  /** The steps of the matcher that do not touch the client data. */
  lemma BookStepCatches(s: State, a: Act)
    requires Enabled(s, a) && s.handler.Enqueued? && (a.Match? || a.PutBack? || a.Save?)
    ensures Enabled(Caught(s), a) && Caught(Next(s, a)) == Next(Caught(s), a)
  {
    hide PushActive, Tradable, Rested, Less, More, Joined, Trade.After;
  }

  lemma AbsorbCatches(s: State)
    requires Enabled(s, Absorb) && s.handler.Enqueued?
    ensures Enabled(Caught(s), Absorb) && Caught(Next(s, Absorb)) == Next(Caught(s), Absorb)
  {
    hide PushActive, AbsorbedParts;
    AbsorbMovesParts(s);
    AbsorbMovesParts(Caught(s));
  }

  lemma ControlStepCatches(s: State, a: Act)
    requires Enabled(s, a) && s.handler.Enqueued?
    requires a.ReadGuard? || a.Enter? || a.NextQueue? || a.ReadFlag? || a.Leave?
    ensures Enabled(Caught(s), a) && Caught(Next(s, a)) == Next(Caught(s), a)
  {
    hide PushActive;
  }

  lemma DataStepCatches(s: State, a: Act)
    requires Base(s) && NotYet(s) && Enabled(s, a) && s.handler.Enqueued? && !Misses(s, a)
    requires a.LowerSell? || a.LowerBuy? || a.MoveMoney? || a.CloseBuy? || a.CloseSell?
    ensures Enabled(Caught(s), a) && Caught(Next(s, a)) == Next(Caught(s), a)
  {
    hide Base, PushActive, UpdateActive, CompleteIfEmpty, ChangeBalances, GoodTrade, Trade.After;
    GoodHand(s);
    var t, o := s.matcher.t, s.handler.o;
    GoodTradeAmounts(t);
    match a
    case LowerSell => UpdateAfterPush(s.data, o, Sell, t.sell.id, t.Amount());
    case LowerBuy => UpdateAfterPush(s.data, o, Buy, t.buy.id, t.Amount());
    case MoveMoney => MoneyAfterPush(s.data, o, t.sell.client, t.buy.client, t.Amount(), t.Cost());
    case CloseBuy => CompleteAfterPush(s.data, o, t.After(Buy), t.buyTime);
    case CloseSell => CompleteAfterPush(s.data, o, t.After(Sell), t.sellTime);
  }

  /** A step of the matcher that misses nothing is the same step with the insertion done first. */
  lemma MatcherStepCatches(s: State, a: Act)
    requires Base(s) && NotYet(s) && Enabled(s, a) && s.handler.Enqueued? && !a.Insert? && !Misses(s, a)
    ensures Enabled(Caught(s), a) && Caught(Next(s, a)) == Next(Caught(s), a)
    ensures !a.Enqueue? && Next(s, a).handler == s.handler
  {
    OnlyMatcherSteps(s, a);
    hide Base, NotYet, Misses, Next, Enabled, Caught;
    match a
    case LowerSell | LowerBuy | MoveMoney | CloseBuy | CloseSell => DataStepCatches(s, a);
    case Match(_) => BookStepCatches(s, a);
    case Absorb => AbsorbCatches(s);
    case PutBack | Save => BookStepCatches(s, a);
    case ReadGuard | Enter | NextQueue | ReadFlag | Leave => ControlStepCatches(s, a);
    case _ =>
  }

  lemma OnlyMatcherSteps(s: State, a: Act)
    requires Enabled(s, a) && s.handler.Enqueued? && !a.Insert?
    ensures !OfHandler(a) && Next(s, a).handler == s.handler
  {
    assert !OfHandler(a);
    hide Next, Enabled;
    MatcherStep(s, a);
  }

  lemma NewOrderIsNotInHand(s: State, o: Order)
    requires Base(s) && Enabled(s, Enqueue(o))
    ensures NotYet(Next(s, Enqueue(o)))
  {
    if InHand(s.matcher) {
      LastTrade(s);
      assert s.matcher.t in s.trades;
    }
  }

  lemma KeepsNotYet(s: State, a: Act)
    requires InvOnceCaught(s) && Enabled(s, a) && s.handler.Enqueued? && !a.Insert? && !Misses(s, a)
    ensures NotYet(Next(s, a))
  {
    hide Base, Inv;
    OnlyMatcherSteps(s, a);
    if a.LowerSell? || a.LowerBuy? {
      MatcherStepCatches(s, a);
      LowerInStep(Caught(s), a);
    }
    SameHand(s, a);
  }

  lemma SameHand(s: State, a: Act)
    requires NotYet(s) && Enabled(s, a) && s.handler.Enqueued? && !a.Insert? && !Misses(s, a)
    requires a.LowerSell? || a.LowerBuy? ==> !Next(s, a).matcher.Matched?
    ensures NotYet(Next(s, a))
  {
    OnlyMatcherSteps(s, a);
    MatcherStep(s, a);
    hide UpdateActive, ChangeBalances, Tradable, CompleteIfEmpty, Joined, Rested, Trade.After, Without;
  }

  lemma EnqueueThenInsert(s: State, o: Order)
    requires Enabled(s, Enqueue(o))
    ensures Enabled(s, Make(o)) && Caught(Next(s, Enqueue(o))) == Next(s, Make(o))
  {
    hide PushActive;
  }

  /** A step of the exchange is a step, or no step, of the exchange whose make-order is one step. */
  ghost predicate AtomicMakeStep(m: State, m': State) {
    m' == m || exists a: Act :: !a.Enqueue? && !a.Insert? && Enabled(m, a) && m' == Next(m, a)
  }

  lemma EnqueueStep(s: State, o: Order)
    requires InvOnceCaught(s) && Enabled(s, Enqueue(o))
    ensures Inv(Caught(Next(s, Enqueue(o)))) && NotYet(Next(s, Enqueue(o)))
    ensures AtomicMakeStep(Caught(s), Caught(Next(s, Enqueue(o))))
  {
    hide Base, Next, Enabled, NotYet, Inv, Caught;
    EnqueueWhenIdle(s, o);
    EnqueueThenInsert(s, o);
    KeepsInv(s, Make(o));
    NewOrderIsNotInHand(s, o);
  }

  lemma InsertStep(s: State)
    requires InvOnceCaught(s) && Enabled(s, Insert)
    ensures Caught(Next(s, Insert)) == Caught(s) && NotYet(Next(s, Insert))
  {
    hide Base, Inv, PushActive;
  }

  lemma AwaitingStep(s: State, a: Act)
    requires InvOnceCaught(s) && Enabled(s, a) && s.handler.Enqueued? && !a.Insert? && !Misses(s, a)
    ensures Inv(Caught(Next(s, a))) && NotYet(Next(s, a)) && AtomicMakeStep(Caught(s), Caught(Next(s, a)))
  {
    hide Base, Next, Enabled, NotYet, Inv, Misses, Caught;
    MatcherStepCatches(s, a);
    KeepsNotYet(s, a);
    KeepsInv(Caught(s), a);
  }

  lemma OrdinaryStep(s: State, a: Act)
    requires InvOnceCaught(s) && Enabled(s, a) && !s.handler.Enqueued? && !a.Enqueue?
    ensures Inv(Caught(Next(s, a))) && NotYet(Next(s, a)) && AtomicMakeStep(Caught(s), Caught(Next(s, a)))
  {
    hide Base, Next, Enabled, Inv;
    StaysUnqueued(s, a);
    NoInsertWhenIdle(s);
    KeepsInv(s, a);
  }

  lemma KeepsInvOnceCaught(s: State, a: Act)
    requires InvOnceCaught(s) && Enabled(s, a) && !Misses(s, a)
    ensures InvOnceCaught(Next(s, a)) && AtomicMakeStep(Caught(s), Caught(Next(s, a)))
  {
    hide Base, Next, Enabled, NotYet, Inv, Misses, Caught, AtomicMakeStep;
    KeepsBase(s, a);
    if a.Enqueue? {
      EnqueueStep(s, a.o);
    } else if a.Insert? {
      InsertStep(s);
      assert AtomicMakeStep(Caught(s), Caught(Next(s, a))) by {
        StandingStill(Caught(s));
      }
    } else if s.handler.Enqueued? {
      AwaitingStep(s, a);
    } else {
      OrdinaryStep(s, a);
    }
  }

  lemma StandingStill(m: State)
    ensures AtomicMakeStep(m, m)
  {
  }

  lemma EnqueueWhenIdle(s: State, o: Order)
    requires Enabled(s, Enqueue(o))
    ensures s.handler.Idle? && Caught(s) == s
  {
  }

  lemma NoInsertWhenIdle(s: State)
    requires !s.handler.Enqueued?
    ensures !Enabled(s, Insert)
  {
  }

  /** Along a timely run the exchange is, but for one insertion still to come, in the invariant's care. */
  lemma {:induction false} TimelyRunsKeepInv(s: State, acts: seq<Act>)
    requires InvOnceCaught(s) && Runs(s, acts) && Timely(s, acts)
    ensures InvOnceCaught(After(s, acts))
    decreases |acts|
  {
    hide InvOnceCaught, Misses, Next, Enabled;
    if acts != [] {
      var n := |acts| - 1;
      TimelyRunsKeepInv(s, acts[..n]);
      KeepsInvOnceCaught(After(s, acts[..n]), acts[n]);
    }
  }

  // ---------- A missed look-up is never made good ----------

  /** How many trades have been recorded without their money moving. */
  function Owed(s: State): int {
    |PaidTrades(s)| - |s.settled|
  }

  lemma AwaitedIsInactive(s: State)
    requires Base(s) && s.handler.Enqueued?
    ensures s.handler.o.id !in s.data.Active(s.handler.o.side)
  {
    hide SidesFit, TradesFit, RecordsFit, HandlerFits, Logged, Accounted, AnswersFit, LoopFits;
  }

  lemma MissedOrderIsAbsent(s: State, a: Act)
    requires Base(s) && Enabled(s, a) && Misses(s, a)
    ensures Next(s, a).matcher == Matched(s.matcher.t) && Next(s, a).trades == s.trades
    ensures Next(s, a).settled == s.settled && Next(s, a).handler == s.handler && s.trades != []
  {
    hide Base, GoodTrade, Trade.After, Narrow;
    GoodHand(s);
    GoodTradeAmounts(s.matcher.t);
    assert s.matcher.t.Before(Sell).side == Sell && s.matcher.t.Before(Buy).side == Buy;
    LastTrade(s);
    AwaitedIsInactive(s);
  }

  lemma DebtsStay(s: State, a: Act)
    requires Base(s) && Enabled(s, a)
    ensures Owed(Next(s, a)) >= Owed(s)
    ensures Misses(s, a) ==> Owed(Next(s, a)) > Owed(s)
  {
    hide Base, Next;
    if a.MoveMoney? {
      BaseMoney(s);
      MoneyMoves(s);
      LastTrade(s);
    } else if Misses(s, a) {
      hide Enabled;
      MissedOrderIsAbsent(s, a);
    } else {
      hide Enabled;
      OthersOweNoLess(s, a);
    }
  }

  lemma OthersOweNoLess(s: State, a: Act)
    requires Enabled(s, a) && !a.MoveMoney?
    ensures Owed(Next(s, a)) >= Owed(s)
  {
    hide Next, Enabled, OfHandler;
    if OfHandler(a) {
      HandlerStep(s, a);
    } else {
      MatcherStep(s, a);
    }
  }

  lemma {:induction false} UntimelyRunsOwe(s: State, acts: seq<Act>)
    requires Base(s) && Owed(s) >= 0 && Runs(s, acts)
    ensures Base(After(s, acts)) && Owed(After(s, acts)) >= 0
    ensures !Timely(s, acts) ==> Owed(After(s, acts)) > 0
    decreases |acts|
  {
    hide Base, Misses, Next, Enabled, Owed;
    if acts != [] {
      var n := |acts| - 1;
      UntimelyRunsOwe(s, acts[..n]);
      KeepsBase(After(s, acts[..n]), acts[n]);
      DebtsStay(After(s, acts[..n]), acts[n]);
    }
  }

  lemma CaughtOwesTheSame(s: State)
    ensures Owed(Caught(s)) == Owed(s)
  {
    hide PushActive;
  }

  lemma StartSideAgrees(s: State, side: Side)
    requires StartSide(s, side) && View(s, side) == SideView([], s.books.Of(side), [], s.data.Active(side), {})
    ensures View(s, side).Agrees()
  {
    hide View;
  }

  lemma StartSatisfiesInv(s: State)
    requires Start(s)
    ensures Inv(s)
  {
    hide Base, StartSide, SideView.Agrees;
    StartSatisfiesBase(s);
    StartSideAgrees(s, Buy);
    StartSideAgrees(s, Sell);
  }

  lemma CaughtUp(s: State)
    requires Inv(s)
    ensures InvOnceCaught(s) && Caught(s) == s && Owed(s) == 0
  {
    hide Base, InStep, PaidTrades;
  }

  /**
   * The invariant, agreement of books and active maps with it, holds at the end of a run (with an insertion still to
   * come counted as done) if and only if the matcher never looked for a record that was yet to be inserted.
   */
  lemma InvIffTimely(s: State, acts: seq<Act>)
    requires Start(s) && Runs(s, acts)
    ensures Inv(Caught(After(s, acts))) <==> Timely(s, acts)
  {
    hide Inv, InvOnceCaught, Timely, Start, Base, Caught, Owed, After, Runs;
    StartSatisfiesInv(s);
    CaughtUp(s);
    UntimelyRunsOwe(s, acts) by {
      BaseOf(s);
    }
    if Timely(s, acts) {
      TimelyRunsKeepInv(s, acts);
      CaughtIsInv(After(s, acts));
    } else if Inv(Caught(After(s, acts))) {
      CaughtUp(Caught(After(s, acts)));
      CaughtOwesTheSame(After(s, acts));
    }
  }

  lemma BaseOf(s: State)
    requires Inv(s)
    ensures Base(s)
  {
  }

  lemma CaughtIsInv(s: State)
    requires InvOnceCaught(s)
    ensures Inv(Caught(s))
  {
  }

  // ---------- One insertion ----------

  /** The trades that the active map of a side should have been lowered by so far. */
  function Looked(s: State, side: Side): seq<Trade> {
    if (s.matcher.Popped? || (s.matcher.SellLowered? && side.Buy?)) && s.trades != []
    then s.trades[..|s.trades| - 1] else s.trades
  }

  /** Some quantity of the awaited order has traded and its record was looked for in vain. */
  predicate Stale(s: State) {
    s.handler.Enqueued? && Filled(Looked(s, s.handler.o.side), s.handler.o.side, s.handler.o.id) > 0
  }

  lemma {:induction false} FillsOnlyGrow(log: seq<Trade>, side: Side, id: int)
    requires forall t | t in log :: GoodTrade(t)
    ensures Filled(log, side, id) >= 0
  {
    if log != [] {
      var n := |log| - 1;
      assert log[n] in log && forall t | t in log[..n] :: t in log;
      GoodTradeAmounts(log[n]);
      FillsOnlyGrow(log[..n], side, id);
    }
  }

  lemma LookedFills(s: State, side: Side, id: int)
    requires TradesFit(s.matcher, s.trades) && s.trades != []
    ensures 0 <= Filled(s.trades[..|s.trades| - 1], side, id) <= Filled(s.trades, side, id)
    ensures s.trades[|s.trades| - 1].Before(side).id == id
            ==> Filled(s.trades[..|s.trades| - 1], side, id) < Filled(s.trades, side, id)
  {
    var n := |s.trades| - 1;
    assert s.trades[n] in s.trades && forall t | t in s.trades[..n] :: t in s.trades;
    GoodTradeAmounts(s.trades[n]);
    FillsOnlyGrow(s.trades[..n], side, id);
  }

  lemma MissMakesStale(s: State, a: Act)
    requires Base(s) && Enabled(s, a) && Misses(s, a)
    ensures Stale(Next(s, a))
  {
    hide Base, Next, Enabled, Filled;
    MissedOrderIsAbsent(s, a);
    LastTrade(s);
    TradesAreGood(s);
    LookedFills(s, s.handler.o.side, s.handler.o.id);
  }

  lemma TradesAreGood(s: State)
    requires Base(s)
    ensures TradesFit(s.matcher, s.trades)
  {
  }

  /** What the look-ups so far amount to never shrinks. */
  lemma StaysStale(s: State, a: Act)
    requires Base(s) && Stale(s) && Enabled(s, a) && !a.Insert?
    ensures Stale(Next(s, a))
  {
    hide Base, Filled;
    OnlyMatcherSteps(s, a);
    TradesAreGood(s);
    if a.Match? {
      hide Tradable, Less;
      assert (s.trades + [a.t])[..|s.trades|] == s.trades;
    } else {
      if s.trades != [] {
        LookedFills(s, s.handler.o.side, s.handler.o.id);
      }
      LookedOnlyGrows(s, a, s.handler.o.side);
    }
  }

  lemma LookedOnlyGrows(s: State, a: Act, side: Side)
    requires Enabled(s, a) && s.handler.Enqueued? && !a.Insert? && !a.Match?
    ensures Next(s, a).trades == s.trades
    ensures Looked(Next(s, a), side) == Looked(s, side) || Looked(Next(s, a), side) == s.trades
  {
    hide Next, Enabled;
    OnlyMatcherSteps(s, a);
    MatcherStep(s, a);
  }

  lemma StaleHasTraded(s: State)
    requires Base(s) && Stale(s)
    ensures Filled(s.trades, s.handler.o.side, s.handler.o.id) > 0
  {
    hide Base, Filled;
    TradesAreGood(s);
    if s.trades != [] {
      LookedFills(s, s.handler.o.side, s.handler.o.id);
    }
  }

  /** A live order is open by what it was placed with less its fills. */
  lemma LiveIsOpenBy(s: State, side: Side, o: Order)
    requires Base(s) && (o in s.Queue(side) || o in s.books.Of(side) || o in Held(s.matcher, side))
    ensures o.id in s.placed && Filled(s.trades, side, o.id) + o.amount == s.placed[o.id].amount
  {
    hide Kept, LogFits, CancelsFit, EndedIds, Held, Filled;
    LiveOnBook(s, side, o);
  }

  lemma AwaitedIsPlaced(s: State)
    requires Base(s) && s.handler.Enqueued?
    ensures s.handler.o.id in s.placed && s.placed[s.handler.o.id] == s.handler.o
    ensures s.running && !s.matcher.Out?
  {
  }

  /** A hand whose record is yet to be looked for: its fills so far are those of the earlier trades. */
  lemma StaleIsNotInHand(s: State)
    requires Base(s) && Stale(s)
    ensures s.handler.o !in Hand(s.matcher, s.handler.o.side)
  {
    hide Base, Filled;
    var side, o, m := s.handler.o.side, s.handler.o, s.matcher;
    AwaitedIsPlaced(s);
    StaleHasTraded(s);
    if o in Hand(m, side) {
      if o in Held(m, side) {
        LiveIsOpenBy(s, side, o);
      } else {
        assert o == m.t.Before(side) && Held(m, side) == [m.t.After(side)] && (m.Popped? || m.SellLowered?);
        assert m.t.After(side) in Held(m, side);
        LiveIsOpenBy(s, side, m.t.After(side));
        GoodHand(s);
        GoodTradeAmounts(m.t);
        LastTrade(s);
        var n := |s.trades| - 1;
        assert s.trades == s.trades[..n] + [m.t];
        FilledByNext(s.trades[..n], m.t, side, o.id);
      }
    }
  }

  lemma StaleIsNotLive(s: State)
    requires Base(s) && Stale(s)
    ensures s.handler.o !in s.Queue(s.handler.o.side) && s.handler.o !in Shelf(s, s.handler.o.side)
  {
    hide Base, Filled;
    var side, o := s.handler.o.side, s.handler.o;
    AwaitedIsPlaced(s);
    StaleHasTraded(s);
    if o in s.Queue(side) || o in s.books.Of(side) {
      LiveIsOpenBy(s, side, o);
    }
  }

  /** Inserted with the amount it was accepted with, a stale order is active and nowhere on the market. */
  lemma StaleDisagrees(s: State)
    requires Base(s) && Stale(s)
    ensures !InStep(Next(s, Insert))
  {
    hide Base, Filled;
    var side, o, r := s.handler.o.side, s.handler.o, Next(s, Insert);
    StaleIsNotLive(s);
    StaleIsNotInHand(s);
    assert r == s.(data := PushActive(s.data, o), handler := Idle);
    InsertedView(s, side, o);
    ActiveMustBeLive(View(r, side), o);
  }

  lemma InsertedView(s: State, side: Side, o: Order)
    requires s.handler == Enqueued(o) && side == o.side
    ensures var v := View(s.(data := PushActive(s.data, o), handler := Idle), side);
            && v.queue == s.Queue(side) && v.book == Shelf(s, side) && v.hand == Hand(s.matcher, side)
            && v.leaving == {} && o.id in v.active && v.active[o.id] == o
  {
    hide Hand;
  }

  lemma ActiveMustBeLive(v: SideView, o: Order)
    requires o.id in v.active && v.active[o.id] == o && v.leaving == {} && !v.Live(o)
    ensures !v.Agrees()
  {
  }

  lemma {:induction false} UntimelyWaitIsStale(s: State, acts: seq<Act>)
    requires Base(s) && Runs(s, acts) && forall a | a in acts :: !a.Insert?
    ensures Base(After(s, acts))
    ensures s.handler.Enqueued? ==> After(s, acts).handler == s.handler
    ensures !Timely(s, acts) ==> Stale(After(s, acts))
    decreases |acts|
  {
    hide Base, Misses, Stale, Next, Enabled;
    if acts != [] {
      var n := |acts| - 1;
      assert acts[n] in acts && forall a | a in acts[..n] :: a in acts;
      UntimelyWaitIsStale(s, acts[..n]);
      var r := After(s, acts[..n]);
      KeepsBase(r, acts[n]);
      if r.handler.Enqueued? {
        OnlyMatcherSteps(r, acts[n]);
      }
      if Misses(r, acts[n]) {
        MissMakesStale(r, acts[n]);
      } else if !Timely(s, acts[..n]) {
        StaysStale(r, acts[n]);
      }
    }
  }

  /** With nothing missed, inserting late comes to the same as inserting at once. */
  lemma {:induction false} LateIsAtOnce(s: State, acts: seq<Act>)
    requires InvOnceCaught(s) && s.handler.Enqueued? && Runs(s, acts) && Timely(s, acts)
    requires forall a | a in acts :: !a.Insert?
    ensures InvOnceCaught(After(s, acts)) && After(s, acts).handler == s.handler
    ensures Runs(Caught(s), acts) && After(Caught(s), acts) == Caught(After(s, acts))
    decreases |acts|
  {
    hide InvOnceCaught, Misses, Next, Enabled, Caught;
    if acts != [] {
      var n := |acts| - 1;
      assert acts[n] in acts && forall a | a in acts[..n] :: a in acts;
      LateIsAtOnce(s, acts[..n]);
      KeepsInvOnceCaught(After(s, acts[..n]), acts[n]);
      WaitingStep(After(s, acts[..n]), acts[n]);
    }
  }

  lemma WaitingStep(s: State, a: Act)
    requires InvOnceCaught(s) && s.handler.Enqueued? && Enabled(s, a) && !a.Insert? && !Misses(s, a)
    ensures Enabled(Caught(s), a) && Caught(Next(s, a)) == Next(Caught(s), a) && Next(s, a).handler == s.handler
  {
    hide Base, Inv, NotYet, Misses, Next, Enabled, Caught;
    MatcherStepCatches(s, a);
  }

  predicate Trades(a: Act, o: Order) {
    a.Match? && a.t.Before(o.side).id == o.id
  }

  /** An order that has not been matched cannot have been looked for. */
  lemma {:induction false} UnmatchedIsTimely(s: State, acts: seq<Act>)
    requires s.handler.Enqueued? && Runs(s, acts) && forall a | a in acts :: !a.Insert? && !Trades(a, s.handler.o)
    requires InHand(s.matcher) ==> s.matcher.t.Before(s.handler.o.side).id != s.handler.o.id
    ensures var m := After(s, acts).matcher; InHand(m) ==> m.t.Before(s.handler.o.side).id != s.handler.o.id
    ensures Timely(s, acts) && After(s, acts).handler == s.handler
    decreases |acts|
  {
    hide Next, Enabled;
    if acts != [] {
      var n := |acts| - 1;
      assert acts[n] in acts && forall a | a in acts[..n] :: a in acts;
      UnmatchedIsTimely(s, acts[..n]);
      OnlyMatcherSteps(After(s, acts[..n]), acts[n]);
      MatcherStep(After(s, acts[..n]), acts[n]);
    }
  }

  /**
   * Between the two halves of make-order the matcher may do anything. The insertion then leaves books and active maps
   * in step if and only if no trade of the order has had its record looked for; it has not if the order was not
   * matched; and in that case the state is the one that making the order in one step would have led to.
   */
  lemma LateInsertAgreesIff(s: State, o: Order, acts: seq<Act>)
    requires Inv(s) && Enabled(s, Enqueue(o)) && Runs(Next(s, Enqueue(o)), acts)
    requires forall a | a in acts :: !a.Insert?
    ensures var q := Next(s, Enqueue(o));
            var r := After(q, acts);
            && Enabled(r, Insert) && Enabled(s, Make(o))
            && (InStep(Next(r, Insert)) <==> Timely(q, acts))
            && ((forall a | a in acts :: !Trades(a, o)) ==> Timely(q, acts))
            && (Timely(q, acts) ==>
                  Inv(Next(r, Insert)) && Runs(Next(s, Make(o)), acts) && Next(r, Insert) == After(Next(s, Make(o)), acts))
  {
    var q := Next(s, Enqueue(o));
    var r := After(q, acts);
    Queued(s, o);
    hide Inv, Base, Next, Enabled, InStep, Timely, Caught, NotYet, Stale;
    EnqueueThenInsert(s, o);
    UntimelyWaitIsStale(q, acts);
    if Timely(q, acts) {
      LateIsAtOnce(q, acts);
      InvIsInStep(Caught(r));
    } else {
      StaleDisagrees(r);
    }
    if forall a | a in acts :: !Trades(a, o) {
      UnmatchedIsTimely(q, acts);
    }
    InsertIsNext(r);
  }

  lemma Queued(s: State, o: Order)
    requires Inv(s) && Enabled(s, Enqueue(o))
    ensures var q := Next(s, Enqueue(o));
            && q.handler == Enqueued(o) && InvOnceCaught(q)
            && (InHand(q.matcher) ==> q.matcher.t.Before(o.side).id != o.id)
  {
    hide Base, InStep, PaidTrades;
    CaughtUp(s);
    KeepsBase(s, Enqueue(o));
    EnqueueStep(s, o);
    NewOrderIsNotInHand(s, o);
    if InHand(s.matcher) {
      OthersAreInHand(s, o);
    }
  }

  lemma OthersAreInHand(s: State, o: Order)
    requires Base(s) && Enabled(s, Enqueue(o)) && InHand(s.matcher)
    ensures s.matcher.t.Before(o.side).id != o.id
  {
    LastTrade(s);
    assert s.matcher.t in s.trades;
  }

  lemma InvIsInStep(s: State)
    requires Inv(s)
    ensures InStep(s)
  {
  }

  lemma InsertIsNext(s: State)
    requires s.handler.Enqueued?
    ensures Enabled(s, Insert) && Caught(s) == Next(s, Insert)
  {
  }
}
