/**
 * What every step of the running exchange keeps, whatever the interleaving and with make-order in its two real steps:
 * each order is in one place until it ends, fills and open amounts add up, accounts follow the settled trades.
 */
module ExchangeSafety {
  import opened Orders
  import opened Sums
  import opened Matching
  import opened Ledger
  import opened PriorityQueue
  import opened Sides
  import opened Exchange

  // ---------- The client data, one operation at a time ----------

  lemma MoneyKeepsOrders(d: ClientData, seller: string, buyer: string, amount: int, cost: real)
    ensures var e := ChangeBalances(d, seller, buyer, amount, cost).0; e == d.(funds := e.funds)
  {
  }

  lemma UpdateKeepsRest(d: ClientData, side: Side, id: int, amount: int32)
    ensures var e := UpdateActive(d, side, id, amount).0;
            && e == d.WithActive(side, e.Active(side)) && e.Active(side).Keys == d.Active(side).Keys
            && e.activeBuys.Keys == d.activeBuys.Keys && e.activeSells.Keys == d.activeSells.Keys
            && e.completed == d.completed && e.quotes == d.quotes && e.funds == d.funds
  {
    hide Narrow;
  }

  lemma UpdateKeepsRecords(placed: map<int, Order>, d: ClientData, side: Side, id: int, amount: int32)
    requires RecordsFit(placed, d)
    ensures var e := UpdateActive(d, side, id, amount).0;
            RecordsFit(placed, e)
  {
    hide Narrow;
  }

  lemma RemovalKeepsRecords(placed: map<int, Order>, d: ClientData, side: Side, id: int)
    requires RecordsFit(placed, d)
    ensures var e := RemoveActive(d, side, id).0;
            && RecordsFit(placed, e)
            && e.completed == d.completed && e.quotes == d.quotes && e.funds == d.funds
  {
  }

  lemma PushKeepsRecords(placed: map<int, Order>, d: ClientData, o: Order)
    requires RecordsFit(placed, d)
    requires o.id in placed && placed[o.id] == o
    ensures var e := PushActive(d, o);
            && RecordsFit(placed, e)
            && e.completed == d.completed && e.quotes == d.quotes && e.funds == d.funds
  {
  }

  lemma PlacingKeepsRecords(placed: map<int, Order>, d: ClientData, o: Order)
    requires RecordsFit(placed, d) && o.id !in placed
    ensures RecordsFit(placed[o.id := o], d)
  {
  }

  // ---------- The logs ----------

  lemma EndedByLog(log: seq<Order>, cancelled: seq<int>, o: Order)
    ensures EndedIds(log + [o], cancelled) == EndedIds(log, cancelled) + {o.id}
  {
    assert forall p | p in log + [o] :: p in log || p == o;
    assert o in log + [o] && forall p | p in log :: p in log + [o];
  }

  lemma EndedByCancel(log: seq<Order>, cancelled: seq<int>, id: int)
    ensures EndedIds(log, cancelled + [id]) == EndedIds(log, cancelled) + {id}
  {
    assert forall i | i in cancelled + [id] :: i in cancelled || i == id;
    assert id in cancelled + [id] && forall i | i in cancelled :: i in cancelled + [id];
  }

  lemma EndedMeans(log: seq<Order>, cancelled: seq<int>)
    ensures forall o | o in log :: o.id in EndedIds(log, cancelled)
    ensures forall id | id in cancelled :: id in EndedIds(log, cancelled)
    ensures forall id | id in EndedIds(log, cancelled) :: id in cancelled || exists o :: o in log && o.id == id
  {
  }

  lemma LoggedOneMore(d: ClientData, logBefore: seq<Order>, quotesBefore: seq<Quote>, o: Order, q: Quote)
    requires Logged(d, logBefore, quotesBefore) && q.price == o.price
    ensures Logged(d.(completed := d.completed + [o], quotes := d.quotes + [q]), logBefore, quotesBefore)
    ensures (d.completed + [o])[|logBefore|..] == d.completed[|logBefore|..] + [o]
  {
    assert (d.quotes + [q])[|quotesBefore|..] == d.quotes[|quotesBefore|..] + [q];
  }

  lemma PlacingKeepsLog(p: Past, log: seq<Order>, cancelled: seq<int>, o: Order)
    requires LogFits(p, log) && CancelsFit(p, log, cancelled) && o.id !in p.placed
    ensures var p' := p.(placed := p.placed[o.id := o]); LogFits(p', log) && CancelsFit(p', log, cancelled)
  {
    hide Filled;
  }

  /** A trade fills none of the orders that have ended. */
  lemma EndedStaysFilled(p: Past, t: Trade, side: Side, id: int)
    requires id in p.ended && t.buy.id !in p.ended && t.sell.id !in p.ended
    ensures Filled(p.trades + [t], side, id) == Filled(p.trades, side, id)
  {
    FilledByNext(p.trades, t, side, id);
    hide Filled;
  }

  lemma TradingKeepsLog(p: Past, log: seq<Order>, cancelled: seq<int>, t: Trade)
    requires LogFits(p, log) && CancelsFit(p, log, cancelled)
    requires forall o | o in log :: o.id in p.ended
    requires forall id | id in cancelled :: id in p.ended
    requires t.buy.id !in p.ended && t.sell.id !in p.ended
    ensures var p' := p.(trades := p.trades + [t]); LogFits(p', log) && CancelsFit(p', log, cancelled)
  {
    hide Filled, SameOrder;
    forall o | o in log
      ensures Filled(p.trades + [t], o.side, o.id) == Filled(p.trades, o.side, o.id)
    {
      EndedStaysFilled(p, t, o.side, o.id);
    }
    forall id | id in cancelled
      ensures LeftOpen(p.(trades := p.trades + [t]), id)
    {
      assert LeftOpen(p, id);
      EndedStaysFilled(p, t, p.placed[id].side, id);
    }
  }

  lemma CompletingKeepsLog(p: Past, log: seq<Order>, cancelled: seq<int>, o: Order)
    requires LogFits(p, log) && CancelsFit(p, log, cancelled)
    requires Fact(p, o.side, o) && o.amount == 0
    requires forall x | x in log :: x.id in p.ended
    requires forall id | id in cancelled :: id in p.ended
    ensures var p' := p.(ended := p.ended + {o.id});
            LogFits(p', log + [o]) && CancelsFit(p', log + [o], cancelled)
  {
    hide Filled;
    assert forall x | x in log + [o] :: x in log || x == o;
    assert forall i | 0 <= i < |log| :: log[i] in log;
  }

  lemma CancellingKeepsLog(p: Past, log: seq<Order>, cancelled: seq<int>, side: Side, o: Order)
    requires LogFits(p, log) && CancelsFit(p, log, cancelled)
    requires Fact(p, side, o) && o.amount > 0
    requires forall x | x in log :: x.id in p.ended
    requires forall id | id in cancelled :: id in p.ended
    ensures var p' := p.(ended := p.ended + {o.id});
            LogFits(p', log) && CancelsFit(p', log, cancelled + [o.id])
  {
    hide Filled;
    assert forall id | id in cancelled + [o.id] :: id in cancelled || id == o.id;
    assert forall i | 0 <= i < |cancelled| :: cancelled[i] in cancelled;
  }

  // ---------- The accounts ----------

  lemma {:induction false} StrangersDoNotTrade(log: seq<Trade>, c: string)
    requires forall t | t in log :: t.buy.client != c && t.sell.client != c
    ensures UsdFlow(log, c) == 0 && RubFlow(log, c) == 0.0
  {
    if log != [] {
      assert log[|log| - 1] in log;
      StrangersDoNotTrade(log[..|log| - 1], c);
    }
  }

  lemma SignUpKeepsAccounts(
    funds: map<string, Balance>, opening: map<string, Balance>, placed: map<int, Order>, trades: seq<Trade>,
    settled: seq<Trade>, c: string)
    requires Accounted(funds, opening, placed, trades, settled) && c !in funds
    ensures var zero := Balance(0.0, 0.0);
            Accounted(funds[c := zero], opening[c := zero], placed, trades, settled)
  {
    assert c !in opening.Keys;
    assert forall t | t in settled :: t in trades;
    StrangersDoNotTrade(settled, c);
    hide UsdFlow, RubFlow;
  }

  lemma PlacingKeepsAccounts(
    funds: map<string, Balance>, opening: map<string, Balance>, placed: map<int, Order>, trades: seq<Trade>,
    settled: seq<Trade>, o: Order)
    requires Accounted(funds, opening, placed, trades, settled) && o.id !in placed && o.client in funds
    ensures Accounted(funds, opening, placed[o.id := o], trades, settled)
  {
    assert o.client in funds.Keys;
    hide UsdFlow, RubFlow;
  }

  lemma TradingKeepsAccounts(
    funds: map<string, Balance>, opening: map<string, Balance>, placed: map<int, Order>, trades: seq<Trade>,
    settled: seq<Trade>, t: Trade)
    requires Accounted(funds, opening, placed, trades, settled)
    requires t.buy.id in placed && placed[t.buy.id].client == t.buy.client
    requires t.sell.id in placed && placed[t.sell.id].client == t.sell.client
    ensures Accounted(funds, opening, placed, trades + [t], settled)
  {
    hide UsdFlow, RubFlow;
    assert forall u | u in trades + [t] :: u in trades || u == t;
    assert forall u | u in trades :: u in trades + [t];
  }

  lemma FlowsByNext(settled: seq<Trade>, t: Trade, c: string)
    ensures UsdFlow(settled + [t], c) == UsdFlow(settled, c) + (if t.buy.client == c then t.Amount() else 0)
                                                             - (if t.sell.client == c then t.Amount() else 0)
    ensures RubFlow(settled + [t], c) == RubFlow(settled, c) + (if t.sell.client == c then t.Cost() else 0.0)
                                                             - (if t.buy.client == c then t.Cost() else 0.0)
  {
    hide Worth;
    assert (settled + [t])[..|settled|] == settled;
  }

  lemma SettlingKeepsAccounts(
    d: ClientData, opening: map<string, Balance>, placed: map<int, Order>, trades: seq<Trade>, settled: seq<Trade>,
    t: Trade)
    requires Accounted(d.funds, opening, placed, trades, settled) && t in trades
    ensures var (e, ok) := ChangeBalances(d, t.sell.client, t.buy.client, t.Amount(), t.Cost());
            ok && Accounted(e.funds, opening, placed, trades, settled + [t])
  {
    hide ChangeBalances, UsdFlow, RubFlow, Worth;
    assert t.buy.client in d.funds.Keys && t.sell.client in d.funds.Keys;
    KnownClientsSettle(d, t.sell.client, t.buy.client, t.Amount(), t.Cost());
    var e := ChangeBalances(d, t.sell.client, t.buy.client, t.Amount(), t.Cost()).0;
    assert forall u | u in settled + [t] :: u in settled || u == t;
    forall c | c in opening
      ensures e.funds.Keys == opening.Keys
      ensures e.funds[c] == Balance(opening[c].usd + UsdFlow(settled + [t], c) as real,
                                    opening[c].rub + RubFlow(settled + [t], c))
    {
      assert c in d.funds.Keys;
      MatchMovesAccounts(d, t.sell.client, t.buy.client, t.Amount(), t.Cost(), c);
      FlowsByNext(settled, t, c);
    }
    assert e.funds.Keys == opening.Keys by {
      assert t.buy.client in opening;
    }
  }

  lemma KnownClientsSettle(d: ClientData, seller: string, buyer: string, amount: int, cost: real)
    requires seller in d.funds && buyer in d.funds
    ensures ChangeBalances(d, seller, buyer, amount, cost).1
  {
  }

  // ---------- Answers ----------

  lemma AnswerNo(h: Handler, h': Handler, cancelled: seq<int>, answers: seq<Answer>, id: int)
    requires AnswersFit(h, cancelled, answers) && !h.CancelRemoved? && !h'.CancelRemoved?
    ensures AnswersFit(h', cancelled, answers + [Answer(id, false)])
  {
    assert (answers + [Answer(id, false)])[..|answers|] == answers;
  }

  lemma AnswerYes(h: Handler, cancelled: seq<int>, answers: seq<Answer>)
    requires AnswersFit(h, cancelled, answers) && h.CancelRemoved?
    ensures AnswersFit(Idle, cancelled, answers + [Answer(h.id, true)])
  {
    assert (answers + [Answer(h.id, true)])[..|answers|] == answers;
  }

  // ---------- Steps of the handler ----------

  lemma LiveIsPlaced(r: Rest, p: Past, side: Side, o: Order)
    requires Kept(r, p, side) && (o in r.queue || o in r.book || o in r.held)
    ensures Fact(p, side, o) && o.side == side && o.id in p.placed && SameOrder(p.placed[o.id], o) && o.id !in p.ended
    ensures o in r.queue || o in r.book ==> o.amount > 0
  {
    hide Rest.Orderly, Found, Filled, SameOrder;
    assert r.Live(o);
  }

  lemma LiveOnBook(s: State, side: Side, o: Order)
    requires SidesFit(s)
    requires o in s.Queue(side) || o in s.books.Of(side) || o in Held(s.matcher, side)
    ensures Fact(PastOf(s), side, o) && o.side == side && o.id !in PastOf(s).ended
    ensures o.id in s.placed && s.placed[o.id].side == side && s.placed[o.id].client == o.client
    ensures s.placed[o.id].price == o.price
    ensures o in s.Queue(side) || o in s.books.Of(side) ==> o.amount > 0
  {
    hide Fact, Kept, EndedIds, Held, State.Queue;
    LiveIsPlaced(RestOf(s, side), PastOf(s), side, o);
  }

  lemma PlacedFits(p: Past, o: Order)
    requires PastFits(p) && o.id !in p.placed && o.amount > 0
    ensures PastFits(p.(placed := p.placed[o.id := o]))
  {
  }

  lemma PlacedKeepsHandler(h: Handler, h': Handler, placed: map<int, Order>, cancelled: seq<int>, o: Order)
    requires HandlerFits(h, placed, cancelled) && o.id !in placed && h.Idle? && (h' == Idle || h' == Enqueued(o))
    ensures HandlerFits(h', placed[o.id := o], cancelled)
  {
  }

  lemma NewOrderIsAwaited(placed: map<int, Order>, d: ClientData, o: Order)
    requires RecordsFit(placed, d) && o.id !in placed
    ensures Awaited(Enqueued(o), d)
  {
  }

  function Other(side: Side): Side {
    if side.Buy? then Sell else Buy
  }

  lemma AcceptedRests(s: State, o: Order)
    ensures var r, side := Accepted(s, o), o.side;
            && RestOf(r, side) == RestOf(s, side).(queue := RestOf(s, side).queue + [o])
            && RestOf(r, Other(side)) == RestOf(s, Other(side))
            && PastOf(r) == PastOf(s).(placed := s.placed[o.id := o]) && r.Log() == s.Log() && r.cancelled == s.cancelled
  {
    hide EndedIds, Held;
  }

  lemma AcceptKeepsSides(s: State, o: Order)
    requires SidesFit(s) && Acceptable(s, o)
    ensures SidesFit(Accepted(s, o))
  {
    var p, other := PastOf(s), Other(o.side);
    AcceptedRests(s, o);
    hide Kept, PastFits, LogFits, CancelsFit;
    hide RestOf, Accepted, State.Log;
    PlacedHereKept(RestOf(s, o.side), p, o);
    PlacedElsewhereKept(RestOf(s, other), p, other, o);
    PlacedFits(p, o);
    PlacingKeepsLog(p, s.Log(), s.cancelled, o);
  }

  /** The two sides do not look at the accounts, the active maps, the flag or the answers. */
  lemma SameSides(s: State, r: State)
    requires SidesFit(s)
    requires r.queueBuys == s.queueBuys && r.queueSells == s.queueSells && r.books == s.books && r.saved == s.saved
    requires Held(r.matcher, Buy) == Held(s.matcher, Buy) && Held(r.matcher, Sell) == Held(s.matcher, Sell)
    requires r.placed == s.placed && r.trades == s.trades && r.cancelled == s.cancelled
    requires r.data.completed == s.data.completed && r.logBefore == s.logBefore
    ensures SidesFit(r)
  {
    hide Kept, PastFits, LogFits, CancelsFit, EndedIds, Held;
    assert RestOf(r, Buy) == RestOf(s, Buy) && RestOf(r, Sell) == RestOf(s, Sell) && PastOf(r) == PastOf(s);
  }

  lemma SameLogs(d: ClientData, e: ClientData, logBefore: seq<Order>, quotesBefore: seq<Quote>)
    requires Logged(d, logBefore, quotesBefore) && e.completed == d.completed && e.quotes == d.quotes
    ensures Logged(e, logBefore, quotesBefore)
  {
  }

  lemma SameAnswers(h: Handler, h': Handler, cancelled: seq<int>, answers: seq<Answer>)
    requires AnswersFit(h, cancelled, answers) && !h.CancelRemoved? && !h'.CancelRemoved?
    ensures AnswersFit(h', cancelled, answers)
  {
  }

  lemma AcceptKeepsBase(s: State, a: Act, o: Order)
    requires Base(s) && Enabled(s, a) && (a == Make(o) || a == Enqueue(o))
    ensures Base(Next(s, a))
  {
    hide SidesFit, TradesFit, RecordsFit, HandlerFits, Logged, Accounted, AnswersFit;
    hide PushActive, EndedIds, Held, Joined;
    var q, r := Accepted(s, o), Next(s, a);
    assert r == q.(data := r.data, handler := r.handler);
    assert r.data == s.data || (r.data == PushActive(s.data, o) && r.handler == Idle);
    assert r.handler == Idle || r.handler == Enqueued(o);
    hide Next, Enabled;
    AcceptKeepsSides(s, o);
    PlacingKeepsRecords(s.placed, s.data, o);
    NewOrderIsAwaited(s.placed, s.data, o);
    PushKeepsRecords(s.placed[o.id := o], s.data, o);
    SameSides(q, r);
    PlacedKeepsHandler(s.handler, r.handler, s.placed, s.cancelled, o);
    PlacingKeepsAccounts(s.data.funds, s.opening, s.placed, s.trades, s.settled, o);
    SameLogs(s.data, r.data, s.logBefore, s.quotesBefore);
    SameAnswers(s.handler, r.handler, s.cancelled, s.answers);
  }

  lemma InsertKeepsBase(s: State)
    requires Base(s) && Enabled(s, Insert)
    ensures Base(Next(s, Insert))
  {
    hide SidesFit, TradesFit, RecordsFit, Logged, Accounted, AnswersFit, PushActive, Held, Joined;
    var r := Next(s, Insert);
    PushKeepsRecords(s.placed, s.data, s.handler.o);
    SameSides(s, r);
    SameLogs(s.data, r.data, s.logBefore, s.quotesBefore);
    SameAnswers(s.handler, r.handler, s.cancelled, s.answers);
  }

  lemma SignUpKeepsBase(s: State, client: string)
    requires Base(s) && Enabled(s, SignUp(client))
    ensures Base(Next(s, SignUp(client)))
  {
    hide SidesFit, TradesFit, Logged, Accounted, AnswersFit, HandlerFits, Recorded, Held, Joined;
    var r := Next(s, SignUp(client));
    SignUpKeepsAccounts(s.data.funds, s.opening, s.placed, s.trades, s.settled, client);
    SameSides(s, r);
    SameLogs(s.data, r.data, s.logBefore, s.quotesBefore);
  }

  lemma CheckedFits(placed: map<int, Order>, d: ClientData, cancelled: seq<int>, side: Side, id: int, client: string)
    requires RecordsFit(placed, d) && id in d.Active(side) && d.Active(side)[id].client == client
    ensures HandlerFits(CancelChecked(side, id, client), placed, cancelled)
  {
  }

  lemma CancelCheckKeepsBase(s: State, side: Side, id: int, client: string)
    requires Base(s) && Enabled(s, CancelCheck(side, id, client))
    ensures Base(Next(s, CancelCheck(side, id, client)))
  {
    hide SidesFit, TradesFit, RecordsFit, Logged, Accounted, AnswersFit, HandlerFits, Held, Joined;
    var r := Next(s, CancelCheck(side, id, client));
    SameSides(s, r);
    if r.handler.CancelChecked? {
      CheckedFits(s.placed, s.data, s.cancelled, side, id, client);
      SameAnswers(s.handler, r.handler, s.cancelled, s.answers);
    } else {
      AnswerNo(s.handler, r.handler, s.cancelled, s.answers, id);
    }
  }

  lemma CancelForgetKeepsBase(s: State)
    requires Base(s) && Enabled(s, CancelForget)
    ensures Base(Next(s, CancelForget))
  {
    hide SidesFit, TradesFit, RecordsFit, Logged, Accounted, AnswersFit, RemoveActive, Held, Joined;
    var r := Next(s, CancelForget);
    RemovalKeepsRecords(s.placed, s.data, s.handler.side, s.handler.id);
    SameSides(s, r);
    SameLogs(s.data, r.data, s.logBefore, s.quotesBefore);
    AnswerYes(s.handler, s.cancelled, s.answers);
  }

  /** A cancel takes its order off the book: the order has ended, and still had something open. */
  lemma CancelledRests(s: State, side: Side, id: int)
    ensures var r := s.WithBook(side, Without(s.books.Of(side), id)).(cancelled := s.cancelled + [id]);
            && RestOf(r, side) == RestOf(s, side).(book := Without(s.books.Of(side), id))
            && RestOf(r, Other(side)) == RestOf(s, Other(side))
            && PastOf(r) == PastOf(s).(ended := PastOf(s).ended + {id})
            && r.Log() == s.Log() && r.cancelled == s.cancelled + [id] && RestOf(s, side).book == s.books.Of(side)
  {
    hide EndedIds, Without;
    EndedByCancel(s.Log(), s.cancelled, id);
  }

  lemma CancelledSides(s: State, side: Side, id: int)
    requires SidesFit(s) && HasId(s.books.Of(side), id)
    ensures SidesFit(s.WithBook(side, Without(s.books.Of(side), id)).(cancelled := s.cancelled + [id]))
  {
    var o :| o in s.books.Of(side) && o.id == id;
    hide Kept, LogFits, CancelsFit, EndedIds, Held, Fact, RestOf, HasId, State.WithBook, State.Log;
    LiveOnBook(s, side, o);
    CancelledRests(s, side, id);
    EndedMeans(s.Log(), s.cancelled);
    RemovedKept(RestOf(s, side), PastOf(s), side, id);
    EndedElsewhereKept(RestOf(s, Other(side)), PastOf(s), Other(side), id);
    CancellingKeepsLog(PastOf(s), s.Log(), s.cancelled, side, o);
    OneMoreEnded(PastOf(s), id);
  }

  lemma OneMoreEnded(p: Past, id: int)
    requires PastFits(p) && id in p.placed
    ensures PastFits(p.(ended := p.ended + {id}))
  {
  }

  lemma CancelRemoveKeepsBase(s: State)
    requires Base(s) && Enabled(s, CancelRemove)
    ensures Base(Next(s, CancelRemove))
  {
    hide SidesFit, TradesFit, RecordsFit, Logged, Accounted, AnswersFit, Held, Joined, Without, HasId;
    var h, r := s.handler, Next(s, CancelRemove);
    if HasId(s.books.Of(h.side), h.id) {
      var q := s.WithBook(h.side, Without(s.books.Of(h.side), h.id)).(cancelled := s.cancelled + [h.id]);
      CancelledSides(s, h.side, h.id);
      SameSides(q, r);
      RemovedFits(h, s.placed, s.cancelled, s.answers);
    } else {
      SameSides(s, r);
      AnswerNo(h, r.handler, s.cancelled, s.answers, h.id);
    }
  }

  lemma RemovedFits(h: Handler, placed: map<int, Order>, cancelled: seq<int>, answers: seq<Answer>)
    requires HandlerFits(h, placed, cancelled) && h.CancelChecked? && AnswersFit(h, cancelled, answers)
    ensures var h' := CancelRemoved(h.side, h.id, h.client);
            HandlerFits(h', placed, cancelled + [h.id]) && AnswersFit(h', cancelled + [h.id], answers)
  {
  }

  // ---------- Steps of the matcher ----------

  /** Neither the two sides nor the client data move. */
  lemma QuietKeepsBase(s: State, a: Act)
    requires Base(s) && Enabled(s, a)
    requires a.Stop? || a.ReadGuard? || a.Enter? || a.NextQueue? || a.ReadFlag? || a.Leave?
    ensures Base(Next(s, a))
  {
    hide SidesFit, RecordsFit, HandlerFits, Logged, Accounted, AnswersFit, Joined, Trade.After;
    var r := Next(s, a);
    assert r == s.(matcher := r.matcher, running := r.running) && InHand(r.matcher) == InHand(s.matcher);
    assert InHand(s.matcher) ==> r.matcher == s.matcher;
    SameSides(s, r);
  }

  /** The two queues and the books once the first order of one queue is on its book. */
  function AbsorbedParts(buys: seq<Order>, sells: seq<Order>, books: Books, side: Side): (seq<Order>, seq<Order>, Books)
    requires (if side.Buy? then buys else sells) != []
  {
    var o := if side.Buy? then buys[0] else sells[0];
    var more := More(books.Of(o.side), o);
    (if side.Buy? then buys[1..] else buys, if side.Buy? then sells else sells[1..],
     if o.side.Buy? then books.(buys := more) else books.(sells := more))
  }

  lemma AbsorbMovesParts(s: State)
    requires Enabled(s, Absorb)
    ensures var (buys, sells, books) := AbsorbedParts(s.queueBuys, s.queueSells, s.books, s.matcher.side);
            Next(s, Absorb) == s.(queueBuys := buys, queueSells := sells, books := books)
  {
    hide More;
  }

  lemma AbsorbedSides(s: State, r: State)
    requires SidesFit(s) && Enabled(s, Absorb) && r == Next(s, Absorb)
    ensures SidesFit(r) && r == s.(queueBuys := r.queueBuys, queueSells := r.queueSells, books := r.books)
  {
    hide Kept, PastFits, LogFits, CancelsFit, EndedIds;
    var side, p := s.matcher.side, PastOf(s);
    assert s.Queue(side)[0] in s.Queue(side);
    LiveOnBook(s, side, s.Queue(side)[0]);
    hide Fact;
    AbsorbedKept(RestOf(s, side), p, side);
    assert PastOf(r) == p && r.Log() == s.Log();
  }

  lemma AbsorbKeepsBase(s: State)
    requires Base(s) && Enabled(s, Absorb)
    ensures Base(Next(s, Absorb))
  {
    hide RecordsFit, HandlerFits, Logged, Accounted, AnswersFit, TradesFit, Joined, SidesFit;
    AbsorbedSides(s, Next(s, Absorb));
  }

  /** The order is a remainder of one that was placed and has not ended. */
  predicate StillOpen(p: Past, o: Order) {
    && o.id in p.placed && p.placed[o.id].client == o.client && p.placed[o.id].price == o.price
    && o.id !in p.ended
  }

  lemma TradableFits(s: State, t: Trade)
    requires SidesFit(s) && Tradable(s.books, t)
    ensures GoodTrade(t) && StillOpen(PastOf(s), t.buy) && StillOpen(PastOf(s), t.sell)
  {
    hide SidesFit, EndedIds, Fact;
    assert t.buy in s.books.Of(Buy) && t.sell in s.books.Of(Sell);
    LiveOnBook(s, Buy, t.buy);
    LiveOnBook(s, Sell, t.sell);
  }

  /** The two orders leave the book and are held with what they will have left. */
  lemma TradedRests(s: State, t: Trade, r: State)
    requires s.matcher.LoopHead?
    requires r == s.(books := Books(Less(s.books.buys, t.buy), Less(s.books.sells, t.sell)), matcher := Popped(t),
                     trades := s.trades + [t])
    ensures RestOf(s, Buy).book == s.books.buys && RestOf(s, Buy).held == []
    ensures RestOf(s, Sell).book == s.books.sells && RestOf(s, Sell).held == []
    ensures RestOf(r, Buy) == RestOf(s, Buy).(book := Less(s.books.buys, t.buy), held := [t.After(Buy)])
    ensures RestOf(r, Sell) == RestOf(s, Sell).(book := Less(s.books.sells, t.sell), held := [t.After(Sell)])
    ensures PastOf(r) == PastOf(s).(trades := s.trades + [t]) && PastOf(s).trades == s.trades && r.Log() == s.Log()
  {
    hide EndedIds, Trade.After, Less;
  }

  lemma TradedSides(s: State, t: Trade, r: State)
    requires SidesFit(s) && s.matcher.LoopHead? && Tradable(s.books, t)
    requires r == s.(books := Books(Less(s.books.buys, t.buy), Less(s.books.sells, t.sell)), matcher := Popped(t),
                     trades := s.trades + [t])
    ensures SidesFit(r)
  {
    hide GoodTrade, Kept, EndedIds, LogFits, CancelsFit, Trade.After, Less, RestOf, Held, State.Log, Near, Crosses;
    var p := PastOf(s);
    assert t.buy in s.books.buys && t.sell in s.books.sells;
    TradableFits(s, t);
    hide Tradable;
    TradedRests(s, t, r);
    EndedMeans(s.Log(), s.cancelled);
    TradingKeepsLog(p, s.Log(), s.cancelled, t);
    TakenKept(RestOf(s, Buy), p, Buy, t);
    TakenKept(RestOf(s, Sell), p, Sell, t);
    TradedFits(p, t);
  }

  lemma TradedFits(p: Past, t: Trade)
    requires PastFits(p) && t.buy.id in p.placed && t.sell.id in p.placed
    ensures PastFits(p.(trades := p.trades + [t]))
  {
  }

  lemma MatchKeepsBase(s: State, t: Trade)
    requires Base(s) && Enabled(s, Match(t))
    ensures Base(Next(s, Match(t)))
  {
    hide RecordsFit, HandlerFits, Logged, Accounted, AnswersFit, Joined, SidesFit;
    var r := Next(s, Match(t));
    TradedSides(s, t, r);
    TradableFits(s, t);
    hide Tradable, GoodTrade;
    TradingKeepsAccounts(s.data.funds, s.opening, s.placed, s.trades, s.settled, t);
  }

  lemma LowerKeepsBase(s: State, a: Act)
    requires Base(s) && Enabled(s, a) && (a.LowerSell? || a.LowerBuy?)
    ensures Base(Next(s, a))
  {
    hide SidesFit, RecordsFit, HandlerFits, Logged, Accounted, AnswersFit, Joined, UpdateActive, Trade.After;
    var r := Next(s, a);
    var t := s.matcher.t;
    var o := if a.LowerSell? then t.sell else t.buy;
    UpdateKeepsRest(s.data, o.side, o.id, t.Amount());
    UpdateKeepsRecords(s.placed, s.data, o.side, o.id, t.Amount());
    SameLogs(s.data, r.data, s.logBefore, s.quotesBefore);
    SameSides(s, r);
  }

  lemma BaseMoney(s: State)
    requires Base(s)
    ensures Accounted(s.data.funds, s.opening, s.placed, s.trades, s.settled) && TradesFit(s.matcher, s.trades)
  {
    hide Accounted, TradesFit;
  }

  lemma MoneyMoves(s: State)
    requires Accounted(s.data.funds, s.opening, s.placed, s.trades, s.settled) && TradesFit(s.matcher, s.trades)
    requires Enabled(s, MoveMoney)
    ensures var r := Next(s, MoveMoney);
            && r == s.(data := s.data.(funds := r.data.funds), matcher := Matched(s.matcher.t),
                       settled := s.settled + [s.matcher.t])
            && Accounted(r.data.funds, r.opening, r.placed, r.trades, r.settled)
  {
    hide Accounted, ChangeBalances;
    var t := s.matcher.t;
    MoneyKeepsOrders(s.data, t.sell.client, t.buy.client, t.Amount(), t.Cost());
    SettlingKeepsAccounts(s.data, s.opening, s.placed, s.trades, s.settled, t);
  }

  lemma MoveMoneyKeepsBase(s: State)
    requires Base(s) && Enabled(s, MoveMoney)
    ensures Base(Next(s, MoveMoney))
  {
    hide SidesFit, Recorded, HandlerFits, Logged, Accounted, AnswersFit, Joined, Trade.After, Next;
    MoneyMoves(s);
    var r := Next(s, MoveMoney);
    SameLogs(s.data, r.data, s.logBefore, s.quotesBefore);
    SameSides(s, r);
  }

  /** The empty order in hand has ended, and is logged. */
  lemma CompletedSides(s: State, r: State, side: Side, o: Order)
    requires SidesFit(s) && Held(s.matcher, side) == [o] && o.amount == 0 && r.Log() == s.Log() + [o]
    requires Held(r.matcher, side) == [] && Held(r.matcher, Other(side)) == Held(s.matcher, Other(side))
    requires r.queueBuys == s.queueBuys && r.queueSells == s.queueSells && r.books == s.books && r.saved == s.saved
    requires r.placed == s.placed && r.trades == s.trades && r.cancelled == s.cancelled
    ensures SidesFit(r)
  {
    hide Kept, LogFits, CancelsFit, EndedIds, Fact, State.Log, Held;
    assert o in Held(s.matcher, side);
    LiveOnBook(s, side, o);
    EndedByLog(s.Log(), s.cancelled, o);
    EndedMeans(s.Log(), s.cancelled);
    FinishedKept(RestOf(s, side), PastOf(s), side, o);
    EndedElsewhereKept(RestOf(s, Other(side)), PastOf(s), Other(side), o.id);
    CompletingKeepsLog(PastOf(s), s.Log(), s.cancelled, o);
    OneMoreEnded(PastOf(s), o.id);
    assert RestOf(r, side) == RestOf(s, side).(held := []) && RestOf(r, Other(side)) == RestOf(s, Other(side));
    assert PastOf(r) == PastOf(s).(ended := PastOf(s).ended + {o.id});
  }

  lemma CompletionKeepsData(s: State, o: Order, time: int)
    requires RecordsFit(s.placed, s.data) && Logged(s.data, s.logBefore, s.quotesBefore)
    ensures var d := Complete(s.data, o, time);
            && d.activeBuys.Keys <= s.data.activeBuys.Keys && d.activeSells.Keys <= s.data.activeSells.Keys
            && RecordsFit(s.placed, d) && Logged(d, s.logBefore, s.quotesBefore) && d.funds == s.data.funds
            && s.(data := d).Log() == s.Log() + [o]
  {
    RemovalKeepsRecords(s.placed, s.data, o.side, o.id);
    hide Recorded, QuotesMatch, RemoveActive;
    var e := RemoveActive(s.data, o.side, o.id).0;
    SameLogs(s.data, e, s.logBefore, s.quotesBefore);
    LoggedOneMore(e, s.logBefore, s.quotesBefore, o, Quote(o.price, time));
    assert Complete(s.data, o, time) == e.(completed := e.completed + [o], quotes := e.quotes + [Quote(o.price, time)]);
  }

  lemma HandIsGood(s: State)
    requires TradesFit(s.matcher, s.trades) && InHand(s.matcher)
    ensures GoodTrade(s.matcher.t)
  {
  }

  /** Closing one side's order: a completed one is logged, any other stays in hand. */
  lemma CloseHands(s: State, a: Act)
    requires TradesFit(s.matcher, s.trades) && Enabled(s, a) && (a.CloseBuy? || a.CloseSell?)
    ensures var r, side := Next(s, a), if a.CloseBuy? then Buy else Sell;
            var o, time := s.matcher.t.After(side), if a.CloseBuy? then s.matcher.t.buyTime else s.matcher.t.sellTime;
            && o.side == side && InHand(r.matcher) && r.matcher.t == s.matcher.t && !r.matcher.Popped?
            && r == s.(matcher := r.matcher, data := CompleteIfEmpty(s.data, o, time))
            && Held(s.matcher, side) == [o] && Held(r.matcher, side) == (if o.amount == 0 then [] else [o])
            && Held(r.matcher, Other(side)) == Held(s.matcher, Other(side))
  {
    HandIsGood(s);
    GoodTradeAmounts(s.matcher.t);
    hide CompleteIfEmpty, GoodTrade, Trade.After;
  }

  lemma CloseKeepsBase(s: State, a: Act)
    requires Base(s) && Enabled(s, a) && (a.CloseBuy? || a.CloseSell?)
    ensures Base(Next(s, a))
  {
    hide SidesFit, RecordsFit, HandlerFits, Logged, Accounted, AnswersFit, Joined, Complete, Trade.After;
    hide State.Log, Next, Held;
    CloseHands(s, a);
    var t, r := s.matcher.t, Next(s, a);
    var closed := if a.CloseBuy? then Buy else Sell;
    var o := t.After(closed);
    if o.amount == 0 {
      var time := if a.CloseBuy? then t.buyTime else t.sellTime;
      CompletionKeepsData(s, o, time);
      SameLogOf(s.(data := r.data), r);
      CompletedSides(s, r, closed, o);
    } else {
      SameSides(s, r);
    }
  }

  lemma SameLogOf(s: State, r: State)
    requires r.logBefore == s.logBefore && r.data == s.data
    ensures r.Log() == s.Log()
  {
  }

  lemma PutBackSide(s: State, r: State, side: Side)
    requires Kept(RestOf(s, side), PastOf(s), side) && s.matcher.BothClosed? && GoodTrade(s.matcher.t)
    requires r == s.(books := r.books, matcher := LoopHead)
    requires r.books.Of(side) == Rested(s.books.Of(side), s.matcher.t.After(side))
    ensures Kept(RestOf(r, side), PastOf(s), side)
  {
    GoodTradeAmounts(s.matcher.t);
    hide Kept, GoodTrade, Trade.After;
    var o := s.matcher.t.After(side);
    if o.amount > 0 {
      PutBackKept(RestOf(s, side), PastOf(s), side);
      assert RestOf(r, side) == RestOf(s, side).(book := More(s.books.Of(side), o), held := []);
    } else {
      assert RestOf(r, side) == RestOf(s, side);
    }
  }

  lemma PutBackKeepsBase(s: State)
    requires Base(s) && Enabled(s, PutBack)
    ensures Base(Next(s, PutBack))
  {
    hide RecordsFit, HandlerFits, Logged, Accounted, AnswersFit, Joined, SidesFit, Rested, Trade.After, GoodTrade;
    PutBackSides(s, Next(s, PutBack));
  }

  lemma PutBackSides(s: State, r: State)
    requires SidesFit(s) && TradesFit(s.matcher, s.trades) && Enabled(s, PutBack) && r == Next(s, PutBack)
    ensures SidesFit(r)
  {
    hide Kept, PastFits, LogFits, CancelsFit, Rested, Trade.After, GoodTrade, EndedIds;
    HandIsGood(s);
    PutBackSide(s, r, Buy);
    PutBackSide(s, r, Sell);
    assert PastOf(r) == PastOf(s) && r.Log() == s.Log();
    hide RestOf, TradesFit;
  }

  lemma SavedSides(s: State, r: State)
    requires SidesFit(s) && s.matcher.Saving? && s.saved == Books(multiset{}, multiset{})
    requires r == s.(tables := r.tables, saved := s.books, books := Books(multiset{}, multiset{}), matcher := Out(true))
    ensures SidesFit(r)
  {
    hide Kept, LogFits, CancelsFit, EndedIds;
    assert PastOf(r) == PastOf(s) && r.Log() == s.Log();
    SavedKept(RestOf(s, Buy), PastOf(s), Buy);
    SavedKept(RestOf(s, Sell), PastOf(s), Sell);
    assert RestOf(r, Buy) == RestOf(s, Buy).(book := multiset{}, saved := s.books.buys);
    assert RestOf(r, Sell) == RestOf(s, Sell).(book := multiset{}, saved := s.books.sells);
  }

  lemma SaveKeepsBase(s: State)
    requires Base(s) && Enabled(s, Save)
    ensures Base(Next(s, Save))
  {
    hide RecordsFit, HandlerFits, Logged, Accounted, AnswersFit, SidesFit;
    var r := Next(s, Save);
    SavedSides(s, r);
    assert Joined(s.tablesBefore, Books(multiset{}, multiset{})) == s.tablesBefore;
  }

  // ---------- What either thread leaves alone ----------

  predicate OfHandler(a: Act) {
    a.Make? || a.Enqueue? || a.Insert? || a.SignUp? || a.CancelCheck? || a.CancelRemove? || a.CancelForget? || a.Stop?
  }

  lemma HandlerStep(s: State, a: Act)
    requires Enabled(s, a) && OfHandler(a)
    ensures var r := Next(s, a); r.matcher == s.matcher && r.trades == s.trades && r.settled == s.settled
    ensures Next(s, a).handler.Enqueued? ==> a.Enqueue?
  {
    hide Without, HasId, PushActive, RemoveActive;
  }

  /** The trade has been made and its money is yet to move. */
  predicate Unpaid(m: Matcher) {
    m.Popped? || m.SellLowered? || m.BuyLowered?
  }

  lemma MatcherStep(s: State, a: Act)
    requires Enabled(s, a) && !OfHandler(a)
    ensures var r := Next(s, a);
            && r.handler == s.handler && r.trades == (if a.Match? then s.trades + [a.t] else s.trades)
            && (!a.MoveMoney? ==> r.settled == s.settled)
            && (InHand(r.matcher) ==>
                  if a.Match? then r.matcher == Popped(a.t) else InHand(s.matcher) && r.matcher.t == s.matcher.t)
            && (Unpaid(r.matcher) && !a.Match? ==> Unpaid(s.matcher))
            && (r.matcher.Popped? ==> a.Match?) && (r.matcher.SellLowered? ==> s.matcher.Popped?)
            && (Unpaid(s.matcher) && !Unpaid(r.matcher) ==>
                  r.matcher.Matched? && (a.LowerSell? || a.LowerBuy? || a.MoveMoney?))
  {
    hide UpdateActive, ChangeBalances, Tradable, CompleteIfEmpty, Joined, Rested, Trade.After, Less, More;
  }

  // ---------- Every step, every run ----------

  lemma KeepsBase(s: State, a: Act)
    requires Base(s) && Enabled(s, a)
    ensures Base(Next(s, a))
  {
    hide Base, Next, Enabled;
    match a
    case Make(o) => AcceptKeepsBase(s, a, o);
    case Enqueue(o) => AcceptKeepsBase(s, a, o);
    case Insert => InsertKeepsBase(s);
    case SignUp(client) => SignUpKeepsBase(s, client);
    case CancelCheck(side, id, client) => CancelCheckKeepsBase(s, side, id, client);
    case CancelRemove => CancelRemoveKeepsBase(s);
    case CancelForget => CancelForgetKeepsBase(s);
    case Absorb => AbsorbKeepsBase(s);
    case Match(t) => MatchKeepsBase(s, t);
    case LowerSell | LowerBuy => LowerKeepsBase(s, a);
    case MoveMoney => MoveMoneyKeepsBase(s);
    case CloseBuy | CloseSell => CloseKeepsBase(s, a);
    case PutBack => PutBackKeepsBase(s);
    case Save => SaveKeepsBase(s);
    case Stop | ReadGuard | Enter | NextQueue | ReadFlag | Leave => QuietKeepsBase(s, a);
  }

  lemma StartSideIsKept(s: State, side: Side)
    requires StartSide(s, side) && PastOf(s) == Past(s.placed, [], {})
    requires s.Queue(side) == [] && Held(s.matcher, side) == [] && s.saved.Of(side) == multiset{}
    requires forall id | id in s.placed && s.placed[id].side == side :: id in s.data.Active(side)
    ensures Kept(RestOf(s, side), PastOf(s), side) && Recorded(s.placed, s.data.Active(side), side)
  {
    var book, active, placed := s.books.Of(side), s.data.Active(side), s.placed;
    assert forall o | o in book :: active[o.id] == o && placed[o.id] == o && book[o] == 1;
    hide Held, PastOf;
    BookIsKept(book, placed, side);
  }

  lemma BookIsKept(book: multiset<Order>, placed: map<int, Order>, side: Side)
    requires forall o | o in book :: book[o] == 1 && o.side == side && o.amount > 0 && o.id in placed && placed[o.id] == o
    requires forall id | id in placed && placed[id].side == side :: placed[id].id == id && placed[id] in book
    ensures Kept(Rest([], book, [], multiset{}), Past(placed, [], {}), side)
  {
    var r := Rest([], book, [], multiset{});
    assert forall o :: r.Live(o) <==> o in book;
  }

  lemma StartSides(s: State)
    requires Start(s)
    ensures SidesFit(s) && RecordsFit(s.placed, s.data)
  {
    hide Kept, Recorded, StartSide;
    assert s.Log() == [] && PastOf(s) == Past(s.placed, [], {});
    StartPlaced(s);
    StartSideIsKept(s, Buy);
    StartSideIsKept(s, Sell);
  }

  lemma StartPlaced(s: State)
    requires Start(s)
    ensures forall id | id in s.placed :: s.placed[id].id == id && s.placed[id].amount > 0
  {
    forall id | id in s.placed
      ensures s.placed[id].id == id && s.placed[id].amount > 0
    {
      assert StartSide(s, s.placed[id].side);
    }
  }

  lemma NothingHasHappened(d: ClientData, placed: map<int, Order>, tables: Books)
    requires forall id | id in placed :: placed[id].client in d.funds
    ensures Logged(d, d.completed, d.quotes) && Accounted(d.funds, d.funds, placed, [], [])
    ensures tables == Joined(tables, Books(multiset{}, multiset{}))
  {
    assert d.completed[|d.completed|..] == [] && d.quotes[|d.quotes|..] == [];
  }

  lemma StartIsQuiet(s: State)
    requires Start(s)
    ensures TradesFit(s.matcher, s.trades) && HandlerFits(s.handler, s.placed, s.cancelled)
    ensures AnswersFit(s.handler, s.cancelled, s.answers)
    ensures LoopFits(s) && forall id | id in s.placed :: s.placed[id].client in s.data.funds
  {
    hide StartSide, Joined;
    NothingHasHappened(s.data, s.placed, s.tables);
  }

  lemma StartSatisfiesBase(s: State)
    requires Start(s)
    ensures Base(s)
  {
    hide SidesFit, RecordsFit, StartSide, Logged, Accounted, TradesFit, HandlerFits, AnswersFit, LoopFits, Joined;
    StartSides(s);
    StartIsQuiet(s);
    NothingHasHappened(s.data, s.placed, s.tables);
  }

  /** Whatever the two threads do, in any interleaving, every reachable state satisfies the invariant. */
  lemma {:induction false} EveryRunKeepsBase(s: State, acts: seq<Act>)
    requires Start(s) && Runs(s, acts)
    ensures Base(After(s, acts))
    decreases |acts|
  {
    hide Base, Next, Enabled, Start;
    if acts == [] {
      StartSatisfiesBase(s);
    } else {
      var n := |acts| - 1;
      EveryRunKeepsBase(s, acts[..n]);
      KeepsBase(After(s, acts[..n]), acts[n]);
    }
  }
}
