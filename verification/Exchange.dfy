/**
 * The running exchange as a state machine: the single handler thread and the matching thread, one step per critical
 * section (server/core.cpp, server/client_data_manager.cpp, server/session_client_connection.cpp).
 */
module Exchange {
  import opened Orders
  import opened Sums
  import opened Matching
  import opened Ledger
  import opened PriorityQueue
  import opened Agreement
  import opened Sides

  /** Where the matching thread is, in stock_loop and below. From Absorbing to Leave or Save it holds the core mutex. */
  datatype Matcher =
    | AtGuard
    | Waiting
    | Absorbing(side: Side)
    | AtCheck
    | LoopHead
    | Popped(t: Trade)
    | SellLowered(t: Trade)
    | BuyLowered(t: Trade)
    | Matched(t: Trade)
    | BuyClosed(t: Trade)
    | BothClosed(t: Trade)
    | Saving
    | Out(savedBooks: bool)

  /** Where the handler thread is, inside make-order or inside cancel. */
  datatype Handler =
    | Idle
    | Enqueued(o: Order)
    | CancelChecked(side: Side, id: int, client: string)
    | CancelRemoved(side: Side, id: int, client: string)

  datatype Answer = Answer(id: int, success: bool)

  /**
   * The shared state, the two program counters, and the history: what the tables and the logs held at the start, each
   * account's opening balance, every order placed, every trade, the trades whose money moved, every cancellation from
   * a book, every answer given to a cancel, and what went to the tables.
   */
  datatype State = State(
    running: bool,
    queueBuys: seq<Order>,
    queueSells: seq<Order>,
    books: Books,
    tables: Books,
    data: ClientData,
    matcher: Matcher,
    handler: Handler,
    tablesBefore: Books,
    logBefore: seq<Order>,
    quotesBefore: seq<Quote>,
    opening: map<string, Balance>,
    placed: map<int, Order>,
    trades: seq<Trade>,
    settled: seq<Trade>,
    cancelled: seq<int>,
    answers: seq<Answer>,
    saved: Books)
  {
    function Queue(side: Side): seq<Order> {
      if side.Buy? then queueBuys else queueSells
    }

    function WithQueue(side: Side, queue: seq<Order>): State {
      if side.Buy? then this.(queueBuys := queue) else this.(queueSells := queue)
    }

    function WithBook(side: Side, book: multiset<Order>): State {
      this.(books := if side.Buy? then books.(buys := book) else books.(sells := book))
    }

    /** The orders logged as completed since the start. */
    function Log(): seq<Order> {
      if |logBefore| <= |data.completed| then data.completed[|logBefore|..] else []
    }

    /** The quotes recorded since the start. */
    function Quotes(): seq<Quote> {
      if |quotesBefore| <= |data.quotes| then data.quotes[|quotesBefore|..] else []
    }
  }

  datatype Act =
    | Make(o: Order)
    | Enqueue(o: Order)
    | Insert
    | SignUp(client: string)
    | CancelCheck(side: Side, id: int, client: string)
    | CancelRemove
    | CancelForget
    | Stop
    | ReadGuard
    | Enter
    | Absorb
    | NextQueue
    | ReadFlag
    | Match(t: Trade)
    | LowerSell
    | LowerBuy
    | MoveMoney
    | CloseBuy
    | CloseSell
    | PutBack
    | Leave
    | Save

  /** An order the handler may accept: a fresh id, a known client, something to trade. */
  ghost predicate Acceptable(s: State, o: Order) {
    s.running && s.handler.Idle? && o.id !in s.placed && o.client in s.data.funds && o.amount > 0
  }

  ghost predicate Enabled(s: State, a: Act) {
    match a
    case Make(o) => Acceptable(s, o)
    case Enqueue(o) => Acceptable(s, o)
    case Insert => s.handler.Enqueued?
    case SignUp(client) => s.running && s.handler.Idle? && client !in s.data.funds
    case CancelCheck(_, _, _) => s.running && s.handler.Idle?
    case CancelRemove => s.handler.CancelChecked? && (s.matcher.AtGuard? || s.matcher.Waiting?)
    case CancelForget => s.handler.CancelRemoved?
    case Stop => s.running && s.handler.Idle?
    case ReadGuard => s.matcher.AtGuard?
    case Enter => s.matcher.Waiting? && (s.queueBuys != [] || s.queueSells != [] || !s.running)
    case Absorb => s.matcher.Absorbing? && s.Queue(s.matcher.side) != []
    case NextQueue => s.matcher.Absorbing? && s.Queue(s.matcher.side) == []
    case ReadFlag => s.matcher.AtCheck?
    case Match(t) => s.matcher.LoopHead? && Tradable(s.books, t)
    case LowerSell => s.matcher.Popped?
    case LowerBuy => s.matcher.SellLowered?
    case MoveMoney => s.matcher.BuyLowered?
    case CloseBuy => s.matcher.Matched?
    case CloseSell => s.matcher.BuyClosed?
    case PutBack => s.matcher.BothClosed?
    case Leave => s.matcher.LoopHead?
    case Save => s.matcher.Saving?
  }

  /** A queue push followed by nothing: the first half of handle_make_order_comand. */
  function Accepted(s: State, o: Order): State {
    s.WithQueue(o.side, s.Queue(o.side) + [o]).(placed := s.placed[o.id := o])
  }

  /** place_order_to_priority_queue. */
  function Placed(s: State, o: Order): State {
    s.WithBook(o.side, More(s.books.Of(o.side), o))
  }

  function Rested(m: multiset<Order>, o: Order): multiset<Order> {
    if o.amount > 0 then More(m, o) else m
  }

  ghost function Joined(a: Books, b: Books): Books {
    Books(a.buys + b.buys, a.sells + b.sells)
  }

  ghost function Next(s: State, a: Act): State
    requires Enabled(s, a)
  {
    match a
    case Make(o) => Accepted(s, o).(data := PushActive(s.data, o))
    case Enqueue(o) => Accepted(s, o).(handler := Enqueued(o))
    case Insert => s.(data := PushActive(s.data, s.handler.o), handler := Idle)
    case SignUp(client) =>
      s.(data := OpenAccount(s.data, client), opening := s.opening[client := Balance(0.0, 0.0)])
    case CancelCheck(side, id, client) =>
      if id in s.data.Active(side) && s.data.Active(side)[id].client == client
      then s.(handler := CancelChecked(side, id, client))
      else s.(answers := s.answers + [Answer(id, false)])
    case CancelRemove =>
      var h := s.handler;
      if HasId(s.books.Of(h.side), h.id)
      then s.WithBook(h.side, Without(s.books.Of(h.side), h.id))
            .(handler := CancelRemoved(h.side, h.id, h.client), cancelled := s.cancelled + [h.id])
      else s.(handler := Idle, answers := s.answers + [Answer(h.id, false)])
    case CancelForget =>
      s.(data := RemoveActive(s.data, s.handler.side, s.handler.id).0, handler := Idle,
         answers := s.answers + [Answer(s.handler.id, true)])
    case Stop => s.(running := false)
    case ReadGuard => s.(matcher := if s.running then Waiting else Out(false))
    case Enter => s.(matcher := Absorbing(Buy))
    case Absorb =>
      var q := s.Queue(s.matcher.side);
      Placed(s.WithQueue(s.matcher.side, q[1..]), q[0])
    case NextQueue => s.(matcher := if s.matcher.side.Buy? then Absorbing(Sell) else AtCheck)
    case ReadFlag => s.(matcher := if s.running then LoopHead else Saving)
    case Match(t) =>
      s.(books := Books(Less(s.books.buys, t.buy), Less(s.books.sells, t.sell)), matcher := Popped(t),
         trades := s.trades + [t])
    case LowerSell =>
      var t := s.matcher.t;
      var (d, ok) := UpdateActive(s.data, t.sell.side, t.sell.id, t.Amount());
      s.(data := d, matcher := if ok then SellLowered(t) else Matched(t))
    case LowerBuy =>
      var t := s.matcher.t;
      var (d, ok) := UpdateActive(s.data, t.buy.side, t.buy.id, t.Amount());
      s.(data := d, matcher := if ok then BuyLowered(t) else Matched(t))
    case MoveMoney =>
      var t := s.matcher.t;
      var (d, ok) := ChangeBalances(s.data, t.sell.client, t.buy.client, t.Amount(), t.Cost());
      s.(data := d, matcher := Matched(t), settled := if ok then s.settled + [t] else s.settled)
    case CloseBuy =>
      var t := s.matcher.t;
      s.(data := CompleteIfEmpty(s.data, t.After(Buy), t.buyTime), matcher := BuyClosed(t))
    case CloseSell =>
      var t := s.matcher.t;
      s.(data := CompleteIfEmpty(s.data, t.After(Sell), t.sellTime), matcher := BothClosed(t))
    case PutBack =>
      var t := s.matcher.t;
      s.(books := Books(Rested(s.books.buys, t.After(Buy)), Rested(s.books.sells, t.After(Sell))), matcher := LoopHead)
    case Leave => s.(matcher := AtGuard)
    case Save =>
      s.(tables := Joined(s.tables, s.books), saved := s.books, books := Books(multiset{}, multiset{}),
         matcher := Out(true))
  }

  // ---------- The invariant of every run ----------

  predicate InHand(m: Matcher) {
    m.Popped? || m.SellLowered? || m.BuyLowered? || m.Matched? || m.BuyClosed? || m.BothClosed?
  }

  /** The order the matcher holds off the book, with what it will have left; a completed one is no longer held. */
  function Held(m: Matcher, side: Side): seq<Order> {
    if !InHand(m) then []
    else if m.t.After(side).amount == 0 && (m.BothClosed? || (m.BuyClosed? && side.Buy?)) then []
    else [m.t.After(side)]
  }

  function RestOf(s: State, side: Side): Rest {
    Rest(s.Queue(side), s.books.Of(side), Held(s.matcher, side), s.saved.Of(side))
  }

  function EndedIds(log: seq<Order>, cancelled: seq<int>): set<int> {
    (set o | o in log :: o.id) + (set id | id in cancelled)
  }

  function PastOf(s: State): Past {
    Past(s.placed, s.trades, EndedIds(s.Log(), s.cancelled))
  }

  /** An order logged as completed was placed, filled to the last unit, and is logged once. */
  ghost predicate LogFits(p: Past, log: seq<Order>) {
    && (forall o | o in log ::
          o.amount == 0 && o.id in p.placed && SameOrder(p.placed[o.id], o)
          && Filled(p.trades, o.side, o.id) == p.placed[o.id].amount)
    && (forall i, j | 0 <= i < j < |log| :: log[i].id != log[j].id)
  }

  /** The order still had something open. */
  predicate LeftOpen(p: Past, id: int) {
    id in p.placed && Filled(p.trades, p.placed[id].side, id) < p.placed[id].amount
  }

  /** A cancelled order was placed, is cancelled once, still had something open, and is not completed. */
  ghost predicate CancelsFit(p: Past, log: seq<Order>, cancelled: seq<int>) {
    && (forall id | id in cancelled :: LeftOpen(p, id))
    && (forall i, j | 0 <= i < j < |cancelled| :: cancelled[i] != cancelled[j])
    && (forall o | o in log :: o.id !in cancelled)
  }

  ghost predicate TradesFit(m: Matcher, trades: seq<Trade>) {
    && (forall t | t in trades :: GoodTrade(t))
    && (InHand(m) ==> trades != [] && trades[|trades| - 1] == m.t)
  }

  /** Every active record is of an order placed on that side, unchanged but for its amount. */
  ghost predicate Recorded(placed: map<int, Order>, active: map<int, Order>, side: Side) {
    forall id | id in active ::
      id in placed && active[id].id == id && SameOrder(placed[id], active[id]) && placed[id].side == side
  }

  ghost predicate HandlerFits(h: Handler, placed: map<int, Order>, cancelled: seq<int>) {
    && (h.Enqueued? ==> h.o.id in placed && placed[h.o.id] == h.o)
    && (h.CancelChecked? || h.CancelRemoved? ==>
          h.id in placed && placed[h.id].client == h.client && placed[h.id].side == h.side)
    && (h.CancelRemoved? ==> h.id in cancelled)
  }

  /** One quote per completed order, at its price. */
  ghost predicate QuotesMatch(log: seq<Order>, quotes: seq<Quote>) {
    |quotes| == |log| && forall i | 0 <= i < |log| :: quotes[i].price == log[i].price
  }

  /** The logs only grow, by completions and their quotes. */
  ghost predicate Logged(d: ClientData, logBefore: seq<Order>, quotesBefore: seq<Quote>) {
    && logBefore <= d.completed && quotesBefore <= d.quotes
    && QuotesMatch(d.completed[|logBefore|..], d.quotes[|quotesBefore|..])
  }

  /** Every client is known; every balance is its opening balance moved by the client's own settled trades. */
  ghost predicate Accounted(
    funds: map<string, Balance>, opening: map<string, Balance>, placed: map<int, Order>, trades: seq<Trade>,
    settled: seq<Trade>)
  {
    && funds.Keys == opening.Keys
    && (forall id | id in placed :: placed[id].client in opening)
    && (forall t | t in trades ::
          && t.buy.id in placed && placed[t.buy.id].client == t.buy.client
          && t.sell.id in placed && placed[t.sell.id].client == t.sell.client)
    && (forall t | t in settled :: t in trades)
    && (forall c | c in opening ::
          funds[c] == Balance(opening[c].usd + UsdFlow(settled, c) as real, opening[c].rub + RubFlow(settled, c)))
  }

  /** The ids of the cancels that answered true, in order. */
  function Successes(answers: seq<Answer>): seq<int> {
    if answers == [] then []
    else
      var last := answers[|answers| - 1];
      Successes(answers[..|answers| - 1]) + if last.success then [last.id] else []
  }

  /** A cancel answers true exactly when that call took the order off the book. */
  ghost predicate AnswersFit(h: Handler, cancelled: seq<int>, answers: seq<Answer>) {
    cancelled == Successes(answers) + if h.CancelRemoved? then [h.id] else []
  }

  /** The tables hold what they held at the start and what was saved; after a stop no handler runs. */
  ghost predicate LoopFits(s: State) {
    && s.tables == Joined(s.tablesBefore, s.saved)
    && (s.saved == Books(multiset{}, multiset{}) || s.matcher == Out(true))
    && (s.matcher == Out(true) ==> s.books == Books(multiset{}, multiset{}))
    && (!s.running ==> s.handler.Idle?)
    && (s.matcher.Saving? || s.matcher.Out? ==> !s.running)
  }

  /** Every order placed is where it should be, on the market or in one of the two logs of ended orders. */
  ghost predicate SidesFit(s: State) {
    && Kept(RestOf(s, Buy), PastOf(s), Buy)
    && Kept(RestOf(s, Sell), PastOf(s), Sell)
    && PastFits(PastOf(s))
    && LogFits(PastOf(s), s.Log())
    && CancelsFit(PastOf(s), s.Log(), s.cancelled)
  }

  ghost predicate RecordsFit(placed: map<int, Order>, d: ClientData) {
    Recorded(placed, d.activeBuys, Buy) && Recorded(placed, d.activeSells, Sell)
  }

  /** Between the halves of make-order, the order is not active yet. */
  predicate Awaited(h: Handler, d: ClientData) {
    h.Enqueued? ==> h.o.id !in d.Active(h.o.side)
  }

  /** What every step of either thread keeps, make-order's two halves included. */
  ghost predicate Base(s: State) {
    && SidesFit(s)
    && TradesFit(s.matcher, s.trades)
    && RecordsFit(s.placed, s.data)
    && Awaited(s.handler, s.data)
    && HandlerFits(s.handler, s.placed, s.cancelled)
    && Logged(s.data, s.logBefore, s.quotesBefore)
    && Accounted(s.data.funds, s.opening, s.placed, s.trades, s.settled)
    && AnswersFit(s.handler, s.cancelled, s.answers)
    && LoopFits(s)
  }

  // ---------- Agreement of books and active maps ----------

  /** The order in hand, as the active map shows it at this point. */
  function Hand(m: Matcher, side: Side): seq<Order> {
    match m
    case Popped(t) => [t.Before(side)]
    case SellLowered(t) => [if side.Buy? then t.buy else t.After(Sell)]
    case _ => Held(m, side)
  }

  function Leaving(h: Handler, side: Side): set<int> {
    if h.CancelRemoved? && h.side == side then {h.id} else {}
  }

  /** Once the books are saved, the saved orders are what the maps still show. */
  function Shelf(s: State, side: Side): multiset<Order> {
    if s.matcher == Out(true) then s.saved.Of(side) else s.books.Of(side)
  }

  function View(s: State, side: Side): SideView {
    SideView(s.Queue(side), Shelf(s, side), Hand(s.matcher, side), s.data.Active(side), Leaving(s.handler, side))
  }

  /** Book, queue and hand agree with the active maps on both sides. */
  ghost predicate InStep(s: State) {
    View(s, Buy).Agrees() && View(s, Sell).Agrees()
  }

  /** The trades whose money has moved when every match settles: all but one that is still being recorded. */
  function PaidTrades(s: State): seq<Trade> {
    var m := s.matcher;
    if (m.Popped? || m.SellLowered? || m.BuyLowered?) && s.trades != [] then s.trades[..|s.trades| - 1] else s.trades
  }

  ghost predicate Inv(s: State) {
    Base(s) && InStep(s) && s.settled == PaidTrades(s) && !s.handler.Enqueued?
  }

  // ---------- Runs ----------

  /** A freshly loaded exchange: books and active maps hold the same orders, nothing has happened yet. */
  ghost predicate Start(s: State) {
    && s.running && s.matcher.AtGuard? && s.handler.Idle? && s.queueBuys == [] && s.queueSells == []
    && s.trades == [] && s.settled == [] && s.cancelled == [] && s.answers == []
    && s.saved == Books(multiset{}, multiset{}) && s.tablesBefore == s.tables
    && s.logBefore == s.data.completed && s.quotesBefore == s.data.quotes
    && s.opening == s.data.funds
    && StartSide(s, Buy) && StartSide(s, Sell)
    && (forall id | id in s.placed ::
          s.placed[id].client in s.opening && id in s.data.Active(s.placed[id].side))
  }

  ghost predicate StartSide(s: State, side: Side) {
    && (forall o | o in s.books.Of(side) :: s.books.Of(side)[o] == 1)
    && (forall o | o in s.books.Of(side) ::
          o.side == side && o.amount > 0 && o.id in s.data.Active(side) && s.data.Active(side)[o.id] == o)
    && (forall id | id in s.data.Active(side) ::
          id in s.placed && s.placed[id] == s.data.Active(side)[id] && s.placed[id].id == id
          && s.placed[id] in s.books.Of(side))
  }

  ghost function After(s: State, acts: seq<Act>): State
    requires Runs(s, acts)
    decreases |acts|, 2
  {
    if acts == [] then s else Next(After(s, acts[..|acts| - 1]), acts[|acts| - 1])
  }

  /** Each action is enabled where it is taken. */
  ghost predicate Runs(s: State, acts: seq<Act>)
    decreases |acts|, 1
  {
    acts == [] || (Runs(s, acts[..|acts| - 1]) && Enabled(After(s, acts[..|acts| - 1]), acts[|acts| - 1]))
  }
}
