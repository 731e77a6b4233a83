/**
 * cancel_active_order: its three phases amount to one step, and what it answers, alone and under any interleaving
 * (server/client_data_manager.cpp).
 */
module Cancels {
  import opened Orders
  import opened Sums
  import opened Matching
  import opened Ledger
  import opened PriorityQueue
  import opened Sides
  import opened Exchange
  import opened ExchangeSafety
  import opened ExchangeAgreement
  import opened ExchangeTheorems

  // ---------- Open orders have active records ----------

  /** The order was placed on that side by that client, and is neither completed nor cancelled. */
  ghost predicate OpenOrderOf(s: State, side: Side, id: int, client: string) {
    id in s.placed && s.placed[id].side == side && s.placed[id].client == client && !Completed(s, id)
    && id !in s.cancelled
  }

  /** Every open order has its active record, but for one whose make-order has not inserted it yet. */
  ghost predicate OpenAreActive(s: State) {
    forall id | id in s.placed && !Completed(s, id) && id !in s.cancelled ::
      id in s.data.Active(s.placed[id].side) || (s.handler.Enqueued? && s.handler.o.id == id)
  }

  /** A record leaves the active map only when its order has ended. */
  ghost predicate OnlyEndedLeave(s: State, r: State, side: Side) {
    forall id | id in s.data.Active(side) && id !in r.data.Active(side) :: Completed(r, id) || id in r.cancelled
  }

  lemma StillActive(s: State, r: State)
    requires OpenAreActive(s) && r.placed == s.placed && s.Log() <= r.Log() && s.cancelled <= r.cancelled
    requires OnlyEndedLeave(s, r, Buy) && OnlyEndedLeave(s, r, Sell)
    requires s.handler.Enqueued? ==> r.handler == s.handler
    ensures OpenAreActive(r)
  {
    hide State.Log;
    assert forall id :: Completed(s, id) ==> Completed(r, id);
    assert forall id :: id in s.cancelled ==> id in r.cancelled;
    hide Completed;
    forall id | id in r.placed && !Completed(r, id) && id !in r.cancelled
      ensures id in r.data.Active(r.placed[id].side) || (r.handler.Enqueued? && r.handler.o.id == id)
    {
      assert r.placed[id].side == Buy || r.placed[id].side == Sell;
    }
  }

  lemma PlacingKeepsActive(s: State, a: Act)
    requires OpenAreActive(s) && Enabled(s, a) && (a.Make? || a.Enqueue?)
    ensures OpenAreActive(Next(s, a))
  {
    hide State.Log;
    var r := Next(s, a);
    assert r.Log() == s.Log() by {
      SameLog(s, r);
    }
    assert forall id :: Completed(s, id) <==> Completed(r, id);
    hide Completed;
    forall id | id in r.placed && !Completed(r, id) && id !in r.cancelled
      ensures id in r.data.Active(r.placed[id].side) || (r.handler.Enqueued? && r.handler.o.id == id)
    {
      assert id != a.o.id ==> id in s.placed && r.placed[id] == s.placed[id];
    }
  }

  lemma SameLog(s: State, r: State)
    requires r.logBefore == s.logBefore && r.data.completed == s.data.completed
    ensures r.Log() == s.Log()
  {
  }

  lemma InsertKeepsActive(s: State)
    requires OpenAreActive(s) && Enabled(s, Insert) && HandlerFits(s.handler, s.placed, s.cancelled)
    ensures OpenAreActive(Next(s, Insert))
  {
    hide State.Log;
    var r := Next(s, Insert);
    assert r.Log() == s.Log() by {
      SameLog(s, r);
    }
    assert forall id :: Completed(s, id) <==> Completed(r, id);
    hide Completed;
  }

  lemma CancelKeepsActive(s: State, a: Act)
    requires OpenAreActive(s) && Enabled(s, a) && OfCancel(a) && HandlerFits(s.handler, s.placed, s.cancelled)
    ensures OpenAreActive(Next(s, a))
  {
    hide State.Log, Without, HasId, Completed;
    var r := Next(s, a);
    assert r.Log() == s.Log() by {
      SameLog(s, r);
    }
    StillActive(s, r);
  }

  lemma CloseKeepsActive(s: State, a: Act)
    requires Base(s) && OpenAreActive(s) && Enabled(s, a) && (a.CloseBuy? || a.CloseSell?)
    ensures OpenAreActive(Next(s, a))
  {
    hide SidesFit, RecordsFit, HandlerFits, Logged, Accounted, AnswersFit, LoopFits, OpenAreActive;
    hide State.Log, Held, Trade.After, Complete, Next;
    CloseHands(s, a);
    var r, t := Next(s, a), s.matcher.t;
    var o := t.After(if a.CloseBuy? then Buy else Sell);
    if o.amount == 0 {
      var time := if a.CloseBuy? then t.buyTime else t.sellTime;
      CompletionKeepsData(s, o, time);
      SameLogOf(s.(data := r.data), r);
      CompletionDropsOne(s.data, o, time);
      assert Completed(r, o.id) by {
        assert r.Log()[|s.Log()|] == o;
      }
      StillActive(s, r);
    } else {
      SameLog(s, r);
      StillActive(s, r);
    }
  }

  lemma CompletionDropsOne(d: ClientData, o: Order, time: int)
    ensures forall id :: id in d.activeBuys && id !in Complete(d, o, time).activeBuys ==> id == o.id
    ensures forall id :: id in d.activeSells && id !in Complete(d, o, time).activeSells ==> id == o.id
  {
  }

  /** The steps that leave every active map its keys. */
  lemma OtherStepsKeepKeys(s: State, a: Act)
    requires Enabled(s, a) && !a.Make? && !a.Enqueue? && !a.Insert? && !OfCancel(a) && !a.CloseBuy? && !a.CloseSell?
    ensures var r := Next(s, a);
            && r.placed == s.placed && r.cancelled == s.cancelled && r.handler == s.handler
            && r.logBefore == s.logBefore && r.data.completed == s.data.completed
            && r.data.activeBuys.Keys == s.data.activeBuys.Keys && r.data.activeSells.Keys == s.data.activeSells.Keys
  {
    hide UpdateActive, ChangeBalances, Tradable, Joined, Rested, Trade.After, State.Queue;
    match a
    case LowerSell =>
      var o := s.matcher.t.sell;
      UpdateKeepsRest(s.data, o.side, o.id, s.matcher.t.Amount());
    case LowerBuy =>
      var o := s.matcher.t.buy;
      UpdateKeepsRest(s.data, o.side, o.id, s.matcher.t.Amount());
    case MoveMoney =>
      var t := s.matcher.t;
      MoneyKeepsOrders(s.data, t.sell.client, t.buy.client, t.Amount(), t.Cost());
    case _ =>
  }

  lemma KeepsOpenActive(s: State, a: Act)
    requires Base(s) && OpenAreActive(s) && Enabled(s, a)
    ensures OpenAreActive(Next(s, a))
  {
    hide Enabled, Next, OpenAreActive, SidesFit, RecordsFit, HandlerFits, Logged, Accounted, AnswersFit, LoopFits;
    if a.Make? || a.Enqueue? {
      PlacingKeepsActive(s, a);
    } else if a.Insert? {
      InsertKeepsActive(s);
    } else if OfCancel(a) {
      CancelKeepsActive(s, a);
    } else if a.CloseBuy? || a.CloseSell? {
      CloseKeepsActive(s, a);
    } else {
      OtherStepsKeepKeys(s, a);
      KeysKeepActive(s, Next(s, a));
    }
  }

  lemma KeysKeepActive(s: State, r: State)
    requires OpenAreActive(s) && r.placed == s.placed && r.cancelled == s.cancelled && r.handler == s.handler
    requires r.logBefore == s.logBefore && r.data.completed == s.data.completed
    requires r.data.activeBuys.Keys == s.data.activeBuys.Keys && r.data.activeSells.Keys == s.data.activeSells.Keys
    ensures OpenAreActive(r)
  {
    SameLog(s, r);
    assert forall id | id in s.data.activeBuys :: id in r.data.activeBuys.Keys;
    assert forall id | id in s.data.activeSells :: id in r.data.activeSells.Keys;
    hide State.Log, Completed;
    StillActive(s, r);
  }

  lemma StartIsActive(s: State)
    requires Start(s)
    ensures OpenAreActive(s)
  {
    hide StartSide;
  }

  lemma {:induction false} EveryRunKeepsOpenActive(s: State, acts: seq<Act>)
    requires Reachable(s, acts)
    ensures Base(After(s, acts)) && OpenAreActive(After(s, acts))
    decreases |acts|
  {
    hide Next, Enabled, Base, Start, OpenAreActive;
    ReachableBase(s, acts);
    if acts == [] {
      StartIsActive(s);
    } else {
      var n := |acts| - 1;
      EveryRunKeepsOpenActive(s, acts[..n]);
      KeepsOpenActive(After(s, acts[..n]), acts[n]);
    }
  }

  // ---------- Whose orders are on the books ----------

  /** What the first phase of a cancel looks for. */
  predicate Owns(s: State, side: Side, id: int, client: string) {
    id in s.data.Active(side) && s.data.Active(side)[id].client == client
  }

  lemma OrdersOnBooksAreOwned(s: State, side: Side, o: Order)
    requires Base(s) && OpenAreActive(s) && !s.handler.Enqueued? && o in s.books.Of(side)
    ensures Owns(s, side, o.id, o.client)
  {
    hide SidesFit, Logged, Accounted, AnswersFit, LoopFits, HandlerFits, TradesFit, Completed;
    LiveOnBook(s, side, o);
    EndedOf(s, o.id);
  }

  lemma BookOwners(s: State, side: Side, id: int, client: string)
    requires Base(s) && OpenAreActive(s) && !s.handler.Enqueued?
    ensures MayCancel(s, side, id, client) <==> HasId(s.books.Of(side), id) && Owns(s, side, id, client)
  {
    hide Base, OpenAreActive;
    if MayCancel(s, side, id, client) {
      var o :| o in s.books.Of(side) && o.id == id && o.client == client;
      OrdersOnBooksAreOwned(s, side, o);
    } else if HasId(s.books.Of(side), id) {
      var o :| o in s.books.Of(side) && o.id == id;
      OrdersOnBooksAreOwned(s, side, o);
    }
  }

  // ---------- Cancel is atomic ----------

  /**
   * The state as if the cancel in progress were over: a removal from the book is also one from the active map, and
   * answered.
   */
  ghost function Committed(s: State): State {
    var h := s.handler;
    if h.CancelRemoved? then
      s.(data := RemoveActive(s.data, h.side, h.id).0, handler := Idle, answers := s.answers + [Answer(h.id, true)])
    else s.(handler := if h.Enqueued? then h else Idle)
  }

  /** A successful cancel in one step: off the book, out of the active map, and answered. */
  ghost function CancelAtOnce(s: State, side: Side, id: int): State {
    s.WithBook(side, Without(s.books.Of(side), id))
     .(data := RemoveActive(s.data, side, id).0, cancelled := s.cancelled + [id],
       answers := s.answers + [Answer(id, true)])
  }

  /** The state with one more cancel refused. */
  function Refused(s: State, id: int): State {
    s.(answers := s.answers + [Answer(id, false)])
  }

  ghost predicate MayCancel(s: State, side: Side, id: int, client: string) {
    exists o :: o in s.books.Of(side) && o.id == id && o.client == client
  }

  predicate OfCancel(a: Act) {
    a.CancelCheck? || a.CancelRemove? || a.CancelForget?
  }

  /** A cancel as one step: it succeeds if and only if the book of that side holds the caller's order. */
  ghost function AtomicCancel(m: State, side: Side, id: int, client: string): State {
    if MayCancel(m, side, id, client) then CancelAtOnce(m, side, id) else Refused(m, id)
  }

  /** One step of the exchange in which cancelling is atomic. */
  ghost predicate AtomicStep(m: State, m': State) {
    || m' == m
    || (exists a: Act :: !OfCancel(a) && Enabled(m, a) && m' == Next(m, a))
    || (exists side, id, client :: m' == AtomicCancel(m, side, id, client))
  }

  lemma CheckedClient(s: State, o: Order)
    requires Base(s) && s.handler.CancelChecked? && o in s.books.Of(s.handler.side) && o.id == s.handler.id
    ensures o.client == s.handler.client
  {
    hide SidesFit, RecordsFit, Logged, LoopFits, AnswersFit, Accounted, TradesFit, EndedIds;
    LiveOnBook(s, s.handler.side, o);
  }

  lemma CancelStepCommits(s: State, a: Act)
    requires Base(s) && OpenAreActive(s) && Enabled(s, a) && OfCancel(a)
    ensures match a
            case CancelCheck(side, id, client) =>
              Committed(Next(s, a))
              == if Owns(s, side, id, client) then Committed(s) else AtomicCancel(Committed(s), side, id, client)
            case CancelRemove =>
              Committed(Next(s, a)) == AtomicCancel(Committed(s), s.handler.side, s.handler.id, s.handler.client)
            case _ => Committed(Next(s, a)) == Committed(s)
  {
    hide Base, OpenAreActive, Without, HasId, MayCancel, RemoveActive;
    match a
    case CancelCheck(side, id, client) => CheckCommits(s, side, id, client);
    case CancelRemove => RemovalCommits(s);
    case _ =>
  }

  lemma CheckCommits(s: State, side: Side, id: int, client: string)
    requires Base(s) && OpenAreActive(s) && s.handler.Idle?
    ensures Committed(s) == s && (!Owns(s, side, id, client) ==> !MayCancel(Committed(s), side, id, client))
  {
    hide Base, OpenAreActive, HasId;
    BookOwners(s, side, id, client);
  }

  lemma RemovalCommits(s: State)
    requires Base(s) && s.handler.CancelChecked?
    ensures HasId(s.books.Of(s.handler.side), s.handler.id)
            <==> MayCancel(Committed(s), s.handler.side, s.handler.id, s.handler.client)
  {
    hide Base;
    if HasId(s.books.Of(s.handler.side), s.handler.id) {
      var o :| o in s.books.Of(s.handler.side) && o.id == s.handler.id;
      CheckedClient(s, o);
    }
  }

  /** The client data with one order out of its active map. */
  function Pruned(d: ClientData, side: Side, id: int): ClientData {
    RemoveActive(d, side, id).0
  }

  lemma UpdateCommutes(d: ClientData, gone: Side, id: int, side: Side, other: int, amount: int32)
    requires side == gone ==> other != id
    ensures UpdateActive(Pruned(d, gone, id), side, other, amount).1 == UpdateActive(d, side, other, amount).1
    ensures UpdateActive(Pruned(d, gone, id), side, other, amount).0
         == Pruned(UpdateActive(d, side, other, amount).0, gone, id)
  {
    hide Narrow;
    var e := UpdateActive(d, side, other, amount).0;
    if side == gone && other in d.Active(side) {
      assert UpdateActive(Pruned(d, gone, id), side, other, amount).0.Active(side) == Pruned(e, gone, id).Active(side);
    }
  }

  lemma CompleteCommutes(d: ClientData, gone: Side, id: int, o: Order, time: int)
    requires o.side == gone ==> o.id != id
    ensures CompleteIfEmpty(Pruned(d, gone, id), o, time) == Pruned(CompleteIfEmpty(d, o, time), gone, id)
  {
    if o.side == gone {
      assert d.Active(gone) - {id} - {o.id} == d.Active(gone) - {o.id} - {id};
      assert o.id !in d.Active(gone) ==> d.Active(gone) - {o.id} == d.Active(gone);
    }
  }

  lemma MoneyCommutes(d: ClientData, gone: Side, id: int, seller: string, buyer: string, amount: int, cost: real)
    ensures var (e, ok) := ChangeBalances(d, seller, buyer, amount, cost);
            ChangeBalances(Pruned(d, gone, id), seller, buyer, amount, cost) == (Pruned(e, gone, id), ok)
  {
  }

  lemma HandIsNotLeaving(s: State)
    requires Base(s) && s.handler.CancelRemoved?
    ensures forall o | o in Held(s.matcher, s.handler.side) :: o.id != s.handler.id
  {
    hide SidesFit, RecordsFit, Logged, LoopFits, AnswersFit, Accounted, TradesFit, Held;
    EndedMeans(s.Log(), s.cancelled);
    forall o | o in Held(s.matcher, s.handler.side)
      ensures o.id != s.handler.id
    {
      LiveOnBook(s, s.handler.side, o);
    }
  }

  lemma LowerCommits(s: State, a: Act, side: Side)
    requires Enabled(s, a) && s.handler.CancelRemoved? && (a.LowerSell? || a.LowerBuy?)
    requires side == (if a.LowerSell? then Sell else Buy) && s.matcher.t.Before(side).side == side
    requires side == s.handler.side ==> s.matcher.t.Before(side).id != s.handler.id
    ensures Enabled(Committed(s), a) && Committed(Next(s, a)) == Next(Committed(s), a)
  {
    hide UpdateActive, RemoveActive, Trade.After;
    UpdateCommutes(s.data, s.handler.side, s.handler.id, side, s.matcher.t.Before(side).id, s.matcher.t.Amount());
  }

  lemma CloseCommits(s: State, a: Act, side: Side)
    requires Enabled(s, a) && s.handler.CancelRemoved? && (a.CloseSell? || a.CloseBuy?)
    requires side == (if a.CloseSell? then Sell else Buy) && s.matcher.t.After(side).side == side
    requires side == s.handler.side ==> s.matcher.t.After(side).id != s.handler.id
    ensures Enabled(Committed(s), a) && Committed(Next(s, a)) == Next(Committed(s), a)
  {
    hide CompleteIfEmpty, RemoveActive, Trade.After;
    var t := s.matcher.t;
    CompleteCommutes(s.data, s.handler.side, s.handler.id, t.After(side), if a.CloseBuy? then t.buyTime else t.sellTime);
  }

  lemma MoneyCommits(s: State)
    requires Enabled(s, MoveMoney) && s.handler.CancelRemoved?
    ensures Enabled(Committed(s), MoveMoney) && Committed(Next(s, MoveMoney)) == Next(Committed(s), MoveMoney)
  {
    hide ChangeBalances, RemoveActive, Trade.After;
    var t := s.matcher.t;
    MoneyCommutes(s.data, s.handler.side, s.handler.id, t.sell.client, t.buy.client, t.Amount(), t.Cost());
  }

  lemma HandStepCommits(s: State, a: Act)
    requires Base(s) && Enabled(s, a) && s.handler.CancelRemoved?
    requires a.LowerSell? || a.LowerBuy? || a.MoveMoney? || a.CloseBuy? || a.CloseSell?
    ensures Enabled(Committed(s), a) && Committed(Next(s, a)) == Next(Committed(s), a)
  {
    hide Base, Next, Committed, GoodTrade, Trade.After;
    HandIsNotLeaving(s);
    GoodHand(s);
    GoodTradeAmounts(s.matcher.t);
    var side := if a.LowerSell? || a.CloseSell? then Sell else Buy;
    if a.MoveMoney? {
      MoneyCommits(s);
    } else {
      assert Held(s.matcher, side) == [s.matcher.t.After(side)];
      assert s.matcher.t.After(side) in Held(s.matcher, side);
      if a.LowerSell? || a.LowerBuy? {
        LowerCommits(s, a, side);
      } else {
        CloseCommits(s, a, side);
      }
    }
  }

  lemma BookStepCommits(s: State, a: Act)
    requires Enabled(s, a) && (a.Match? || a.PutBack? || a.Save?)
    ensures Enabled(Committed(s), a) && Committed(Next(s, a)) == Next(Committed(s), a)
  {
    hide Enabled, Next, Committed;
    match a
    case Match(t) => MatchCommits(s, t);
    case PutBack => PutBackCommits(s);
    case Save => SaveCommits(s);
  }

  lemma PutBackCommits(s: State)
    requires Enabled(s, PutBack)
    ensures Enabled(Committed(s), PutBack) && Committed(Next(s, PutBack)) == Next(Committed(s), PutBack)
  {
    hide RemoveActive, Rested, Trade.After;
  }

  lemma SaveCommits(s: State)
    requires Enabled(s, Save)
    ensures Enabled(Committed(s), Save) && Committed(Next(s, Save)) == Next(Committed(s), Save)
  {
    hide RemoveActive, Joined;
  }

  lemma MatchCommits(s: State, t: Trade)
    requires Enabled(s, Match(t))
    ensures Enabled(Committed(s), Match(t)) && Committed(Next(s, Match(t))) == Next(Committed(s), Match(t))
  {
    hide RemoveActive, Tradable, Less, State.Queue;
  }

  lemma AbsorbCommits(s: State)
    requires Enabled(s, Absorb)
    ensures Enabled(Committed(s), Absorb) && Committed(Next(s, Absorb)) == Next(Committed(s), Absorb)
  {
    hide RemoveActive, AbsorbedParts;
    AbsorbMovesParts(s);
    AbsorbMovesParts(Committed(s));
  }

  lemma ControlStepCommits(s: State, a: Act)
    requires Enabled(s, a) && (a.ReadGuard? || a.Enter? || a.NextQueue? || a.ReadFlag? || a.Leave?)
    ensures Enabled(Committed(s), a) && Committed(Next(s, a)) == Next(Committed(s), a)
  {
    if a.Enter? || a.NextQueue? {
      QueueStepCommits(s, a);
    } else {
      hide RemoveActive, State.Queue, Tradable;
    }
  }

  lemma QueueStepCommits(s: State, a: Act)
    requires Enabled(s, a) && (a.Enter? || a.NextQueue?)
    ensures Enabled(Committed(s), a) && Committed(Next(s, a)) == Next(Committed(s), a)
  {
    hide RemoveActive, Tradable;
  }

  lemma DataStepCommits(s: State, a: Act)
    requires Enabled(s, a) && !s.handler.CancelRemoved?
    requires a.LowerSell? || a.LowerBuy? || a.MoveMoney? || a.CloseBuy? || a.CloseSell?
    ensures Enabled(Committed(s), a) && Committed(Next(s, a)) == Next(Committed(s), a)
  {
    hide UpdateActive, ChangeBalances, CompleteIfEmpty, Trade.After;
  }

  lemma HandlerStepCommits(s: State, a: Act)
    requires Enabled(s, a) && (a.Make? || a.Enqueue? || a.Insert? || a.SignUp? || a.Stop?)
    ensures Enabled(Committed(s), a) && Committed(Next(s, a)) == Next(Committed(s), a)
  {
    hide PushActive;
  }

  /** The matcher never touches an order that is leaving, so its steps commute with the end of a cancel. */
  lemma StepCommits(s: State, a: Act)
    requires Base(s) && Enabled(s, a) && !OfCancel(a)
    ensures Enabled(Committed(s), a) && Committed(Next(s, a)) == Next(Committed(s), a)
  {
    hide Base, Next, Committed, Enabled;
    match a
    case ReadGuard | Enter | NextQueue | ReadFlag | Leave => ControlStepCommits(s, a);
    case Absorb => AbsorbCommits(s);
    case PutBack | Save => BookStepCommits(s, a);
    case Match(_) => BookStepCommits(s, a);
    case Make(_) => HandlerStepCommits(s, a);
    case Enqueue(_) => HandlerStepCommits(s, a);
    case SignUp(_) => HandlerStepCommits(s, a);
    case Insert | Stop => HandlerStepCommits(s, a);
    case LowerSell | LowerBuy | MoveMoney | CloseBuy | CloseSell =>
      if s.handler.CancelRemoved? {
        HandStepCommits(s, a);
      } else {
        DataStepCommits(s, a);
      }
    case _ =>
  }

  /** The three-phase cancel, interleaved in any way with the matcher, refines the atomic one. */
  lemma CancelRefinesAtomicCancel(s: State, a: Act)
    requires Base(s) && OpenAreActive(s) && Enabled(s, a)
    ensures AtomicStep(Committed(s), Committed(Next(s, a)))
  {
    if OfCancel(a) {
      hide Next, Base, OpenAreActive, Committed, AtomicCancel, HasId, Owns;
      CancelStepCommits(s, a);
    } else {
      hide Next, Base, OpenAreActive, Enabled, Committed, AtomicCancel, OfCancel;
      StepCommits(s, a);
    }
  }

  /**
   * Every run of the exchange is a run of the exchange with atomic cancels, each of which answers true if and only if
   * the book then holds the caller's order. In the atomic run the answers given are the same, in the same order.
   */
  lemma {:induction false} RunsRefineAtomicCancel(s: State, acts: seq<Act>) returns (trace: seq<State>)
    requires Reachable(s, acts)
    ensures |trace| == |acts| + 1 && trace[0] == Committed(s) && trace[|acts|] == Committed(After(s, acts))
    ensures forall i | 0 <= i < |acts| :: AtomicStep(trace[i], trace[i + 1])
    decreases |acts|
  {
    hide AtomicStep, Committed, Next, Enabled, Base, Start, OpenAreActive;
    if acts == [] {
      trace := [Committed(s)];
    } else {
      var n := |acts| - 1;
      EveryRunKeepsOpenActive(s, acts[..n]);
      CancelRefinesAtomicCancel(After(s, acts[..n]), acts[n]);
      trace := RunsRefineAtomicCancel(s, acts[..n]);
      trace := trace + [Committed(After(s, acts))];
    }
  }

  // ---------- A cancel that runs alone ----------

  lemma LoneCheck(s: State, side: Side, id: int, client: string)
    requires s.running && s.handler.Idle?
    ensures Enabled(s, CancelCheck(side, id, client))
    ensures Leads(s, [CancelCheck(side, id, client)],
                  if Owns(s, side, id, client) then s.(handler := CancelChecked(side, id, client)) else Refused(s, id))
  {
    LeadsOne(s, CancelCheck(side, id, client));
  }

  lemma LeadsOne(s: State, a: Act)
    requires Enabled(s, a)
    ensures Leads(s, [a], Next(s, a))
  {
    hide Leads, Enabled, Next;
    LeadsNowhere(s);
    LeadsOn(s, [], s, a);
    assert [] + [a] == [a];
  }

  lemma LoneRemoval(s: State, side: Side, id: int, client: string)
    requires s.handler.Idle? && (s.matcher.AtGuard? || s.matcher.Waiting?)
    requires Leads(s, [CancelCheck(side, id, client)], s.(handler := CancelChecked(side, id, client)))
    ensures if HasId(s.books.Of(side), id)
            then Leads(s, [CancelCheck(side, id, client), CancelRemove, CancelForget], CancelAtOnce(s, side, id))
            else Leads(s, [CancelCheck(side, id, client), CancelRemove], Refused(s, id))
  {
    hide Leads, HasId, Without, RemoveActive;
    var asked, s1 := [CancelCheck(side, id, client)], s.(handler := CancelChecked(side, id, client));
    LeadsOn(s, asked, s1, CancelRemove);
    assert asked + [CancelRemove] == [CancelCheck(side, id, client), CancelRemove];
    if HasId(s.books.Of(side), id) {
      LeadsOn(s, asked + [CancelRemove], Next(s1, CancelRemove), CancelForget);
      assert asked + [CancelRemove] + [CancelForget] == [CancelCheck(side, id, client), CancelRemove, CancelForget];
    }
  }

  /**
   * A cancel whose phases run in succession succeeds if and only if the book of that side holds an order with that id
   * whose client is the caller, however much of it has been filled. Then the order leaves the book and the active map
   * and the answer is true; otherwise the answer is false and nothing else changes.
   */
  lemma LoneCancelSucceedsIff(start: State, acts: seq<Act>, side: Side, id: int, client: string)
    requires Reachable(start, acts)
    requires var s := After(start, acts); s.running && s.handler.Idle? && (s.matcher.AtGuard? || s.matcher.Waiting?)
    ensures var s := After(start, acts);
            var check := CancelCheck(side, id, client);
            if exists o :: o in s.books.Of(side) && o.id == id && o.client == client
            then Leads(s, [check, CancelRemove, CancelForget], CancelAtOnce(s, side, id))
            else Leads(s, [check], Refused(s, id)) || Leads(s, [check, CancelRemove], Refused(s, id))
  {
    hide Start, Runs, After, Base, OpenAreActive, Leads, Owns, HasId;
    EveryRunKeepsOpenActive(start, acts);
    var s := After(start, acts);
    LoneCheck(s, side, id, client);
    BookOwners(s, side, id, client);
    if Owns(s, side, id, client) {
      LoneRemoval(s, side, id, client);
    }
  }

  // ---------- Answers under any interleaving ----------

  /** The step at which a cancel is refused, with the only two reasons there are. */
  ghost predicate Refuses(s: State, a: Act, id: int) {
    || (a.CancelCheck? && a.id == id && !Owns(s, a.side, id, a.client))
    || (a.CancelRemove? && s.handler.CancelChecked? && s.handler.id == id && !HasId(s.books.Of(s.handler.side), id))
  }

  lemma OthersGiveNoAnswer(s: State, a: Act)
    requires Enabled(s, a) && !OfCancel(a)
    ensures Next(s, a).answers == s.answers
    ensures Next(s, a).handler.CancelChecked? || Next(s, a).handler.CancelRemoved? ==> Next(s, a).handler == s.handler
  {
    hide UpdateActive, ChangeBalances, Tradable, Joined, Rested, Trade.After, CompleteIfEmpty, PushActive, State.Queue;
  }

  /** A step gives at most one answer: false exactly where it refuses, true when the record of a removed order goes. */
  lemma AnswersOfAStep(s: State, a: Act)
    requires Enabled(s, a)
    ensures var given := Next(s, a).answers;
            && s.answers <= given && |given| <= |s.answers| + 1
            && (|given| > |s.answers| ==>
                  var last := given[|s.answers|];
                  if last.success then a.CancelForget? && s.handler.id == last.id else Refuses(s, a, last.id))
            && (forall id | Refuses(s, a, id) :: given == s.answers + [Answer(id, false)])
  {
    if OfCancel(a) {
      hide Without, RemoveActive, HasId;
    } else {
      hide Next, Enabled;
      OthersGiveNoAnswer(s, a);
    }
  }

  /** A cancel past its first phase was asked for by the client it carries. */
  ghost predicate Asked(h: Handler, acts: seq<Act>) {
    h.CancelChecked? || h.CancelRemoved? ==> CancelCheck(h.side, h.id, h.client) in acts
  }

  lemma {:induction false} CancelsWereAsked(s: State, acts: seq<Act>)
    requires Reachable(s, acts)
    ensures Asked(After(s, acts).handler, acts)
    decreases |acts|
  {
    hide StartSide, Next, Enabled;
    if acts != [] {
      var n := |acts| - 1;
      CancelsWereAsked(s, acts[..n]);
      StepKeepsAsked(After(s, acts[..n]), acts[..n], acts[n]);
      assert acts == acts[..n] + [acts[n]];
    }
  }

  lemma StepKeepsAsked(s: State, acts: seq<Act>, a: Act)
    requires Asked(s.handler, acts) && Enabled(s, a)
    ensures Asked(Next(s, a).handler, acts + [a])
  {
    if OfCancel(a) {
      hide Without, RemoveActive, HasId;
    } else {
      hide Next, Enabled;
      OthersGiveNoAnswer(s, a);
    }
  }

  lemma OwnersHaveNoOpenOrder(s: State, side: Side, id: int, client: string)
    requires Base(s) && OpenAreActive(s) && !s.handler.Enqueued? && !Owns(s, side, id, client)
    ensures !OpenOrderOf(s, side, id, client)
  {
    hide SidesFit, Logged, Accounted, AnswersFit, LoopFits, HandlerFits, TradesFit, Completed;
    assert id in s.data.Active(side) ==> id in s.placed && s.placed[id].client == s.data.Active(side)[id].client;
  }

  /** What the k-th answer, a refusal, was given for: the state before step i, and what that step saw there. */
  ghost predicate RefusedAt(s: State, acts: seq<Act>, i: nat, k: nat)
    requires Runs(s, acts) && k < |After(s, acts).answers|
  {
    && i < |acts| && Runs(s, acts[..i])
    && var q, id := After(s, acts[..i]), After(s, acts).answers[k].id;
    && |q.answers| == k
    && if acts[i].CancelCheck?
       then acts[i].id == id && !Owns(q, acts[i].side, id, acts[i].client)
            && !OpenOrderOf(q, acts[i].side, id, acts[i].client)
       else acts[i].CancelRemove? && q.handler.CancelChecked? && q.handler.id == id
            && CancelCheck(q.handler.side, id, q.handler.client) in acts[..i]
            && !HasId(q.books.Of(q.handler.side), id)
  }

  /**
   * However the two threads interleave, a cancel answers false for one of two reasons only: when it checked, no active
   * record with that id on that side belonged to the caller, who had no such order open; or, when it looked at the
   * book, the id was not on it.
   */
  lemma {:induction false} RefusalsHaveReasons(s: State, acts: seq<Act>, k: nat) returns (i: nat)
    requires Reachable(s, acts) && k < |After(s, acts).answers| && !After(s, acts).answers[k].success
    ensures RefusedAt(s, acts, i, k)
    decreases |acts|
  {
    hide StartSide, Next, Enabled, Base, OpenAreActive, Owns, OpenOrderOf, HasId;
    var n := |acts| - 1;
    var q := After(s, acts[..n]);
    AnswersOfAStep(q, acts[n]);
    if k < |q.answers| {
      i := RefusalsHaveReasons(s, acts[..n], k);
      assert acts[..n][..i] == acts[..i] && acts[..n][i] == acts[i];
    } else {
      i := n;
      CancelsWereAsked(s, acts[..n]);
      EveryRunKeepsOpenActive(s, acts[..n]);
      if acts[n].CancelCheck? {
        CheckIsIdle(q, acts[n]);
        OwnersHaveNoOpenOrder(q, acts[n].side, acts[n].id, acts[n].client);
      }
    }
  }

  lemma CheckIsIdle(s: State, a: Act)
    requires Enabled(s, a) && a.CancelCheck?
    ensures s.handler.Idle?
  {
  }

  /** And it answers true only to the client that placed the order, on the side it was placed on. */
  lemma {:induction false} SuccessesGoToTheOwner(s: State, acts: seq<Act>, k: nat) returns (check: Act)
    requires Reachable(s, acts) && k < |After(s, acts).answers| && After(s, acts).answers[k].success
    ensures check in acts && check.CancelCheck? && check.id == After(s, acts).answers[k].id
    ensures var r := After(s, acts);
            && check.id in r.placed && r.placed[check.id].client == check.client
            && r.placed[check.id].side == check.side && check.id in r.cancelled
    decreases |acts|
  {
    hide StartSide, Next, Enabled, Base;
    var n := |acts| - 1;
    var q := After(s, acts[..n]);
    AnswersOfAStep(q, acts[n]);
    PlacedStays(q, acts[n]);
    if k < |q.answers| {
      check := SuccessesGoToTheOwner(s, acts[..n], k);
      CancelledStays(q, acts[n]);
    } else {
      CancelsWereAsked(s, acts[..n]);
      ReachableBase(s, acts[..n]);
      ForgottenFits(q, acts[n]);
      CancelledStays(q, acts[n]);
      check := CancelCheck(q.handler.side, q.handler.id, q.handler.client);
    }
  }

  lemma CancelledStays(s: State, a: Act)
    requires Enabled(s, a)
    ensures s.cancelled <= Next(s, a).cancelled
  {
    hide UpdateActive, ChangeBalances, Tradable, Joined, Rested, Trade.After, CompleteIfEmpty, PushActive, State.Queue;
    hide Without, HasId, RemoveActive;
  }

  lemma ForgottenFits(s: State, a: Act)
    requires Base(s) && Enabled(s, a) && a.CancelForget?
    ensures s.handler.CancelRemoved? && s.handler.id in s.placed && s.placed[s.handler.id].client == s.handler.client
    ensures s.placed[s.handler.id].side == s.handler.side && s.handler.id in s.cancelled
  {
    hide SidesFit, RecordsFit, Logged, Accounted, AnswersFit, LoopFits, TradesFit;
  }
}
