/** What the matching thread does with a turn to itself, and when it can go on at all (server/core.cpp). */
module Turns {
  import opened Orders
  import opened Sums
  import opened Matching
  import opened Ledger
  import opened Sides
  import opened Exchange
  import opened ExchangeSafety
  import opened ExchangeAgreement
  import opened ExchangeTheorems

  /** The matching thread can always go on, until its loop is over, but for its wait: for an order or for the stop. */
  lemma MatcherMovesIff(s: State)
    ensures (exists a: Act :: !OfHandler(a) && Enabled(s, a))
            <==> !s.matcher.Out? && (s.matcher.Waiting? ==> s.queueBuys != [] || s.queueSells != [] || !s.running)
  {
    var m := s.matcher;
    if !m.Out? && (m.Waiting? ==> s.queueBuys != [] || s.queueSells != [] || !s.running) {
      var a :=
        match m
        case AtGuard => ReadGuard
        case Waiting => Enter
        case Absorbing(side) => if s.Queue(side) != [] then Absorb else NextQueue
        case AtCheck => ReadFlag
        case LoopHead => Leave
        case Popped(_) => LowerSell
        case SellLowered(_) => LowerBuy
        case BuyLowered(_) => MoveMoney
        case Matched(_) => CloseBuy
        case BuyClosed(_) => CloseSell
        case BothClosed(_) => PutBack
        case _ => Save;
      assert !OfHandler(a) && Enabled(s, a);
    }
  }

  /** The actions, all of the matching thread, lead from s to r. */
  ghost predicate Turns(s: State, acts: seq<Act>, r: State) {
    Leads(s, acts, r) && forall a | a in acts :: !OfHandler(a)
  }

  lemma TurnsOn(s: State, acts: seq<Act>, r: State, a: Act)
    requires Turns(s, acts, r) && Enabled(r, a) && !OfHandler(a)
    ensures Turns(s, acts + [a], Next(r, a))
  {
    hide Leads, Next, Enabled, OfHandler;
    LeadsOn(s, acts, r, a);
  }

  // ---------- Absorbing ----------

  /** The queue of the side is empty, and all that was in it is on the book. */
  ghost function Absorbed(s: State, side: Side): State {
    s.WithQueue(side, []).WithBook(side, s.books.Of(side) + multiset(s.Queue(side)))
  }

  lemma AbsorbsFirst(s: State, side: Side)
    requires s.matcher == Absorbing(side) && s.Queue(side) != [] && s.Queue(side)[0].side == side
    ensures Enabled(s, Absorb) && Next(s, Absorb).Queue(side) == s.Queue(side)[1..]
    ensures Next(s, Absorb).matcher == Absorbing(side) && Absorbed(Next(s, Absorb), side) == Absorbed(s, side)
  {
    var q := s.Queue(side);
    assert q == [q[0]] + q[1..];
    assert More(s.books.Of(side), q[0]) + multiset(q[1..]) == s.books.Of(side) + multiset(q);
  }

  lemma {:induction false} AbsorbsAll(start: State, before: seq<Act>, s: State, side: Side) returns (acts: seq<Act>)
    requires Turns(start, before, s) && s.matcher == Absorbing(side)
    requires forall o | o in s.Queue(side) :: o.side == side
    ensures Turns(start, acts, Absorbed(s, side))
    decreases |s.Queue(side)|
  {
    hide Turns, Enabled;
    var q := s.Queue(side);
    if q == [] {
      acts := before;
      assert s.books.Of(side) + multiset(q) == s.books.Of(side);
    } else {
      assert q[0] in q && forall o | o in q[1..] :: o in q;
      AbsorbsFirst(s, side);
      hide Next, Absorbed;
      TurnsOn(start, before, s, Absorb);
      acts := AbsorbsAll(start, before + [Absorb], Next(s, Absorb), side);
    }
  }

  lemma QueuedOnTheirSide(s: State, side: Side)
    requires Base(s)
    ensures forall o | o in s.Queue(side) :: o.side == side
  {
    hide Base, State.Queue;
    forall o | o in s.Queue(side)
      ensures o.side == side
    {
      assert SidesFit(s) by {
        SidesOf(s);
      }
      LiveOnBook(s, side, o);
    }
  }

  lemma SidesOf(s: State)
    requires Base(s)
    ensures SidesFit(s)
  {
    hide SidesFit;
  }

  /** Both books with all that was queued. */
  ghost function Full(s: State): Books {
    Books(s.books.buys + multiset(s.queueBuys), s.books.sells + multiset(s.queueSells))
  }

  /** Woken by an order, the thread puts all that is queued on the books and comes to its matching loop. */
  lemma TurnAbsorbs(s: State) returns (acts: seq<Act>)
    requires Base(s) && s.running && s.matcher.Waiting? && (s.queueBuys != [] || s.queueSells != [])
    ensures Turns(s, acts, s.(queueBuys := [], queueSells := [], books := Full(s), matcher := LoopHead))
  {
    QueuedOnTheirSide(s, Buy);
    QueuedOnTheirSide(s, Sell);
    TurnsNowhere(s);
    hide Base, Turns, OfHandler;
    Entering(s);
    TurnsOn(s, [], s, Enter);
    var s1 := s.(matcher := Absorbing(Buy));
    acts := AbsorbsAll(s, [] + [Enter], s1, Buy);
    var s2 := Absorbed(s1, Buy);
    LeavingQueue(s2);
    TurnsOn(s, acts, s2, NextQueue);
    var s3 := s2.(matcher := Absorbing(Sell));
    acts := AbsorbsAll(s, acts + [NextQueue], s3, Sell);
    acts := AfterAbsorbing(s, acts, Absorbed(s3, Sell));
  }

  lemma Entering(s: State)
    requires s.matcher.Waiting? && (s.queueBuys != [] || s.queueSells != [])
    ensures !OfHandler(Enter) && Enabled(s, Enter) && Next(s, Enter) == s.(matcher := Absorbing(Buy))
  {
  }

  lemma LeavingQueue(s: State)
    requires s.matcher.Absorbing? && s.Queue(s.matcher.side) == []
    ensures !OfHandler(NextQueue) && Enabled(s, NextQueue)
    ensures Next(s, NextQueue) == s.(matcher := if s.matcher.side.Buy? then Absorbing(Sell) else AtCheck)
  {
  }

  lemma AfterAbsorbing(start: State, before: seq<Act>, s: State) returns (acts: seq<Act>)
    requires Turns(start, before, s) && s.running && s.matcher == Absorbing(Sell) && s.queueSells == []
    ensures Turns(start, acts, s.(matcher := LoopHead))
  {
    hide Turns;
    LeavingQueue(s);
    TurnsOn(start, before, s, NextQueue);
    TurnsOn(start, before + [NextQueue], s.(matcher := AtCheck), ReadFlag);
    acts := before + [NextQueue] + [ReadFlag];
  }

  lemma TurnsNowhere(s: State)
    ensures Turns(s, [], s)
  {
    LeadsNowhere(s);
  }

  // ---------- Matching ----------

  lemma {:induction false} TurnsChain(s: State, acts: seq<Act>, q: State, more: seq<Act>, r: State)
    requires Turns(s, acts, q) && Turns(q, more, r)
    ensures Turns(s, acts + more, r)
    decreases |more|
  {
    hide Next, Enabled, OfHandler;
    if more == [] {
      assert acts + more == acts;
    } else {
      var n := |more| - 1;
      TurnsChain(s, acts, q, more[..n], After(q, more[..n]));
      TurnsOn(s, acts + more[..n], After(q, more[..n]), more[n]);
      assert acts + more == acts + more[..n] + [more[n]];
    }
  }

  lemma MatchTurns(s: State, t: Trade) returns (acts: seq<Act>, r: State)
    requires Inv(s) && s.matcher.LoopHead? && Tradable(s.books, t)
    ensures Turns(s, acts, r) && Inv(r)
    ensures r == s.(data := Record(s.data, t), books := Apply(s.books, t), trades := s.trades + [t],
                    settled := s.trades + [t])
  {
    hide Leads, Inv, Record, Apply, Tradable;
    r := MatchStepsRecordATrade(s, t);
    acts := [] + [Match(t)] + [LowerSell] + [LowerBuy] + [MoveMoney] + [CloseBuy] + [CloseSell] + [PutBack];
  }

  /** While two orders cross the thread has a trade to make, and every trade leaves fewer orders: it settles the books. */
  lemma {:induction false} LoopSettles(s: State) returns (acts: seq<Act>, log: seq<Trade>, r: State)
    requires Inv(s) && s.matcher.LoopHead?
    ensures Turns(s, acts, r) && Inv(r) && Legal(s.books, log) && Settled(r.books)
    ensures r == s.(data := RecordAll(s.data, log), books := Replay(s.books, log), trades := s.trades + log,
                    settled := r.settled)
    decreases |s.books.buys| + |s.books.sells|
  {
    hide Inv, Turns, Legal, Record, Apply;
    if x, y :| x in s.books.buys && y in s.books.sells && Crosses(x.price, y.price) {
      var t := Trade(x, y, 0, 0);
      var first, q := MatchTurns(s, t);
      TradeShrinksTheBooks(s.books, t);
      var more, rest;
      more, rest, r := LoopSettles(q);
      TurnsChain(s, first, q, more, r);
      acts, log := first + more, [t] + rest;
      TradeFirst(s.books, s.data, t, rest);
      assert s.trades + [t] + rest == s.trades + ([t] + rest);
    } else {
      TurnsNowhere(s);
      acts, log, r := [], [], s;
      NothingIsLegal(s.books);
      assert s.trades + [] == s.trades;
    }
  }

  lemma NothingIsLegal(b: Books)
    ensures Legal(b, []) && Replay(b, []) == b
  {
  }

  lemma {:induction false} TradeFirst(b: Books, d: ClientData, t: Trade, rest: seq<Trade>)
    requires Tradable(b, t) && Legal(Apply(b, t), rest)
    ensures Legal(b, [t] + rest) && Replay(b, [t] + rest) == Replay(Apply(b, t), rest)
    ensures RecordAll(d, [t] + rest) == RecordAll(Record(d, t), rest)
    decreases |rest|
  {
    hide Apply, Record, Tradable;
    if rest == [] {
      assert [t] + rest == [t] && [t][..0] == [];
      assert Replay(b, []) == b && RecordAll(d, []) == d && Legal(b, []);
    } else {
      var n := |rest| - 1;
      assert ([t] + rest)[..n + 1] == [t] + rest[..n] && ([t] + rest)[n + 1] == rest[n];
      TradeFirst(b, d, t, rest[..n]);
    }
  }

  /**
   * A turn of the matching thread alone, woken by an order: all that is queued goes on the books, and the books are
   * settled by legal trades, each recorded in the client data, before the thread waits again. Nothing is left queued,
   * and no two orders left on the books cross.
   */
  lemma LoneTurnSettles(s: State) returns (acts: seq<Act>, log: seq<Trade>, r: State)
    requires Inv(s) && s.running && s.matcher.Waiting? && (s.queueBuys != [] || s.queueSells != [])
    ensures Turns(s, acts, r) && Inv(r) && Settled(r.books)
    ensures Legal(Full(s), log) && r.books == Replay(Full(s), log) && r.queueBuys == r.queueSells == []
    ensures r.data == RecordAll(s.data, log) && r.trades == s.trades + log && r.matcher.AtGuard?
  {
    hide Base, Turns, Legal, InStep, RecordAll, Replay, Full;
    var first := TurnAbsorbs(s);
    var q := s.(queueBuys := [], queueSells := [], books := Full(s), matcher := LoopHead);
    TurnsKeepInv(s, first, q);
    hide Inv;
    var more;
    more, log, r := LoopSettles(q);
    TurnsChain(s, first, q, more, r);
    TurnsOn(s, first + more, r, Leave);
    KeepsInv(r, Leave);
    acts, r := first + more + [Leave], Next(r, Leave);
  }

  lemma {:induction false} TurnsKeepInv(s: State, acts: seq<Act>, r: State)
    requires Inv(s) && Turns(s, acts, r)
    ensures Inv(r)
    decreases |acts|
  {
    hide Inv, Next, Enabled;
    if acts != [] {
      var n := |acts| - 1;
      assert acts[n] in acts && forall a | a in acts[..n] :: a in acts;
      TurnsKeepInv(s, acts[..n], After(s, acts[..n]));
      KeepsInv(After(s, acts[..n]), acts[n]);
    }
  }
}
