/** How stock_loop ends: which stop is followed by a save of the books, and what is in the tables afterwards. */
module Shutdown {
  import opened Orders
  import opened Sums
  import opened Matching
  import opened Ledger
  import opened PriorityQueue
  import opened Sides
  import opened Exchange
  import opened ExchangeSafety
  import opened ExchangeTheorems

  /** The matcher still has the second reading of the flag of its turn before it, or has read it as stopped. */
  predicate WillSave(m: Matcher) {
    m.Waiting? || m.Absorbing? || m.AtCheck? || m.Saving? || m == Out(true)
  }

  /** The queue of the side has been emptied for the last time in this turn. */
  predicate PastAbsorbing(m: Matcher, side: Side) {
    m.AtCheck? || m.Saving? || m == Out(true) || (m == Absorbing(Sell) && side.Buy?)
  }

  /** Where a queue stands after the stop: no longer filled, and emptied if the matcher had not passed it. */
  predicate QueueAfterStop(r: State, side: Side, passed: bool, left: seq<Order>) {
    if passed then PastAbsorbing(r.matcher, side) && r.Queue(side) == left
    else PastAbsorbing(r.matcher, side) ==> r.Queue(side) == []
  }

  /** After the stop every step keeps the loop on its way to the save, or on its way past it. */
  lemma StoppedStep(s: State, a: Act)
    requires Base(s) && Enabled(s, a) && !s.running
    ensures !OfHandler(a) && !Next(s, a).running && (WillSave(Next(s, a).matcher) <==> WillSave(s.matcher))
  {
    hide SidesFit, RecordsFit, TradesFit, HandlerFits, Accounted, AnswersFit, Logged, UpdateActive, ChangeBalances;
    hide CompleteIfEmpty, Tradable, Joined, Rested, Trade.After, Less, More;
  }

  lemma StoppedQueue(s: State, a: Act, side: Side, passed: bool, left: seq<Order>)
    requires Enabled(s, a) && !OfHandler(a) && !s.running && WillSave(s.matcher)
    requires QueueAfterStop(s, side, passed, left)
    ensures QueueAfterStop(Next(s, a), side, passed, left)
  {
    hide UpdateActive, ChangeBalances, CompleteIfEmpty, Tradable, Joined, Rested, Trade.After, Less, More;
  }

  lemma {:induction false} StoppedRun(s: State, acts: seq<Act>, side: Side, passed: bool, left: seq<Order>)
    requires Base(s) && Runs(s, acts) && !s.running && (WillSave(s.matcher) ==> QueueAfterStop(s, side, passed, left))
    ensures var r := After(s, acts);
            && Base(r) && !r.running && (WillSave(r.matcher) <==> WillSave(s.matcher))
            && (WillSave(s.matcher) ==> QueueAfterStop(r, side, passed, left))
    decreases |acts|
  {
    hide Base, Next, Enabled, WillSave, QueueAfterStop;
    if acts != [] {
      var n := |acts| - 1;
      StoppedRun(s, acts[..n], side, passed, left);
      var r := After(s, acts[..n]);
      KeepsBase(r, acts[n]);
      StoppedStep(r, acts[n]);
      if WillSave(s.matcher) {
        StoppedQueue(r, acts[n], side, passed, left);
      }
    }
  }

  /** A run is its first part and then its second. */
  lemma {:induction false} RunsInParts(s: State, acts: seq<Act>, i: nat)
    requires i <= |acts| && Runs(s, acts)
    ensures Runs(s, acts[..i]) && Runs(After(s, acts[..i]), acts[i..])
    ensures After(After(s, acts[..i]), acts[i..]) == After(s, acts)
    decreases |acts|
  {
    hide Next, Enabled;
    if i < |acts| {
      var n := |acts| - 1;
      RunsInParts(s, acts[..n], i);
      assert acts[..n][..i] == acts[..i] && acts[..n][i..] == acts[i..][..n - i];
    } else {
      assert acts[..i] == acts && acts[i..] == [];
    }
  }

  lemma {:induction false} StopWasTaken(s: State, acts: seq<Act>) returns (i: nat)
    requires s.running && Runs(s, acts) && !After(s, acts).running
    ensures i < |acts| && acts[i].Stop?
    decreases |acts|
  {
    hide Next, Enabled;
    var n := |acts| - 1;
    if After(s, acts[..n]).running {
      OnlyStopStops(After(s, acts[..n]), acts[n]);
      i := n;
    } else {
      i := StopWasTaken(s, acts[..n]);
    }
  }

  lemma OnlyStopStops(s: State, a: Act)
    requires Enabled(s, a) && s.running && !Next(s, a).running
    ensures a.Stop?
  {
    hide UpdateActive, ChangeBalances, CompleteIfEmpty, Tradable, Joined, Rested, Trade.After, Less, More, Without;
    hide PushActive, RemoveActive, HasId;
  }

  /** The loop does not end unless it is stopped. */
  lemma OutMeansStopped(s: State, acts: seq<Act>) returns (i: nat)
    requires Reachable(s, acts) && After(s, acts).matcher.Out?
    ensures i < |acts| && acts[i].Stop?
  {
    hide Start, Runs, After, SidesFit, RecordsFit, TradesFit, HandlerFits, Accounted, AnswersFit, Logged;
    assert s.running by {
      StartRuns(s);
    }
    ReachableBase(s, acts);
    i := StopWasTaken(s, acts);
  }

  lemma StartRuns(s: State)
    requires Start(s)
    ensures s.running
  {
  }

  lemma StopTakesNoTurn(s: State)
    requires Enabled(s, Stop)
    ensures Next(s, Stop) == s.(running := false)
  {
  }

  /**
   * When the loop has ended, it has saved the books if and only if the stop came between its reading of the guard and
   * its second reading of the flag. Then a queue it had already emptied in that turn keeps what came later, and any
   * other is empty. If the stop came while it matched or was back at its guard, nothing has been saved.
   */
  lemma LoopSavesIff(s: State, acts: seq<Act>, i: nat, side: Side)
    requires Reachable(s, acts) && i < |acts| && acts[i].Stop? && After(s, acts).matcher.Out?
    ensures Runs(s, acts[..i])
    ensures var m, r := After(s, acts[..i]), After(s, acts);
            && (r.matcher.savedBooks <==> WillSave(m.matcher))
            && (WillSave(m.matcher) ==>
                  r.Queue(side) == if PastAbsorbing(m.matcher, side) then m.Queue(side) else [])
  {
    hide Start, Base, Next, Enabled;
    RunsInParts(s, acts, i);
    RunsInParts(s, acts, i + 1);
    var m, r := After(s, acts[..i]), After(s, acts);
    assert acts[..i + 1][..i] == acts[..i];
    StopTakesNoTurn(m);
    assert After(s, acts[..i + 1]) == m.(running := false);
    EveryRunKeepsBase(s, acts[..i + 1]);
    StoppedRun(m.(running := false), acts[i + 1..], side, PastAbsorbing(m.matcher, side), m.Queue(side));
  }

  /** What stands on the market at the end: saved, or still on the books or in the queues. */
  function Standing(r: State, side: Side): multiset<Order> {
    r.saved.Of(side) + r.books.Of(side) + multiset(r.Queue(side))
  }

  /** At the end of the loop every order that has not ended stands once, with what its fills have left of it. */
  lemma StandingAtTheEnd(s: State, acts: seq<Act>, side: Side, id: int)
    requires Reachable(s, acts) && After(s, acts).matcher.Out?
    requires id in After(s, acts).placed && After(s, acts).placed[id].side == side
    ensures var r := After(s, acts);
            && (!Completed(r, id) && id !in r.cancelled <==> exists o :: o in Standing(r, side) && o.id == id)
            && (forall o | o in Standing(r, side) && o.id == id ::
                  Filled(r.trades, side, id) + o.amount == r.placed[id].amount && Standing(r, side)[o] == 1)
  {
    hide Start, Runs, After, Filled, Completed, SidesFit;
    ReachableBase(s, acts);
    EveryOrderIsAccountedFor(s, acts, id);
    var r := After(s, acts);
    StandingIsLive(r, side);
    assert RestOf(r, side).Has(id) <==> exists o :: o in Standing(r, side) && o.id == id;
  }

  lemma StandingIsLive(r: State, side: Side)
    requires SidesFit(r) && r.matcher.Out?
    ensures forall o :: o in Standing(r, side) <==> RestOf(r, side).Live(o)
    ensures forall o | o in Standing(r, side) :: Standing(r, side)[o] == 1
  {
    hide LogFits, CancelsFit, PastFits, Facts, Found, EndedIds;
    assert Kept(RestOf(r, side), PastOf(r), side);
    assert RestOf(r, side) == Rest(r.Queue(side), r.books.Of(side), [], r.saved.Of(side));
    forall o | o in r.Queue(side)
      ensures multiset(r.Queue(side))[o] == 1
    {
      OnceInQueue(r.Queue(side), o);
    }
  }

  lemma {:induction false} OnceInQueue(queue: seq<Order>, o: Order)
    requires o in queue && forall i, j | 0 <= i < j < |queue| :: queue[i] != queue[j]
    ensures multiset(queue)[o] == 1
  {
    var n := |queue| - 1;
    assert queue == queue[..n] + [queue[n]];
    if o == queue[n] {
      assert o !in queue[..n];
    } else {
      OnceInQueue(queue[..n], o);
    }
  }

  /** The tables hold the old rows and all that stood on the market exactly when nothing is left on a book or a queue. */
  lemma EverythingIsSavedIff(s: State, acts: seq<Act>)
    requires Reachable(s, acts) && After(s, acts).matcher.Out?
    ensures var r := After(s, acts);
            && r.tables == Joined(s.tables, r.saved)
            && (r.matcher.savedBooks ==> r.books == Books(multiset{}, multiset{}))
            && (!r.matcher.savedBooks ==> r.tables == s.tables)
            && (r.tables == Joined(s.tables, Books(Standing(r, Buy), Standing(r, Sell)))
                <==> r.books == Books(multiset{}, multiset{}) && r.queueBuys == [] && r.queueSells == [])
  {
    hide Start, Runs, After, SidesFit, RecordsFit, TradesFit, HandlerFits, Accounted, AnswersFit, Logged, Standing;
    ReachableBase(s, acts);
    TablesBeforeStay(s, acts);
    var r := After(s, acts);
    assert Joined(s.tables, Books(multiset{}, multiset{})) == s.tables;
    StandsSavedIff(s.tables.buys, r, Buy);
    StandsSavedIff(s.tables.sells, r, Sell);
  }

  lemma StandsSavedIff(rows: multiset<Order>, r: State, side: Side)
    ensures rows + r.saved.Of(side) == rows + Standing(r, side)
            <==> r.books.Of(side) == multiset{} && r.Queue(side) == []
  {
    assert |rows + Standing(r, side)| == |rows| + |r.saved.Of(side)| + |r.books.Of(side)| + |r.Queue(side)|;
    assert |rows + r.saved.Of(side)| == |rows| + |r.saved.Of(side)|;
    if r.books.Of(side) == multiset{} && r.Queue(side) == [] {
      assert Standing(r, side) == r.saved.Of(side);
    }
  }

  lemma {:induction false} TablesBeforeStay(s: State, acts: seq<Act>)
    requires Reachable(s, acts)
    ensures After(s, acts).tablesBefore == s.tables
    decreases |acts|
  {
    hide Next, Enabled, StartSide;
    if acts != [] {
      var n := |acts| - 1;
      TablesBeforeStay(s, acts[..n]);
      StepKeepsHistory(After(s, acts[..n]), acts[n]);
    }
  }

  /** A stop during matching: the loop leaves through its guard, all its orders still on the books and none saved. */
  lemma StopWhileMatchingLosesTheBooks(s: State, acts: seq<Act>) returns (q: State)
    requires Reachable(s, acts)
    requires After(s, acts).running && After(s, acts).handler.Idle? && After(s, acts).matcher.LoopHead?
    ensures Leads(s, acts + [Stop] + [Leave] + [ReadGuard], q) && q.matcher == Out(false)
    ensures q.tables == s.tables && q.books == After(s, acts).books && q.saved == Books(multiset{}, multiset{})
  {
    hide Start, SidesFit, RecordsFit, TradesFit, HandlerFits, Accounted, AnswersFit, Logged, Leads, Runs, After;
    var r := After(s, acts);
    ReachableBase(s, acts);
    TablesBeforeStay(s, acts);
    assert Joined(s.tables, Books(multiset{}, multiset{})) == s.tables;
    assert Leads(s, acts, r) by {
      RunLeads(s, acts);
    }
    LeadsOn(s, acts, r, Stop);
    LeadsOn(s, acts + [Stop], r.(running := false), Leave);
    q := r.(running := false, matcher := AtGuard);
    LeadsOn(s, acts + [Stop] + [Leave], q, ReadGuard);
    q := q.(matcher := Out(false));
  }

  lemma RunLeads(s: State, acts: seq<Act>)
    requires Runs(s, acts)
    ensures Leads(s, acts, After(s, acts))
  {
  }
}
