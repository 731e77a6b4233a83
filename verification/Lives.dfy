/**
 * One life of the server after another: arbitrary runs of the exchange, each ended by a stop, with the tables carrying
 * the orders over (server/core.cpp, server/client_data_manager.cpp, server/server.cpp).
 */
module Lives {
  import opened Orders
  import opened Matching
  import opened Ledger
  import opened PriorityQueue
  import opened Sides
  import opened Exchange
  import opened ExchangeSafety
  import opened ExchangeTheorems
  import opened Shutdown
  import opened Persistence

  /** A start and everything the two threads do until the matching loop has ended. */
  datatype Run = Run(start: State, acts: seq<Act>)
  {
    ghost predicate Ends() {
      Reachable(start, acts) && After(start, acts).matcher.Out?
    }

    ghost function End(): State
      requires Ends()
    {
      After(start, acts)
    }
  }

  const NO_ROWS := Books(multiset{}, multiset{})

  /** The next life starts with the rows of the tables on its books; the truncation succeeds or fails. */
  ghost predicate Follows(l: Run, m: Run, truncated: bool)
    requires l.Ends()
  {
    m.start.books == l.End().tables && m.start.tables == if truncated then NO_ROWS else l.End().tables
  }

  // ---------- One restart ----------

  lemma EndBase(l: Run)
    requires l.Ends()
    ensures Base(l.End())
  {
    hide Base, Start, Runs;
    ReachableBase(l.start, l.acts);
  }

  lemma EndTables(l: Run)
    requires l.Ends()
    ensures l.End().tables == Joined(l.start.tables, l.End().saved)
  {
    hide Base, Start, Runs, Standing, Joined;
    EverythingIsSavedIff(l.start, l.acts);
  }

  lemma JoinedNothing(b: Books)
    ensures Joined(NO_ROWS, b) == b
  {
  }

  lemma SavedOrder(r: State, side: Side, o: Order)
    requires Base(r) && o in r.saved.Of(side)
    ensures r.saved.Of(side)[o] == 1 && o.side == side && o.amount > 0 && o.client in r.data.funds
    ensures o.id in r.placed && r.placed[o.id].side == side
    ensures forall p | p in r.saved.Of(side) && p.id == o.id :: p == o
  {
    hide TradesFit, RecordsFit, HandlerFits, AnswersFit, Logged, LoopFits, LogFits, CancelsFit, PastFits, EndedIds, Held;
    hide Found, Filled, UsdFlow, RubFlow;
    assert Kept(RestOf(r, side), PastOf(r), side);
    assert RestOf(r, side).Live(o) && Fact(PastOf(r), side, o);
    assert r.placed[o.id].client in r.data.funds.Keys;
    assert forall p | p in r.saved.Of(side) :: RestOf(r, side).Live(p);
  }

  /** What a life saved is fit to start the next one from. */
  lemma SavedRowsFit(r: State)
    requires Base(r)
    ensures RowsFit(r.saved, r.data.funds.Keys)
  {
    hide Base;
    forall side: Side, o | o in r.saved.Of(side)
      ensures r.saved.Of(side)[o] == 1 && o.side == side && o.amount > 0 && o.client in r.data.funds
      ensures o.id in r.placed && r.placed[o.id].side == side
      ensures forall p | p in r.saved.Of(side) && p.id == o.id :: p == o
    {
      SavedOrder(r, side, o);
    }
    assert r.saved.Of(Buy) == r.saved.buys && r.saved.Of(Sell) == r.saved.sells;
  }

  lemma FitForMoreClients(rows: Books, clients: set<string>, more: set<string>)
    requires RowsFit(rows, clients) && clients <= more
    ensures RowsFit(rows, more)
  {
    hide UniqueIds;
  }

  /**
   * With the tables empty while it ran, a life leaves tables from which the constructors make a good start again,
   * whatever the two threads did, wherever the stop came, and whether or not the next truncation succeeds.
   */
  lemma NextStartIsGood(l: Run, tables: Books, d: ClientData)
    requires l.Ends() && l.start.tables == NO_ROWS && l.End().data.funds.Keys <= d.funds.Keys
    requires ShowsBook(d.activeBuys, l.End().tables.buys) && ShowsBook(d.activeSells, l.End().tables.sells)
    ensures Start(Loaded(l.End().tables, tables, d))
  {
    hide Base, Reachable, RowsFit, ShowsBook, Start, Loaded, Joined;
    EndBase(l);
    EndTables(l);
    JoinedNothing(l.End().saved);
    SavedRowsFit(l.End());
    FitForMoreClients(l.End().tables, l.End().data.funds.Keys, d.funds.Keys);
    LoadedIsAStart(l.End().tables, tables, d);
  }

  /** One life and its restart, seen from outside: what was saved is what was resting. */
  lemma LifeIsRestarted(l: Run, m: Run, truncated: bool)
    requires l.Ends() && Follows(l, m, truncated)
    ensures Life(m.start.tables, m.start.books) == Restarted(Life(l.start.tables, l.End().saved), truncated)
    ensures m.start.books == l.End().saved <==> l.start.tables == NO_ROWS
  {
    hide Reachable;
    EndTables(l);
    JoinedIsSameIff(l.start.tables, l.End().saved);
  }

  lemma JoinedIsSameIff(a: Books, b: Books)
    ensures Joined(a, b) == b <==> a == NO_ROWS
  {
    JoinedNothing(b);
    if Joined(a, b) == b {
      assert |a.buys + b.buys| == |a.buys| + |b.buys| && |a.sells + b.sells| == |a.sells| + |b.sells|;
    }
  }

  /**
   * A truncation that failed brings every order of that start back at the next one, whatever has become of it since:
   * an untouched order is there twice, and one completed, cancelled or partly filled is there as it was.
   */
  lemma FailedTruncationResurrects(l: Run, m: Run, truncated: bool, side: Side, o: Order)
    requires l.Ends() && Follows(l, m, truncated) && l.start.tables == l.start.books && o in l.start.books.Of(side)
    ensures m.start.books.Of(side)[o] == 1 + l.End().saved.Of(side)[o]
    ensures Filled(l.End().trades, side, o.id) > 0 || Completed(l.End(), o.id) || o.id in l.End().cancelled
            ==> l.End().saved.Of(side)[o] == 0
  {
    hide Reachable, Filled, Completed, Base, Runs, After;
    EndTables(l);
    EndBase(l);
    StartedWith(l, side, o);
    if o in l.End().saved.Of(side) {
      SavedIsOpen(l.End(), side, o);
    }
  }

  lemma SavedIsOpen(r: State, side: Side, o: Order)
    requires Base(r) && o in r.saved.Of(side)
    ensures !Completed(r, o.id) && o.id !in r.cancelled && o.id in r.placed
    ensures Filled(r.trades, side, o.id) + o.amount == r.placed[o.id].amount
  {
    hide TradesFit, RecordsFit, HandlerFits, AnswersFit, Logged, LoopFits, LogFits, CancelsFit, PastFits, Held, Found;
    hide Filled, Accounted;
    assert Kept(RestOf(r, side), PastOf(r), side);
    assert RestOf(r, side).Live(o) && Fact(PastOf(r), side, o);
    EndedMeans(r.Log(), r.cancelled);
  }

  /** An order on the books at the start is among those placed, then and ever after. */
  lemma StartedWith(l: Run, side: Side, o: Order)
    requires l.Ends() && o in l.start.books.Of(side)
    ensures l.start.books.Of(side)[o] == 1 && o.side == side
    ensures o.id in l.start.placed && l.start.placed[o.id] == o
    ensures o.id in l.End().placed && l.End().placed[o.id] == o
  {
    assert StartSide(l.start, side);
    hide Start, StartSide;
    PlacedStaysPlaced(l.start, l.acts, o.id);
  }

  lemma {:induction false} PlacedStaysPlaced(s: State, acts: seq<Act>, id: int)
    requires Runs(s, acts) && id in s.placed
    ensures id in After(s, acts).placed && After(s, acts).placed[id] == s.placed[id]
    decreases |acts|
  {
    hide Next, Enabled;
    if acts != [] {
      var n := |acts| - 1;
      PlacedStaysPlaced(s, acts[..n], id);
      PlacedStays(After(s, acts[..n]), acts[n]);
    }
  }

  // ---------- Any number of restarts ----------

  /** The life has not been seen with this id before it placed the order itself. */
  ghost predicate NewIdsAreFresh(before: seq<Run>, l: Run) {
    forall m, id | m in before && m.Ends() && l.Ends() && id in m.End().placed && id in l.End().placed ::
      id in l.start.placed
  }

  /** The stop came early enough for everything to be saved. */
  ghost predicate SavesAll(l: Run) {
    l.Ends() && l.End().matcher == Out(true) && l.End().queueBuys == [] && l.End().queueSells == []
  }

  /** Lives in a row from empty tables, each saved in full and each start's truncation done. */
  ghost predicate Chain(ls: seq<Run>) {
    && ls != [] && ls[0].start.tables == NO_ROWS
    && (forall k | 0 <= k < |ls| :: SavesAll(ls[k]))
    && (forall k | 0 < k < |ls| :: Follows(ls[k - 1], ls[k], true) && NewIdsAreFresh(ls[..k], ls[k]))
  }

  /** What all the lives together have filled of the order. */
  ghost function FillsOver(ls: seq<Run>, side: Side, id: int): int
    requires forall l | l in ls :: l.Ends()
  {
    if ls == [] then 0
    else FillsOver(ls[..|ls| - 1], side, id) + Filled(ls[|ls| - 1].End().trades, side, id)
  }

  ghost predicate CompletedIn(ls: seq<Run>, id: int)
    requires forall l | l in ls :: l.Ends()
  {
    exists l :: l in ls && Completed(l.End(), id)
  }

  ghost predicate CancelledIn(ls: seq<Run>, id: int)
    requires forall l | l in ls :: l.Ends()
  {
    exists l :: l in ls && id in l.End().cancelled
  }

  ghost predicate StandsWith(r: State, o: Order, amount: int) {
    exists p :: p in r.saved.Of(o.side) && SameOrder(o, p) && p.amount == amount
  }

  /**
   * Where the lives have brought an order: it stands, saved with what the fills of all of them have left of it, or it
   * was completed, filled to the last unit, or cancelled, with something open, and is gone for good.
   */
  ghost predicate Carried(ls: seq<Run>, o: Order)
    requires ls != [] && forall l | l in ls :: l.Ends()
  {
    var r, filled := ls[|ls| - 1].End(), FillsOver(ls, o.side, o.id);
    if CompletedIn(ls, o.id) then filled == o.amount && !CancelledIn(ls, o.id) && IsGone(r, o.id)
    else if CancelledIn(ls, o.id) then filled < o.amount && IsGone(r, o.id)
    else StandsWith(r, o, o.amount - filled)
  }

  ghost predicate IsGone(r: State, id: int) {
    (forall p | p in r.saved.buys :: p.id != id) && (forall p | p in r.saved.sells :: p.id != id)
  }

  lemma ChainEnds(ls: seq<Run>)
    requires Chain(ls)
    ensures forall l | l in ls :: SavesAll(l) && l.Ends() && l.start.tables == NO_ROWS
    ensures |ls| > 1 ==>
              Chain(ls[..|ls| - 1]) && Follows(ls[|ls| - 2], ls[|ls| - 1], true)
              && NewIdsAreFresh(ls[..|ls| - 1], ls[|ls| - 1])
  {
    hide Run.Ends, NewIdsAreFresh;
    forall k | 0 < k < |ls|
      ensures ls[k].start.tables == NO_ROWS
    {
      assert Follows(ls[k - 1], ls[k], true);
    }
    if |ls| > 1 {
      var init := ls[..|ls| - 1];
      forall k | 0 < k < |init|
        ensures Follows(init[k - 1], init[k], true) && NewIdsAreFresh(init[..k], init[k])
      {
        assert init[..k] == ls[..k];
        assert Follows(ls[k - 1], ls[k], true) && NewIdsAreFresh(ls[..k], ls[k]);
      }
    }
  }

  /** What became, within one life, of an order it had placed. */
  lemma WithinALife(l: Run, o: Order)
    requires SavesAll(l) && o.id in l.End().placed && l.End().placed[o.id] == o
    ensures var r, filled := l.End(), Filled(l.End().trades, o.side, o.id);
            if Completed(r, o.id) then filled == o.amount && o.id !in r.cancelled && IsGone(r, o.id)
            else if o.id in r.cancelled then filled < o.amount && IsGone(r, o.id)
            else StandsWith(r, o, o.amount - filled)
  {
    hide Reachable, Filled, Completed, Base, Rest.Has, Rest.Live;
    EndBase(l);
    EveryOrderIsAccountedFor(l.start, l.acts, o.id);
    var r := l.End();
    if Completed(r, o.id) || o.id in r.cancelled {
      EndedIsGone(r, o.id);
    } else {
      OpenIsSaved(r, o);
    }
  }

  lemma EndedIsGone(r: State, id: int)
    requires Base(r) && (Completed(r, id) || id in r.cancelled)
    ensures IsGone(r, id)
  {
    hide Base, Completed;
    forall side: Side, p | p in r.saved.Of(side)
      ensures p.id != id
    {
      SavedIsOpen(r, side, p);
    }
    assert r.saved.Of(Buy) == r.saved.buys && r.saved.Of(Sell) == r.saved.sells;
  }

  lemma OpenIsSaved(r: State, o: Order)
    requires Base(r) && r.matcher == Out(true) && r.queueBuys == [] && r.queueSells == []
    requires RestOf(r, o.side).Has(o.id) && o.id in r.placed && r.placed[o.id] == o
    ensures StandsWith(r, o, o.amount - Filled(r.trades, o.side, o.id))
  {
    hide Kept, LogFits, CancelsFit, PastFits, TradesFit, RecordsFit, HandlerFits, AnswersFit, Logged, Accounted, EndedIds;
    hide Filled;
    var rest := RestOf(r, o.side);
    assert rest == Rest([], multiset{}, [], r.saved.Of(o.side));
    SavedRest(rest, PastOf(r), o.side, o.id);
  }

  lemma SavedRest(rest: Rest, p: Past, side: Side, id: int)
    requires Kept(rest, p, side) && rest.Has(id) && rest.queue == [] && rest.book == multiset{} && rest.held == []
    ensures exists x :: x in rest.saved && x.id == id && id in p.placed && SameOrder(p.placed[id], x)
                        && Filled(p.trades, side, id) + x.amount == p.placed[id].amount
  {
    hide Filled;
    var x :| rest.Live(x) && x.id == id;
    assert Fact(p, side, x) && x in rest.saved;
  }

  /** A saved order is one that the next life starts with. */
  lemma CarriedOver(l: Run, m: Run, o: Order, amount: int)
    requires l.Ends() && l.start.tables == NO_ROWS && m.Ends() && Follows(l, m, true) && StandsWith(l.End(), o, amount)
    ensures o.id in m.start.placed && o.id in m.End().placed && SameOrder(o, m.End().placed[o.id])
    ensures m.End().placed[o.id].amount == amount && m.End().placed[o.id].id == o.id
  {
    hide Reachable, Joined;
    EndTables(l);
    JoinedNothing(l.End().saved);
    var p :| p in l.End().saved.Of(o.side) && SameOrder(o, p) && p.amount == amount;
    StartedWith(m, o.side, p);
  }

  /** An order that is gone stays gone: the next life neither starts with it nor places it. */
  lemma GoneStaysGone(l: Run, m: Run, id: int)
    requires l.Ends() && l.start.tables == NO_ROWS && m.Ends() && Follows(l, m, true) && IsGone(l.End(), id)
    requires id in m.End().placed ==> id in m.start.placed
    ensures id !in m.End().placed && IsGone(m.End(), id) && !Completed(m.End(), id) && id !in m.End().cancelled
    ensures forall side: Side :: Filled(m.End().trades, side, id) == 0
  {
    hide Base, Joined, Completed;
    EndTables(l);
    JoinedNothing(l.End().saved);
    assert m.start.books == l.End().saved;
    assert id !in m.start.placed by {
      NotOnTheBooks(m.start, id);
    }
    EndBase(m);
    UnplacedIsNowhere(m.End(), id);
  }

  lemma PlacedIsOnTheBooks(s: State, id: int)
    requires Start(s) && id in s.placed
    ensures s.placed[id].id == id && s.placed[id] in s.books.Of(s.placed[id].side)
  {
    assert StartSide(s, s.placed[id].side);
  }

  lemma NotOnTheBooks(s: State, id: int)
    requires Start(s) && (forall p | p in s.books.buys :: p.id != id) && (forall p | p in s.books.sells :: p.id != id)
    ensures id !in s.placed
  {
    hide Start;
    if id in s.placed {
      PlacedIsOnTheBooks(s, id);
    }
  }

  lemma UnplacedIsNowhere(r: State, id: int)
    requires Base(r) && id !in r.placed
    ensures IsGone(r, id) && !Completed(r, id) && id !in r.cancelled
    ensures forall side: Side :: Filled(r.trades, side, id) == 0
  {
    hide TradesFit, RecordsFit, HandlerFits, AnswersFit, Logged, Kept, EndedIds, UsdFlow, RubFlow;
    forall side: Side, p | p in r.saved.Of(side)
      ensures p.id != id
    {
      SavedOrder(r, side, p);
    }
    assert r.saved.Of(Buy) == r.saved.buys && r.saved.Of(Sell) == r.saved.sells;
    forall side: Side
      ensures Filled(r.trades, side, id) == 0
    {
      assert forall t | t in r.trades :: t.Before(side).id != id;
      UnnamedOrdersAreUnfilled(r.trades, side, id);
    }
    assert forall i | i in r.cancelled :: LeftOpen(PastOf(r), i);
  }

  lemma OneMoreLife(ls: seq<Run>, id: int)
    requires ls != [] && forall l | l in ls :: l.Ends()
    ensures var init, r := ls[..|ls| - 1], ls[|ls| - 1].End();
            && (CompletedIn(ls, id) <==> CompletedIn(init, id) || Completed(r, id))
            && (CancelledIn(ls, id) <==> CancelledIn(init, id) || id in r.cancelled)
  {
    hide Run.Ends, Completed;
    var init, l := ls[..|ls| - 1], ls[|ls| - 1];
    assert ls == init + [l];
    assert forall m | m in ls :: m in init || m == l;
  }

  lemma FirstLife(ls: seq<Run>, o: Order)
    requires |ls| == 1 && SavesAll(ls[0]) && o.id in ls[0].End().placed && ls[0].End().placed[o.id] == o
    ensures (forall l | l in ls :: l.Ends()) && Carried(ls, o)
  {
    hide Reachable, Completed, StandsWith, IsGone, Filled;
    WithinALife(ls[0], o);
    assert forall l | l in ls :: l == ls[0];
    var none: seq<Run> := ls[..|ls| - 1];
    assert none == [] && !CompletedIn(none, o.id) && !CancelledIn(none, o.id) && FillsOver(none, o.side, o.id) == 0;
    OneMoreLife(ls, o.id);
  }

  lemma NextLife(ls: seq<Run>, o: Order)
    requires |ls| > 1 && (forall l | l in ls :: SavesAll(l) && l.Ends() && l.start.tables == NO_ROWS)
    requires Follows(ls[|ls| - 2], ls[|ls| - 1], true) && NewIdsAreFresh(ls[..|ls| - 1], ls[|ls| - 1])
    requires Carried(ls[..|ls| - 1], o) && o.id in ls[0].End().placed
    ensures Carried(ls, o)
  {
    hide Reachable, Completed, StandsWith, IsGone, Filled;
    var init, k, l := ls[..|ls| - 1], ls[|ls| - 2], ls[|ls| - 1];
    assert l in ls && k in ls && init[|init| - 1] == k && ls[0] in init;
    OneMoreLife(ls, o.id);
    if CompletedIn(init, o.id) || CancelledIn(init, o.id) {
      GoneStaysGone(k, l, o.id);
    } else {
      var filled := FillsOver(init, o.side, o.id);
      CarriedOver(k, l, o, o.amount - filled);
      WithinALife(l, l.End().placed[o.id]);
      StandsAlike(l.End(), o, l.End().placed[o.id]);
    }
  }

  lemma StandsAlike(r: State, o: Order, p: Order)
    requires SameOrder(o, p)
    ensures forall amount :: StandsWith(r, p, amount) ==> StandsWith(r, o, amount)
  {
  }

  /**
   * Any number of lives, each with any activity of both threads: every order ever placed is carried through the
   * restarts once, with exactly what the fills of all lives have left of it, until it is completed or cancelled.
   */
  lemma {:induction false} OrdersSurviveRestarts(ls: seq<Run>, o: Order)
    requires Chain(ls) && ls[0].Ends() && o.id in ls[0].End().placed && ls[0].End().placed[o.id] == o
    ensures (forall l | l in ls :: l.Ends()) && Carried(ls, o)
    decreases |ls|
  {
    ChainEnds(ls);
    hide Run.Ends, Run.End, SavesAll, Follows, NewIdsAreFresh, Carried;
    if |ls| == 1 {
      FirstLife(ls, o);
    } else {
      hide Chain;
      OrdersSurviveRestarts(ls[..|ls| - 1], o);
      NextLife(ls, o);
    }
  }

  /** A chain may be joined at any of its lives: the theorem holds of the orders placed in a later one too. */
  lemma ChainFrom(ls: seq<Run>, j: nat)
    requires Chain(ls) && j < |ls|
    ensures Chain(ls[j..])
  {
    hide Run.Ends, Run.End, NewIdsAreFresh;
    var rest := ls[j..];
    assert forall k | 0 <= k < |rest| :: rest[k] == ls[j + k] && SavesAll(ls[j + k]);
    hide SavesAll;
    assert j > 0 ==> Follows(ls[j - 1], ls[j], true);
    assert rest[0].start.tables == NO_ROWS;
    hide Follows;
    forall k | 0 < k < |rest|
      ensures Follows(rest[k - 1], rest[k], true) && NewIdsAreFresh(rest[..k], rest[k])
    {
      assert Follows(ls[j + k - 1], ls[j + k], true) && NewIdsAreFresh(ls[..j + k], ls[j + k]);
      FreshAmongFewer(ls[..j + k], rest[..k], ls[j + k]);
    }
  }

  lemma FreshAmongFewer(more: seq<Run>, fewer: seq<Run>, l: Run)
    requires NewIdsAreFresh(more, l) && forall m | m in fewer :: m in more
    ensures NewIdsAreFresh(fewer, l)
  {
    hide Run.Ends;
  }
}
