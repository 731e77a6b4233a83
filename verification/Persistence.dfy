/** Saving the books on shutdown and loading them on start (server/core.cpp, server/server.cpp, server/database.cpp). */
module Persistence {
  import opened Orders
  import opened Sums
  import opened PriorityQueue
  import opened Matching
  import opened Ledger
  import opened Clients
  import opened Core
  import opened Exchange

  /** The two active-order tables. Rows come back in no particular order. */
  class Database {
    var buyRows: seq<Order>
    var sellRows: seq<Order>

    ghost function View(): Books
      reads this
    {
      Books(multiset(buyRows), multiset(sellRows))
    }

    constructor ()
      ensures View() == Books(multiset{}, multiset{})
    {
      buyRows, sellRows := [], [];
    }

    /** An insert that fails (works false) throws and leaves the tables as they were. */
    method SaveActiveOrder(order: Order, works: bool)
      modifies this
      ensures View() == if !works then old(View())
                        else if order.side.Buy? then old(View()).(buys := More(old(View()).buys, order))
                        else old(View()).(sells := More(old(View()).sells, order))
    {
      if !works {
        return;
      }
      if order.side.Buy? {
        buyRows := buyRows + [order];
      } else {
        sellRows := sellRows + [order];
      }
    }

    method LoadActiveOrders(side: Side) returns (rows: seq<Order>)
      ensures multiset(rows) == View().Of(side)
    {
      rows := if side.Buy? then buyRows else sellRows;
    }

    /** A failed truncation is logged and the rows stay. */
    method TruncateActiveOrders(ok: bool)
      modifies this
      ensures View() == if ok then Books(multiset{}, multiset{}) else old(View())
    {
      if ok {
        buyRows, sellRows := [], [];
      }
    }
  }

  ghost predicate OnOwnSides(b: Books) {
    (forall o | o in b.buys :: o.side == Buy) && (forall o | o in b.sells :: o.side == Sell)
  }

  /**
   * save_all_active_orders_to_db: both books drained into the tables, buys first, best orders first. The first insert
   * that fails ends it; every order is then either in the tables or still on its book, none in both.
   */
  method SaveAllActiveOrders(core: Engine, db: Database) returns (ok: bool)
    requires core.Valid() && OnOwnSides(core.View())
    modifies core.buyBook, core.sellBook, db
    ensures ok <==> core.View() == Books(multiset{}, multiset{})
    ensures Joined(db.View(), core.View()) == old(Joined(db.View(), core.View()))
    ensures core.View().buys != multiset{} ==> core.View().sells == old(core.View()).sells
    ensures old(core.Sound()) ==> SavedFirst(Buy, old(core.View()).buys, core.View().buys)
                                  && SavedFirst(Sell, old(core.View()).sells, core.View().sells)
  {
    hide SavedFirst;
    ok := DrainToDatabase(core.buyBook, db);
    if ok {
      ok := DrainToDatabase(core.sellBook, db);
    } else {
      NothingSaved(Sell, core.View().sells);
    }
  }

  /** No order that was saved is behind one that was not. */
  ghost predicate SavedFirst(side: Side, was: multiset<Order>, left: multiset<Order>) {
    forall o, p | o in was && p in left && left[o] < was[o] :: !Behind(side, o, p)
  }

  lemma NothingSaved(side: Side, book: multiset<Order>)
    ensures SavedFirst(side, book, book)
  {
  }

  method DrainToDatabase(book: OrderBook, db: Database) returns (ok: bool)
    requires forall o | o in book.Contents() :: o.side == book.side
    modifies book, db
    ensures ok <==> book.Contents() == multiset{}
    ensures db.View().Of(book.side) + book.Contents() == old(db.View().Of(book.side) + book.Contents())
    ensures if book.side.Buy? then db.View().sells == old(db.View().sells) else db.View().buys == old(db.View().buys)
    ensures old(book.Sound()) ==> SavedFirst(book.side, old(book.Contents()), book.Contents())
  {
    hide SavedFirst, IsBest, OrderBook.Sound, Behind;
    NothingSaved(book.side, book.Contents());
    ghost var was := book.Contents();
    ghost var sound := book.Sound();
    while book.heap != []
      invariant forall o | o in book.Contents() :: o.side == book.side
      invariant db.View().Of(book.side) + book.Contents() == old(db.View().Of(book.side) + book.Contents())
      invariant if book.side.Buy? then db.View().sells == old(db.View().sells) else db.View().buys == old(db.View().buys)
      invariant sound ==> book.Sound() && SavedFirst(book.side, was, book.Contents())
      decreases |book.Contents()|
    {
      ghost var left := book.Contents();
      MovingKeepsTotal(db.View().Of(book.side), left, book.heap[0]);
      var order := book.Top();
      var works: bool := *;
      db.SaveActiveOrder(order, works);
      if !works {
        return false;
      }
      var popped := book.Pop();
      if sound {
        BestIsSavedNext(book.side, was, left, order);
      }
    }
    return true;
  }

  lemma BestIsSavedNext(side: Side, was: multiset<Order>, left: multiset<Order>, x: Order)
    requires SavedFirst(side, was, left) && x in left && IsBest(side, x, left)
    ensures SavedFirst(side, was, Less(left, x))
  {
  }

  lemma MovingKeepsTotal(rows: multiset<Order>, book: multiset<Order>, o: Order)
    requires o in book
    ensures More(rows, o) + Less(book, o) == rows + book
  {
    forall p
      ensures (More(rows, o) + Less(book, o))[p] == (rows + book)[p]
    {
    }
  }

  /** load_all_active_orders_from_db: every row pushed onto its book. */
  method LoadAllActiveOrders(core: Engine, db: Database)
    requires core.Valid()
    modifies core.buyBook, core.sellBook
    ensures core.View() == Joined(old(core.View()), db.View())
    ensures old(core.Sound()) && Comparable(core.View()) ==> core.Sound()
  {
    var buys := db.LoadActiveOrders(Buy);
    PushAll(core.buyBook, buys);
    var sells := db.LoadActiveOrders(Sell);
    PushAll(core.sellBook, sells);
    if Comparable(core.View()) {
      ComparableIsLawful(core.View());
    }
  }

  lemma OneRowMore(was: multiset<Order>, rows: seq<Order>, i: nat)
    requires i < |rows|
    ensures More(was + multiset(rows[..i]), rows[i]) == was + multiset(rows[..i + 1])
  {
    assert rows[..i + 1] == rows[..i] + [rows[i]];
  }

  lemma LawfulPrefix(side: Side, was: multiset<Order>, rows: seq<Order>, i: nat)
    requires i <= |rows| && Lawful(side, was + multiset(rows))
    ensures Lawful(side, was + multiset(rows[..i]))
  {
    assert rows == rows[..i] + rows[i..];
    LawfulIsHereditary(side, was + multiset(rows[..i]), was + multiset(rows));
  }

  method PushAll(book: OrderBook, rows: seq<Order>)
    modifies book`heap
    ensures book.Contents() == old(book.Contents()) + multiset(rows)
    ensures old(IsHeap(book.side, book.heap)) && Lawful(book.side, book.Contents()) ==> book.Sound()
  {
    hide More, Lawful, IsHeap;
    ghost var was := book.Contents();
    ghost var lawful := IsHeap(book.side, book.heap) && Lawful(book.side, was + multiset(rows));
    for i := 0 to |rows|
      invariant book.Contents() == was + multiset(rows[..i])
      invariant lawful ==> IsHeap(book.side, book.heap)
    {
      OneRowMore(was, rows, i);
      if lawful {
        LawfulPrefix(book.side, was, rows, i + 1);
      }
      book.Push(rows[i]);
    }
    assert rows[..|rows|] == rows;
  }

  /** A side of the books, as the map initialize_from_database builds from the same rows, holds the same orders. */
  lemma {:induction false} ActiveMapOfRows(rows: seq<Order>)
    requires UniqueIds(multiset(rows))
    ensures forall o :: o in multiset(rows) <==> o.id in ById(rows) && ById(rows)[o.id] == o
    ensures forall id | id in ById(rows) :: ById(rows)[id].id == id
    decreases |rows|
  {
    if rows != [] {
      var n := |rows| - 1;
      var init, last := rows[..n], rows[n];
      assert rows == init + [last];
      assert last in multiset(rows);
      forall o: Order | o in multiset(init)
        ensures multiset(init)[o] == 1 && o.id != last.id
      {
        assert multiset(rows)[o] == 1 && o in multiset(rows);
      }
      ActiveMapOfRows(init);
    }
  }

  /** The active map shows exactly the orders of the book, each under its id. */
  ghost predicate ShowsBook(active: map<int, Order>, book: multiset<Order>) {
    && (forall o :: o in book <==> o.id in active && active[o.id] == o)
    && (forall id | id in active :: active[id].id == id)
  }

  lemma RowsAreShown(rows: seq<Order>)
    ensures UniqueIds(multiset(rows)) ==> ShowsBook(ById(rows), multiset(rows))
  {
    hide UniqueIds, ById;
    if UniqueIds(multiset(rows)) {
      ActiveMapOfRows(rows);
    }
  }

  /** Rows that an exchange can start from: one per order, on its own side, with something open, of known clients. */
  ghost predicate RowsFit(rows: Books, clients: set<string>) {
    && UniqueIds(rows.buys) && UniqueIds(rows.sells) && OnOwnSides(rows)
    && (forall o | o in rows.buys :: o.amount > 0 && o.client in clients)
    && (forall o | o in rows.sells :: o.amount > 0 && o.client in clients)
    && (forall o, p | o in rows.buys && p in rows.sells :: o.id != p.id)
  }

  /** The exchange as the constructors leave it: the rows on the books, and the tables as truncation left them. */
  ghost function Loaded(rows: Books, tables: Books, d: ClientData): State {
    var none := Books(multiset{}, multiset{});
    State(true, [], [], rows, tables, d, AtGuard, Idle, tables, d.completed, d.quotes, d.funds,
          d.activeBuys + d.activeSells, [], [], [], [], none)
  }

  lemma LoadedSideStarts(s: State, side: Side)
    requires UniqueIds(s.books.Of(side)) && ShowsBook(s.data.Active(side), s.books.Of(side))
    requires forall o | o in s.books.Of(side) :: o.side == side && o.amount > 0
    requires forall id | id in s.data.Active(side) :: id in s.placed && s.placed[id] == s.data.Active(side)[id]
    ensures StartSide(s, side)
  {
    var book, active := s.books.Of(side), s.data.Active(side);
    forall id | id in active
      ensures active[id] in book
    {
    }
  }

  /** Such rows, with active maps that show them, are a good start, whatever was logged before. */
  lemma LoadedIsAStart(rows: Books, tables: Books, d: ClientData)
    requires RowsFit(rows, d.funds.Keys) && ShowsBook(d.activeBuys, rows.buys) && ShowsBook(d.activeSells, rows.sells)
    ensures Start(Loaded(rows, tables, d))
  {
    hide UniqueIds, StartSide;
    var s := Loaded(rows, tables, d);
    assert s.books.Of(Buy) == rows.buys && s.books.Of(Sell) == rows.sells;
    ShownIds(rows, d);
    LoadedSideStarts(s, Buy);
    LoadedSideStarts(s, Sell);
  }

  lemma ShownIds(rows: Books, d: ClientData)
    requires RowsFit(rows, d.funds.Keys) && ShowsBook(d.activeBuys, rows.buys) && ShowsBook(d.activeSells, rows.sells)
    ensures forall id | id in d.activeBuys ::
              id !in d.activeSells && d.activeBuys[id].client in d.funds && d.activeBuys[id].side == Buy
    ensures forall id | id in d.activeSells :: d.activeSells[id].client in d.funds && d.activeSells[id].side == Sell
  {
    hide UniqueIds;
    forall id | id in d.activeBuys
      ensures d.activeBuys[id] in rows.buys && d.activeBuys[id].id == id
    {
    }
    forall id | id in d.activeSells
      ensures d.activeSells[id] in rows.sells && d.activeSells[id].id == id
    {
    }
  }

  /** What the tables hold and what is on the books, between two passes of the matching loop. */
  datatype Life = Life(tables: Books, books: Books)

  /** A stop whose save succeeds, then a start whose truncation succeeds or fails. */
  ghost function Restarted(l: Life, truncated: bool): Life {
    var saved := Joined(l.tables, l.books);
    Life(if truncated then Books(multiset{}, multiset{}) else saved, saved)
  }
}
