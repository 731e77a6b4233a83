/** A stop through the saving branch of stock_loop and the start that follows it, end to end. */
module Restart {
  import opened Orders
  import opened PriorityQueue
  import opened Matching
  import opened Ledger
  import opened Clients
  import opened Core
  import opened HandOver
  import opened Exchange
  import opened Persistence

  /** The books with the orders absorbed from the two queues. */
  function WithAbsorbed(b: Books, buys: seq<Order>, sells: seq<Order>): Books {
    Books(AddAll(b.buys, buys), AddAll(b.sells, sells))
  }

  lemma {:induction false} AddAllKeepsSide(book: multiset<Order>, orders: seq<Order>, side: Side)
    requires forall o | o in book :: o.side == side
    requires forall o | o in orders :: o.side == side
    ensures forall o | o in AddAll(book, orders) :: o.side == side
  {
    if orders != [] {
      var n := |orders| - 1;
      assert orders[n] in orders && forall o | o in orders[..n] :: o in orders;
      AddAllKeepsSide(book, orders[..n], side);
    }
  }

  /**
   * The last turn of stock_loop: what is queued is absorbed, then both books are drained into the tables. If an insert
   * fails the thread ends there, with each order either in the tables or on a book that is lost with the process.
   */
  method SavingTurn(engine: Engine, buys: OrderQueue, sells: OrderQueue, db: Database) returns (saved: bool)
    requires engine.Valid() && OnOwnSides(engine.View())
    requires buys.Valid() && sells.Valid() && buys.drawn == sells.drawn == -1 && buys.side == Buy && sells.side == Sell
    modifies engine.buyBook, engine.sellBook, buys, sells, db
    ensures Drained(old(buys.streams), buys.streams) && Drained(old(sells.streams), sells.streams)
    ensures old(buys.taken) <= buys.taken && old(sells.taken) <= sells.taken
    ensures saved <==> engine.View() == Books(multiset{}, multiset{})
    ensures Joined(db.View(), engine.View())
         == Joined(old(db.View()), WithAbsorbed(old(engine.View()), buys.taken[|old(buys.taken)|..],
                                                sells.taken[|old(sells.taken)|..]))
  {
    hide Drained, OrderQueue.Valid, AddAll, SavedFirst;
    ghost var books := engine.View();
    ComplementOrderBooks(engine, buys, sells);
    AddAllKeepsSide(books.buys, buys.taken[|old(buys.taken)|..], Buy);
    AddAllKeepsSide(books.sells, sells.taken[|old(sells.taken)|..], Sell);
    saved := SaveAllActiveOrders(engine, db);
  }

  lemma JoinedWithNothing(b: Books)
    ensures Joined(Books(multiset{}, multiset{}), b) == b && Joined(b, Books(multiset{}, multiset{})) == b
  {
  }

  /**
   * The start: a new engine and a new client-data manager load the same rows, then the tables are truncated. If the
   * rows are fit, books, active maps and logs are a start of the exchange.
   */
  method StartUp(
    db: Database, balances: seq<ClientBalance>, lastCompleted: seq<Order>, history: seq<Quote>, truncated: bool)
    returns (engine: Engine, clients: ClientDataManager)
    modifies db
    ensures fresh(engine) && fresh(clients) && engine.Valid()
    ensures engine.View() == old(db.View())
    ensures Comparable(engine.View()) ==> engine.Sound()
    ensures UniqueIds(engine.View().buys) ==> ShowsBook(clients.activeBuys, engine.View().buys)
    ensures UniqueIds(engine.View().sells) ==> ShowsBook(clients.activeSells, engine.View().sells)
    ensures HoldsLast(clients.funds, Usernames(balances), Balances(balances))
    ensures clients.completed == lastCompleted && clients.quotes == history
    ensures db.View() == if truncated then Books(multiset{}, multiset{}) else old(db.View())
    ensures RowsFit(engine.View(), clients.funds.Keys) ==> Start(Loaded(engine.View(), db.View(), clients.View()))
  {
    hide UniqueIds, Comparable, ShowsBook, ById, FundsOf, HoldsLast, Ids, Usernames, Balances, OrderBook.Sound, Joined;
    hide Start, Loaded;
    clients := new ClientDataManager();
    engine := new Engine(clients);
    JoinedWithNothing(db.View());
    LoadAllActiveOrders(engine, db);
    var buys := db.LoadActiveOrders(Buy);
    var sells := db.LoadActiveOrders(Sell);
    clients.InitializeFromDatabase(balances, buys, sells, lastCompleted, history);
    RowsAreShown(buys);
    RowsAreShown(sells);
    db.TruncateActiveOrders(truncated);
    if RowsFit(engine.View(), clients.funds.Keys) {
      LoadedIsAStart(engine.View(), db.View(), clients.View());
    }
  }

  /**
   * Restart round trip: the new books hold what the tables held before the stop and all that was on the books or
   * queued, but for what an insert that failed left on the old books. With every insert done, tables and books are
   * those of one restart; with the tables empty beforehand, the new books are the old ones.
   */
  method StopAndRestart(
    engine: Engine, buys: OrderQueue, sells: OrderQueue, db: Database, balances: seq<ClientBalance>,
    lastCompleted: seq<Order>, history: seq<Quote>, truncated: bool)
    returns (saved: bool, engine': Engine, clients': ClientDataManager)
    requires engine.Valid() && OnOwnSides(engine.View())
    requires buys.Valid() && sells.Valid() && buys.drawn == sells.drawn == -1 && buys.side == Buy && sells.side == Sell
    modifies engine.buyBook, engine.sellBook, buys, sells, db
    ensures Drained(old(buys.streams), buys.streams) && Drained(old(sells.streams), sells.streams)
    ensures old(buys.taken) <= buys.taken && old(sells.taken) <= sells.taken
    ensures var books := WithAbsorbed(old(engine.View()), buys.taken[|old(buys.taken)|..],
                                      sells.taken[|old(sells.taken)|..]);
            && Joined(engine'.View(), engine.View()) == Joined(old(db.View()), books)
            && (saved <==> engine.View() == Books(multiset{}, multiset{}))
            && (saved ==> Life(db.View(), engine'.View()) == Restarted(Life(old(db.View()), books), truncated))
            && (saved && old(db.View()) == Books(multiset{}, multiset{}) ==> engine'.View() == books)
    ensures Comparable(engine'.View()) ==> engine'.Sound()
    ensures UniqueIds(engine'.View().buys) ==> ShowsBook(clients'.activeBuys, engine'.View().buys)
    ensures UniqueIds(engine'.View().sells) ==> ShowsBook(clients'.activeSells, engine'.View().sells)
    ensures HoldsLast(clients'.funds, Usernames(balances), Balances(balances))
    ensures clients'.completed == lastCompleted && clients'.quotes == history
    ensures db.View() == if truncated then Books(multiset{}, multiset{}) else engine'.View()
    ensures RowsFit(engine'.View(), clients'.funds.Keys) ==> Start(Loaded(engine'.View(), db.View(), clients'.View()))
  {
    hide Drained, OrderQueue.Valid, WithAbsorbed, ShowsBook, UniqueIds, Comparable, OnOwnSides, Start, Loaded, RowsFit;
    hide Joined, HoldsLast, Usernames, Balances;
    saved := SavingTurn(engine, buys, sells, db);
    JoinedWithNothing(db.View());
    JoinedWithNothing(WithAbsorbed(old(engine.View()), buys.taken[|old(buys.taken)|..],
                                   sells.taken[|old(sells.taken)|..]));
    engine', clients' := StartUp(db, balances, lastCompleted, history, truncated);
  }
}
