/** ClientDataManager: the shared maps and logs behind client_data_mutex_ (server/client_data_manager.cpp). */
module Clients {
  import opened Orders
  import opened Matching
  import opened Ledger

  /** A row of the clients_balances table. */
  datatype ClientBalance = ClientBalance(username: string, funds: Balance)

  /** The map a sequence of order rows leaves behind: later rows of an id replace earlier ones. */
  function ById(orders: seq<Order>): map<int, Order> {
    if orders == [] then map[]
    else
      var last := orders[|orders| - 1];
      ById(orders[..|orders| - 1])[last.id := last]
  }

  function FundsOf(rows: seq<ClientBalance>): map<string, Balance> {
    if rows == [] then map[]
    else
      var last := rows[|rows| - 1];
      FundsOf(rows[..|rows| - 1])[last.username := last.funds]
  }

  ghost predicate IsLast<K>(keys: seq<K>, i: nat) {
    i < |keys| && forall j | i < j < |keys| :: keys[j] != keys[i]
  }

  /** Each key of a row, and no other, is in the map, with the value of its last row. */
  ghost predicate HoldsLast<K(!new), V>(m: map<K, V>, keys: seq<K>, values: seq<V>)
    requires |keys| == |values|
  {
    && (forall k :: k in m <==> k in keys)
    && (forall i: nat | IsLast(keys, i) :: keys[i] in m && m[keys[i]] == values[i])
  }

  lemma HoldsOneMore<K(!new), V>(m: map<K, V>, keys: seq<K>, values: seq<V>, k: K, v: V)
    requires |keys| == |values| && HoldsLast(m, keys, values)
    ensures HoldsLast(m[k := v], keys + [k], values + [v])
  {
    var more := keys + [k];
    forall i: nat | IsLast(more, i)
      ensures more[i] in m[k := v] && m[k := v][more[i]] == (values + [v])[i]
    {
      if i < |keys| {
        assert more[|keys|] != more[i];
        assert forall j | i < j < |keys| :: keys[j] == more[j];
        assert IsLast(keys, i);
      }
    }
  }

  function Ids(rows: seq<Order>): seq<int> {
    seq(|rows|, i requires 0 <= i < |rows| => rows[i].id)
  }

  function Usernames(rows: seq<ClientBalance>): seq<string> {
    seq(|rows|, i requires 0 <= i < |rows| => rows[i].username)
  }

  function Balances(rows: seq<ClientBalance>): seq<Balance> {
    seq(|rows|, i requires 0 <= i < |rows| => rows[i].funds)
  }

  lemma {:induction false} ByIdHoldsLast(rows: seq<Order>)
    ensures HoldsLast(ById(rows), Ids(rows), rows)
  {
    if rows != [] {
      var n := |rows| - 1;
      assert Ids(rows) == Ids(rows[..n]) + [rows[n].id] && rows == rows[..n] + [rows[n]];
      assert ById(rows) == ById(rows[..n])[rows[n].id := rows[n]];
      hide HoldsLast, Ids, ById;
      ByIdHoldsLast(rows[..n]);
      HoldsOneMore(ById(rows[..n]), Ids(rows[..n]), rows[..n], rows[n].id, rows[n]);
    }
  }

  lemma {:induction false} FundsHoldLast(rows: seq<ClientBalance>)
    ensures HoldsLast(FundsOf(rows), Usernames(rows), Balances(rows))
  {
    if rows != [] {
      var n := |rows| - 1;
      assert Usernames(rows) == Usernames(rows[..n]) + [rows[n].username];
      assert Balances(rows) == Balances(rows[..n]) + [rows[n].funds];
      assert FundsOf(rows) == FundsOf(rows[..n])[rows[n].username := rows[n].funds];
      hide HoldsLast, Usernames, Balances, FundsOf;
      FundsHoldLast(rows[..n]);
      HoldsOneMore(FundsOf(rows[..n]), Usernames(rows[..n]), Balances(rows[..n]), rows[n].username, rows[n].funds);
    }
  }

  /** The accounts loaded are those of the usernames in the rows, each with the balance of its last row. */
  lemma FundsAreTheLastRows(rows: seq<ClientBalance>)
    ensures forall name :: name in FundsOf(rows) <==> exists i :: 0 <= i < |rows| && rows[i].username == name
    ensures forall i | 0 <= i < |rows| && (forall j | i < j < |rows| :: rows[j].username != rows[i].username) ::
              rows[i].username in FundsOf(rows) && FundsOf(rows)[rows[i].username] == rows[i].funds
  {
    FundsHoldLast(rows);
    hide FundsOf;
    var names := Usernames(rows);
    forall name
      ensures name in FundsOf(rows) <==> exists i :: 0 <= i < |rows| && rows[i].username == name
    {
      assert name in names <==> exists i :: 0 <= i < |names| && names[i] == name;
      assert forall i | 0 <= i < |rows| :: rows[i].username == names[i];
    }
    forall i | 0 <= i < |rows| && (forall j | i < j < |rows| :: rows[j].username != rows[i].username)
      ensures rows[i].username in FundsOf(rows) && FundsOf(rows)[rows[i].username] == rows[i].funds
    {
      assert IsLast(names, i);
    }
  }

  class ClientDataManager {
    var funds: map<string, Balance>
    var activeBuys: map<int, Order>
    var activeSells: map<int, Order>
    var completed: seq<Order>
    var quotes: seq<Quote>

    function View(): ClientData
      reads this
    {
      ClientData(funds, activeBuys, activeSells, completed, quotes)
    }

    constructor ()
      ensures View() == ClientData(map[], map[], map[], [], [])
    {
      funds, activeBuys, activeSells, completed, quotes := map[], map[], map[], [], [];
    }

    /** initialize_from_database: the rows are what the database returned. */
    method InitializeFromDatabase(
      balances: seq<ClientBalance>, buys: seq<Order>, sells: seq<Order>, lastCompleted: seq<Order>, history: seq<Quote>)
      requires View() == ClientData(map[], map[], map[], [], [])
      modifies this
      ensures View() == ClientData(FundsOf(balances), ById(buys), ById(sells), lastCompleted, history)
      ensures HoldsLast(funds, Usernames(balances), Balances(balances))
      ensures HoldsLast(activeBuys, Ids(buys), buys) && HoldsLast(activeSells, Ids(sells), sells)
    {
      hide HoldsLast, Ids, Usernames, Balances;
      for i := 0 to |balances|
        invariant View() == ClientData(FundsOf(balances[..i]), map[], map[], [], [])
      {
        assert balances[..i + 1][..i] == balances[..i];
        funds := funds[balances[i].username := balances[i].funds];
      }
      assert balances[..|balances|] == balances;
      for i := 0 to |buys|
        invariant View() == ClientData(FundsOf(balances), ById(buys[..i]), map[], [], [])
      {
        assert buys[..i + 1][..i] == buys[..i];
        activeBuys := activeBuys[buys[i].id := buys[i]];
      }
      assert buys[..|buys|] == buys;
      for i := 0 to |sells|
        invariant View() == ClientData(FundsOf(balances), ById(buys), ById(sells[..i]), [], [])
      {
        assert sells[..i + 1][..i] == sells[..i];
        activeSells := activeSells[sells[i].id := sells[i]];
      }
      assert sells[..|sells|] == sells;
      for i := 0 to |lastCompleted|
        invariant View() == ClientData(FundsOf(balances), ById(buys), ById(sells), lastCompleted[..i], [])
      {
        completed := completed + [lastCompleted[i]];
      }
      for i := 0 to |history|
        invariant View() == ClientData(FundsOf(balances), ById(buys), ById(sells), lastCompleted, history[..i])
      {
        quotes := quotes + [history[i]];
      }
      FundsHoldLast(balances);
      ByIdHoldsLast(buys);
      ByIdHoldsLast(sells);
    }

    method UpdateActiveOrderUsdAmount(order: Order, amount: int32) returns (ok: bool)
      modifies this
      ensures (View(), ok) == UpdateActive(old(View()), order.side, order.id, amount)
    {
      var target := if order.side.Buy? then activeBuys else activeSells;
      if order.id !in target {
        return false;
      }
      target := target[order.id := target[order.id].(amount := Narrow(target[order.id].amount - amount))];
      if order.side.Buy? {
        activeBuys := target;
      } else {
        activeSells := target;
      }
      return true;
    }

    method ChangeClientBalance(client: string, direction: Direction, wallet: Wallet, amount: real) returns (ok: bool)
      modifies this`funds
      ensures (View(), ok) == ChangeBalance(old(View()), client, direction, wallet, amount)
    {
      if client !in funds {
        return false;
      }
      funds := funds[client := Moved(funds[client], direction, wallet, amount)];
      return true;
    }

    /** A database failure (dbOk false) is reported but leaves the balances as changed. */
    method ChangeClientBalancesAccordingMatch(seller: string, buyer: string, amount: int32, cost: real, dbOk: bool)
      returns (ok: bool)
      modifies this`funds
      ensures View() == ChangeBalances(old(View()), seller, buyer, amount, cost).0
      ensures ok <==> ChangeBalances(old(View()), seller, buyer, amount, cost).1 && dbOk
    {
      ok := ChangeClientBalance(seller, Decrease, Usd, amount as real);
      if !ok {
        return;
      }
      ok := ChangeClientBalance(seller, Increase, Rub, cost);
      if !ok {
        return;
      }
      ok := ChangeClientBalance(buyer, Increase, Usd, amount as real);
      if !ok {
        return;
      }
      ok := ChangeClientBalance(buyer, Decrease, Rub, cost);
      if !ok {
        return;
      }
      ok := dbOk;
    }

    method RemoveOrderFromActiveOrders(id: int, side: Side) returns (ok: bool)
      modifies this
      ensures (View(), ok) == RemoveActive(old(View()), side, id)
    {
      if side.Buy? {
        ok := id in activeBuys;
        activeBuys := activeBuys - {id};
      } else {
        ok := id in activeSells;
        activeSells := activeSells - {id};
      }
      assert !ok ==> View() == old(View());
    }

    /** The order is logged whether or not it was active, and whether or not the database takes it. */
    method AddOrderToCompleted(order: Order, now: int, dbOk: bool) returns (ok: bool)
      modifies this
      ensures View() == Complete(old(View()), order, now)
      ensures completed == old(completed) + [order] && quotes == old(quotes) + [Quote(order.price, now)]
      ensures ok == dbOk
    {
      var removed := RemoveOrderFromActiveOrders(order.id, order.side);
      quotes := quotes + [Quote(order.price, now)];
      completed := completed + [order];
      ok := dbOk;
    }

    method PushOrderToActiveOrders(order: Order)
      modifies this
      ensures View() == PushActive(old(View()), order)
    {
      if order.side.Buy? {
        activeBuys := activeBuys[order.id := order];
      } else {
        activeSells := activeSells[order.id := order];
      }
    }

    method CreateNewClientFundData(client: string)
      modifies this`funds
      ensures View() == OpenAccount(old(View()), client)
    {
      funds := funds[client := Balance(0.0, 0.0)];
    }
  }
}
