/**
 * The client-side copy of the market: accounts, active orders, completed orders and quotes
 * (server/client_data_manager.cpp).
 */
module Ledger {
  import opened Orders
  import opened Sums
  import opened Matching

  datatype Balance = Balance(usd: real, rub: real)

  datatype Quote = Quote(price: real, time: int)

  datatype ClientData = ClientData(
    funds: map<string, Balance>,
    activeBuys: map<int, Order>,
    activeSells: map<int, Order>,
    completed: seq<Order>,
    quotes: seq<Quote>)
  {
    function Active(side: Side): map<int, Order> {
      if side.Buy? then activeBuys else activeSells
    }

    function WithActive(side: Side, orders: map<int, Order>): ClientData {
      if side.Buy? then this.(activeBuys := orders) else this.(activeSells := orders)
    }
  }

  datatype Direction = Increase | Decrease

  datatype Wallet = Rub | Usd

  function Moved(b: Balance, direction: Direction, wallet: Wallet, amount: real): Balance {
    var delta := if direction.Increase? then amount else -amount;
    if wallet.Rub? then b.(rub := b.rub + delta) else b.(usd := b.usd + delta)
  }

  // ---------- What each critical section does to the data, and what it answers ----------

  /** change_client_balance. */
  function ChangeBalance(
    d: ClientData, client: string, direction: Direction, wallet: Wallet, amount: real): (ClientData, bool)
  {
    if client !in d.funds then (d, false)
    else (d.(funds := d.funds[client := Moved(d.funds[client], direction, wallet, amount)]), true)
  }

  /** change_client_balances_according_match: four changes in order, stopping at the first unknown client. */
  function ChangeBalances(d: ClientData, seller: string, buyer: string, amount: int, cost: real): (ClientData, bool) {
    var (d1, ok1) := ChangeBalance(d, seller, Decrease, Usd, amount as real);
    if !ok1 then (d1, false) else
    var (d2, ok2) := ChangeBalance(d1, seller, Increase, Rub, cost);
    if !ok2 then (d2, false) else
    var (d3, ok3) := ChangeBalance(d2, buyer, Increase, Usd, amount as real);
    if !ok3 then (d3, false) else
    ChangeBalance(d3, buyer, Decrease, Rub, cost)
  }

  /** update_active_order_usd_amount. */
  function UpdateActive(d: ClientData, side: Side, id: int, amount: int32): (ClientData, bool) {
    var orders := d.Active(side);
    if id !in orders then (d, false)
    else
      var lowered := orders[id].(amount := Narrow(orders[id].amount - amount));
      (d.WithActive(side, orders[id := lowered]), true)
  }

  /** remove_order_from_active_orders. */
  function RemoveActive(d: ClientData, side: Side, id: int): (ClientData, bool) {
    if id in d.Active(side) then (d.WithActive(side, d.Active(side) - {id}), true) else (d, false)
  }

  /** push_order_to_active_orders. */
  function PushActive(d: ClientData, o: Order): ClientData {
    d.WithActive(o.side, d.Active(o.side)[o.id := o])
  }

  /** add_order_to_completed: out of the active map, one quote, one log entry. */
  function Complete(d: ClientData, o: Order, time: int): ClientData {
    var rest := RemoveActive(d, o.side, o.id).0;
    rest.(quotes := rest.quotes + [Quote(o.price, time)], completed := rest.completed + [o])
  }

  /** create_new_client_fund_data. */
  function OpenAccount(d: ClientData, client: string): ClientData {
    d.(funds := d.funds[client := Balance(0.0, 0.0)])
  }

  /** match_orders: both active copies lowered, then the balances moved, stopping at the first failure. */
  function Settle(d: ClientData, t: Trade): (ClientData, bool) {
    var (d1, ok1) := UpdateActive(d, t.sell.side, t.sell.id, t.Amount());
    if !ok1 then (d1, false) else
    var (d2, ok2) := UpdateActive(d1, t.buy.side, t.buy.id, t.Amount());
    if !ok2 then (d2, false) else
    ChangeBalances(d2, t.sell.client, t.buy.client, t.Amount(), t.Cost())
  }

  /** A match is settled in full exactly when both orders are active and both clients known. */
  lemma SettleSucceedsIff(d: ClientData, t: Trade)
    ensures Settle(d, t).1
            <==> t.sell.id in d.Active(t.sell.side) && t.buy.id in d.Active(t.buy.side)
                 && t.sell.client in d.funds && t.buy.client in d.funds
  {
    hide Narrow;
  }

  function CompleteIfEmpty(d: ClientData, o: Order, time: int): ClientData {
    if o.amount == 0 then Complete(d, o, time) else d
  }

  /** One matching iteration of process_orders, as the client data sees it. */
  function Record(d: ClientData, t: Trade): ClientData {
    CompleteIfEmpty(CompleteIfEmpty(Settle(d, t).0, t.After(Buy), t.buyTime), t.After(Sell), t.sellTime)
  }

  function RecordAll(d: ClientData, log: seq<Trade>): ClientData {
    if log == [] then d else Record(RecordAll(d, log[..|log| - 1]), log[|log| - 1])
  }

  // ---------- Conservation ----------

  function UsdOf(): Balance -> real {
    (b: Balance) => b.usd
  }

  function RubOf(): Balance -> real {
    (b: Balance) => b.rub
  }

  ghost predicate SameSums(d: ClientData, e: ClientData) {
    MapSum(d.funds, UsdOf()) == MapSum(e.funds, UsdOf()) && MapSum(d.funds, RubOf()) == MapSum(e.funds, RubOf())
  }

  lemma ChangeBalanceMovesSums(d: ClientData, client: string, direction: Direction, wallet: Wallet, amount: real)
    requires client in d.funds
    ensures var e := ChangeBalance(d, client, direction, wallet, amount).0;
            var delta := if direction.Increase? then amount else -amount;
            && MapSum(e.funds, UsdOf()) == MapSum(d.funds, UsdOf()) + (if wallet.Usd? then delta else 0.0)
            && MapSum(e.funds, RubOf()) == MapSum(d.funds, RubOf()) + (if wallet.Rub? then delta else 0.0)
  {
    var v := Moved(d.funds[client], direction, wallet, amount);
    MapSumUpdate(d.funds, client, v, UsdOf());
    MapSumUpdate(d.funds, client, v, RubOf());
  }

  /**
   * A match moves money without creating any, self-matches included, except in one case:
   * a known seller against an unknown buyer, noticed after the seller has been changed.
   */
  lemma MatchConservesMoneyIff(d: ClientData, seller: string, buyer: string, amount: int, cost: real)
    requires amount != 0
    ensures SameSums(d, ChangeBalances(d, seller, buyer, amount, cost).0)
            <==> !(seller in d.funds && buyer !in d.funds)
    ensures ChangeBalances(d, seller, buyer, amount, cost).1 <==> seller in d.funds && buyer in d.funds
  {
    if seller in d.funds {
      var a := amount as real;
      var d1 := ChangeBalance(d, seller, Decrease, Usd, a).0;
      var d2 := ChangeBalance(d1, seller, Increase, Rub, cost).0;
      ChangeBalanceMovesSums(d, seller, Decrease, Usd, a);
      ChangeBalanceMovesSums(d1, seller, Increase, Rub, cost);
      if buyer in d.funds {
        var d3 := ChangeBalance(d2, buyer, Increase, Usd, a).0;
        ChangeBalanceMovesSums(d2, buyer, Increase, Usd, a);
        ChangeBalanceMovesSums(d3, buyer, Decrease, Rub, cost);
      }
    }
  }

  /** Between known clients, each account moves by exactly its two legs of the trade. */
  lemma MatchMovesAccounts(d: ClientData, seller: string, buyer: string, amount: int, cost: real, c: string)
    requires seller in d.funds && buyer in d.funds && c in d.funds
    ensures var e := ChangeBalances(d, seller, buyer, amount, cost).0;
            && e.funds.Keys == d.funds.Keys
            && e.funds[c].usd == d.funds[c].usd + (if c == buyer then amount as real else 0.0)
                                                - (if c == seller then amount as real else 0.0)
            && e.funds[c].rub == d.funds[c].rub + (if c == seller then cost else 0.0)
                                                - (if c == buyer then cost else 0.0)
  {
  }

  // ---------- What each client gained and paid ----------

  /** The client's net dollars over a sequence of trades. */
  function UsdFlow(log: seq<Trade>, c: string): int {
    if log == [] then 0
    else
      var t := log[|log| - 1];
      UsdFlow(log[..|log| - 1], c) + (if t.buy.client == c then t.Amount() else 0)
                                   - (if t.sell.client == c then t.Amount() else 0)
  }

  /** The client's net roubles: every trade is paid at the buyer's limit. */
  function RubFlow(log: seq<Trade>, c: string): real {
    if log == [] then 0.0
    else
      var t := log[|log| - 1];
      RubFlow(log[..|log| - 1], c) + (if t.sell.client == c then t.Cost() else 0.0)
                                   - (if t.buy.client == c then t.Cost() else 0.0)
  }

  /** What the client's own limits promise: sells at no less, buys at no more, with each sell limit cut by `slack`. */
  function LimitFlow(log: seq<Trade>, c: string, slack: real): real {
    if log == [] then 0.0
    else
      var t := log[|log| - 1];
      LimitFlow(log[..|log| - 1], c, slack)
      + (if t.sell.client == c then Worth(t.Amount(), t.sell.price - slack) else 0.0)
      - (if t.buy.client == c then Worth(t.Amount(), t.buy.price) else 0.0)
  }

  lemma WorthIsMonotone(amount: int, x: real, y: real)
    requires amount >= 0 && x <= y
    ensures Worth(amount, x) <= Worth(amount, y)
  {
  }

  /** No client does worse than its limits when every buy is priced at or above its sell up to `slack`. */
  lemma {:induction false} LimitsAreHonoured(log: seq<Trade>, c: string, slack: real)
    requires forall t | t in log :: t.Amount() >= 0 && t.buy.price >= t.sell.price - slack
    ensures RubFlow(log, c) >= LimitFlow(log, c, slack)
  {
    hide Worth;
    if log != [] {
      var t := log[|log| - 1];
      assert t in log;
      LimitsAreHonoured(log[..|log| - 1], c, slack);
      WorthIsMonotone(t.Amount(), t.sell.price - slack, t.buy.price);
    }
  }
}
