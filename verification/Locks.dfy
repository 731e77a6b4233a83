/**
 * The server's mutexes as a state machine: any number of handler and matcher threads, each running the lock paths of
 * the code, and why none of their states is a deadlock.
 */
module Locks {

  /**
   * order_queue_cv_mutex_, core_mutex_, client_data_mutex_ (a shared_mutex), the database's mutex_ and
   * handle_sessions_mutex_.
   */
  datatype Lock = WaitQueue | CoreMutex | ClientData | Database | Sessions

  datatype Op = Acquire(l: Lock, exclusive: bool) | Release(l: Lock)

  /** held: the locks the thread has, and whether exclusively; todo: what is left of the path it is on. */
  datatype Thread = Thread(held: map<Lock, bool>, todo: seq<Op>)
  {
    predicate Wants(l: Lock) {
      todo != [] && todo[0].Acquire? && todo[0].l == l
    }

    predicate WantsExclusively(l: Lock) {
      Wants(l) && todo[0].exclusive
    }
  }

  type State = map<nat, Thread>

  function Rank(l: Lock): (r: nat)
    ensures 1 <= r <= 5
  {
    match l
    case WaitQueue => 1
    case CoreMutex => 2
    case ClientData => 3
    case Database => 4
    case Sessions => 5
  }

  // ---------- The lock paths of the code ----------

  function Exclusive(l: Lock): seq<Op> {
    [Acquire(l, true), Release(l)]
  }

  function Shared(l: Lock): seq<Op> {
    [Acquire(l, false), Release(l)]
  }

  function Times(n: nat, ops: seq<Op>): seq<Op> {
    if n == 0 then [] else ops + Times(n - 1, ops)
  }

  /** add_order_to_completed: two database calls under the client-data lock, or as many as come before an exception. */
  function CompleteOrder(saves: nat): seq<Op> {
    [Acquire(ClientData, true)] + Times(saves, Exclusive(Database)) + [Release(ClientData)]
  }

  /**
   * change_client_balances_according_match: the balances, then reading and saving the two clients without that lock;
   * the first read or save that throws ends it, and so does an unknown client before any of them.
   */
  function ChangeBalances(lookups: nat, saves: nat): seq<Op> {
    Exclusive(ClientData) + (Times(lookups, Shared(ClientData)) + Times(saves, Exclusive(Database)))
  }

  /** handle_sing_up_command: two database calls, then the new client's account, unless a call throws. */
  function SignUp(calls: nat, joins: bool): seq<Op> {
    Times(calls, Exclusive(Database)) + if joins then Exclusive(ClientData) else []
  }

  /** What the matching thread does, any number of times and in any order, while it holds the core mutex. */
  ghost predicate UnderCore(ops: seq<Op>) {
    || ops == Exclusive(ClientData)
    || ops == Exclusive(Database)
    || (exists saves: nat :: saves <= 2 && ops == CompleteOrder(saves))
    || (exists lookups: nat, saves: nat :: lookups <= 2 && saves <= 2 && (saves > 0 ==> lookups == 2)
                                         && ops == ChangeBalances(lookups, saves))
  }

  function Concat(parts: seq<seq<Op>>): seq<Op> {
    if parts == [] then [] else parts[0] + Concat(parts[1..])
  }

  /** One turn of stock_loop under the core mutex: matching, or saving the books. */
  function CoreTurn(parts: seq<seq<Op>>): seq<Op> {
    [Acquire(CoreMutex, true)] + Concat(parts) + [Release(CoreMutex)]
  }

  ghost predicate IsPath(ops: seq<Op>) {
    // the matching thread
    || ops == Exclusive(WaitQueue)
    || (exists parts: seq<seq<Op>> :: ops == CoreTurn(parts) && forall i | 0 <= i < |parts| :: UnderCore(parts[i]))
    // make-order, sign-up (client data last), sign-in, views
    || ops == Exclusive(ClientData)
    || (exists calls: nat, joins: bool :: calls <= 2 && (joins ==> calls == 2) && ops == SignUp(calls, joins))
    || ops == Exclusive(Database)
    || ops == Shared(ClientData)
    // cancel, refused at once, after the book, or carried out
    || ops == Exclusive(ClientData) + Exclusive(CoreMutex)
    || ops == Exclusive(ClientData) + (Exclusive(CoreMutex) + Exclusive(ClientData))
    // the session list
    || ops == Exclusive(Sessions)
  }

  // ---------- The machine ----------

  /**
   * The lock wanted next is not to be had. A shared mutex may also make a reader wait behind a waiting writer;
   * counting that as blocked covers either policy.
   */
  ghost predicate Blocked(s: State, tid: nat) {
    tid in s && s[tid].todo != [] && s[tid].todo[0].Acquire? &&
    var l := s[tid].todo[0].l;
    exists u :: u in s && u != tid
                && (Excludes(s[tid], s[u], l) || (!s[tid].todo[0].exclusive && s[u].WantsExclusively(l)))
  }

  /** The second thread's hold on l keeps the first from getting it as it wants it. */
  predicate Excludes(t: Thread, u: Thread, l: Lock) {
    t.Wants(l) && l in u.held && (t.todo[0].exclusive || u.held[l])
  }

  ghost predicate CanStep(s: State, tid: nat) {
    tid in s && s[tid].todo != [] && !Blocked(s, tid)
  }

  function Stepped(t: Thread): Thread
    requires t.todo != []
  {
    match t.todo[0]
    case Acquire(l, exclusive) => Thread(t.held[l := exclusive], t.todo[1..])
    case Release(l) => Thread(t.held - {l}, t.todo[1..])
  }

  datatype Act = Begin(tid: nat, ops: seq<Op>) | Go(tid: nat)

  ghost predicate Enabled(s: State, a: Act) {
    match a
    case Begin(tid, ops) => (tid !in s || s[tid].todo == []) && IsPath(ops)
    case Go(tid) => CanStep(s, tid)
  }

  ghost function Next(s: State, a: Act): State
    requires Enabled(s, a)
  {
    match a
    case Begin(tid, ops) => s[tid := Thread(if tid in s then s[tid].held else map[], ops)]
    case Go(tid) => s[tid := Stepped(s[tid])]
  }

  // ---------- The discipline ----------

  /** From these locks held, the operations acquire only locks ranked above all held, and give all back. */
  predicate Disciplined(held: set<Lock>, todo: seq<Op>)
    decreases |todo|
  {
    if todo == [] then held == {}
    else
      match todo[0]
      case Acquire(l, _) => (forall h | h in held :: Rank(h) < Rank(l)) && Disciplined(held + {l}, todo[1..])
      case Release(l) => l in held && Disciplined(held - {l}, todo[1..])
  }

  /** The same, from and back to a given set of locks. */
  predicate Balanced(held: set<Lock>, ops: seq<Op>, after: set<Lock>)
    decreases |ops|
  {
    if ops == [] then held == after
    else
      match ops[0]
      case Acquire(l, _) => (forall h | h in held :: Rank(h) < Rank(l)) && Balanced(held + {l}, ops[1..], after)
      case Release(l) => l in held && Balanced(held - {l}, ops[1..], after)
  }

  lemma {:induction false} BalancedThenDisciplined(held: set<Lock>, ops: seq<Op>, after: set<Lock>, rest: seq<Op>)
    requires Balanced(held, ops, after) && Disciplined(after, rest)
    ensures Disciplined(held, ops + rest)
    decreases |ops|
  {
    if ops == [] {
      assert ops + rest == rest;
    } else {
      assert (ops + rest)[1..] == ops[1..] + rest;
      BalancedThenDisciplined(if ops[0].Acquire? then held + {ops[0].l} else held - {ops[0].l}, ops[1..], after, rest);
    }
  }

  lemma {:induction false} BalancedTwice(held: set<Lock>, ops: seq<Op>, mid: set<Lock>, rest: seq<Op>, after: set<Lock>)
    requires Balanced(held, ops, mid) && Balanced(mid, rest, after)
    ensures Balanced(held, ops + rest, after)
    decreases |ops|
  {
    if ops == [] {
      assert ops + rest == rest;
    } else {
      assert (ops + rest)[1..] == ops[1..] + rest;
      BalancedTwice(if ops[0].Acquire? then held + {ops[0].l} else held - {ops[0].l}, ops[1..], mid, rest, after);
    }
  }

  /** A lock above all held can be taken and given back. */
  lemma OneLock(held: set<Lock>, l: Lock, exclusive: bool)
    requires forall h | h in held :: Rank(h) < Rank(l)
    ensures Balanced(held, [Acquire(l, exclusive), Release(l)], held)
  {
    var ops := [Acquire(l, exclusive), Release(l)];
    assert ops[1..] == [Release(l)] && [Release(l)][1..] == [];
    assert held + {l} - {l} == held;
    assert Balanced(held, [], held);
    assert Balanced(held + {l}, [Release(l)], held);
  }

  lemma {:induction false} TimesIsBalanced(held: set<Lock>, n: nat, ops: seq<Op>)
    requires Balanced(held, ops, held)
    ensures Balanced(held, Times(n, ops), held)
  {
    if n > 0 {
      TimesIsBalanced(held, n - 1, ops);
      hide Balanced;
      BalancedTwice(held, ops, held, Times(n - 1, ops), held);
    }
  }

  lemma CompleteOrderIsBalanced(saves: nat)
    ensures Balanced({CoreMutex}, CompleteOrder(saves), {CoreMutex})
  {
    var both := {CoreMutex} + {ClientData};
    OneLock(both, Database, true);
    TimesIsBalanced(both, saves, Exclusive(Database));
    var inner := Times(saves, Exclusive(Database));
    hide Times;
    assert both - {ClientData} == {CoreMutex};
    assert Balanced({CoreMutex}, [], {CoreMutex}) && [Release(ClientData)][1..] == [];
    assert Balanced(both, [Release(ClientData)], {CoreMutex});
    BalancedTwice(both, inner, both, [Release(ClientData)], {CoreMutex});
    assert CompleteOrder(saves) == [Acquire(ClientData, true)] + (inner + [Release(ClientData)]);
    assert ([Acquire(ClientData, true)] + (inner + [Release(ClientData)]))[1..] == inner + [Release(ClientData)];
  }

  lemma ChangeBalancesIsBalanced(lookups: nat, saves: nat)
    ensures Balanced({CoreMutex}, ChangeBalances(lookups, saves), {CoreMutex})
  {
    hide Balanced, Times;
    var c := {CoreMutex};
    OneLock(c, ClientData, true);
    OneLock(c, ClientData, false);
    OneLock(c, Database, true);
    TimesIsBalanced(c, lookups, Shared(ClientData));
    TimesIsBalanced(c, saves, Exclusive(Database));
    BalancedTwice(c, Times(lookups, Shared(ClientData)), c, Times(saves, Exclusive(Database)), c);
    BalancedTwice(c, Exclusive(ClientData), c, Times(lookups, Shared(ClientData)) + Times(saves, Exclusive(Database)), c);
  }

  lemma UnderCoreIsBalanced(ops: seq<Op>)
    requires UnderCore(ops)
    ensures Balanced({CoreMutex}, ops, {CoreMutex})
  {
    hide Balanced, CompleteOrder, ChangeBalances;
    OneLock({CoreMutex}, ClientData, true);
    OneLock({CoreMutex}, Database, true);
    if saves: nat :| saves <= 2 && ops == CompleteOrder(saves) {
      CompleteOrderIsBalanced(saves);
    } else if lookups: nat, saves: nat :| lookups <= 2 && saves <= 2 && ops == ChangeBalances(lookups, saves) {
      ChangeBalancesIsBalanced(lookups, saves);
    }
  }

  lemma {:induction false} PartsAreBalanced(parts: seq<seq<Op>>)
    requires forall i | 0 <= i < |parts| :: UnderCore(parts[i])
    ensures Balanced({CoreMutex}, Concat(parts), {CoreMutex})
  {
    hide UnderCore;
    if parts != [] {
      UnderCoreIsBalanced(parts[0]);
      PartsAreBalanced(parts[1..]);
      hide Balanced;
      BalancedTwice({CoreMutex}, parts[0], {CoreMutex}, Concat(parts[1..]), {CoreMutex});
    }
  }

  lemma CoreTurnIsDisciplined(parts: seq<seq<Op>>)
    requires forall i | 0 <= i < |parts| :: UnderCore(parts[i])
    ensures Disciplined({}, CoreTurn(parts))
  {
    PartsAreBalanced(parts);
    hide Balanced, Concat, UnderCore;
    assert Disciplined({CoreMutex}, [Release(CoreMutex)]) by {
      assert Disciplined({}, []) && [Release(CoreMutex)][1..] == [] && {CoreMutex} - {CoreMutex} == {};
    }
    BalancedThenDisciplined({CoreMutex}, Concat(parts), {CoreMutex}, [Release(CoreMutex)]);
    assert CoreTurn(parts) == [Acquire(CoreMutex, true)] + (Concat(parts) + [Release(CoreMutex)]);
    assert CoreTurn(parts)[1..] == Concat(parts) + [Release(CoreMutex)] && {} + {CoreMutex} == {CoreMutex};
  }

  lemma OneLockIsDisciplined(l: Lock, exclusive: bool, rest: seq<Op>)
    requires Disciplined({}, rest)
    ensures Disciplined({}, [Acquire(l, exclusive), Release(l)] + rest)
  {
    OneLock({}, l, exclusive);
    BalancedThenDisciplined({}, [Acquire(l, exclusive), Release(l)], {}, rest);
  }

  lemma SingleIsDisciplined(l: Lock, exclusive: bool)
    ensures Disciplined({}, [Acquire(l, exclusive), Release(l)])
  {
    assert Disciplined({}, []);
    OneLockIsDisciplined(l, exclusive, []);
    assert [Acquire(l, exclusive), Release(l)] + [] == [Acquire(l, exclusive), Release(l)];
  }

  lemma SignUpIsDisciplined(calls: nat, joins: bool)
    ensures Disciplined({}, SignUp(calls, joins))
  {
    OneLock({}, Database, true);
    TimesIsBalanced({}, calls, Exclusive(Database));
    assert Disciplined({}, []);
    SingleIsDisciplined(ClientData, true);
    hide Disciplined, Balanced, Times;
    BalancedThenDisciplined({}, Times(calls, Exclusive(Database)), {}, if joins then Exclusive(ClientData) else []);
  }

  /** Every path of the code takes its locks in rank order: core, then client data, then database. */
  lemma PathsAreDisciplined(ops: seq<Op>)
    requires IsPath(ops)
    ensures Disciplined({}, ops)
  {
    hide Disciplined, CoreTurn, UnderCore, SignUp;
    SingleIsDisciplined(WaitQueue, true);
    SingleIsDisciplined(CoreMutex, true);
    SingleIsDisciplined(ClientData, true);
    SingleIsDisciplined(ClientData, false);
    SingleIsDisciplined(Database, true);
    SingleIsDisciplined(Sessions, true);
    OneLockIsDisciplined(CoreMutex, true, Exclusive(ClientData));
    OneLockIsDisciplined(ClientData, true, Exclusive(CoreMutex));
    OneLockIsDisciplined(ClientData, true, Exclusive(CoreMutex) + Exclusive(ClientData));
    if parts: seq<seq<Op>> :| ops == CoreTurn(parts) && forall i | 0 <= i < |parts| :: UnderCore(parts[i]) {
      CoreTurnIsDisciplined(parts);
    } else if calls: nat, joins: bool :| calls <= 2 && ops == SignUp(calls, joins) {
      SignUpIsDisciplined(calls, joins);
    }
  }

  // ---------- The invariant ----------

  /** Every thread keeps to the discipline, and no lock is held in two ways that exclude each other. */
  ghost predicate Inv(s: State) {
    && (forall t | t in s :: Disciplined(s[t].held.Keys, s[t].todo))
    && (forall t, u, l: Lock | t in s && u in s && t != u && l in s[t].held && l in s[u].held ::
          !s[t].held[l] && !s[u].held[l])
  }

  lemma SteppedIsDisciplined(t: Thread)
    requires Disciplined(t.held.Keys, t.todo) && t.todo != []
    ensures Disciplined(Stepped(t).held.Keys, Stepped(t).todo)
  {
    match t.todo[0]
    case Acquire(l, exclusive) => assert t.held[l := exclusive].Keys == t.held.Keys + {l};
    case Release(l) => assert (t.held - {l}).Keys == t.held.Keys - {l};
  }

  lemma BeginKeepsInv(s: State, tid: nat, ops: seq<Op>)
    requires Inv(s) && Enabled(s, Begin(tid, ops))
    ensures Inv(Next(s, Begin(tid, ops)))
  {
    PathsAreDisciplined(ops);
    hide IsPath;
    if tid in s {
      assert Disciplined(s[tid].held.Keys, s[tid].todo);
    }
    assert Next(s, Begin(tid, ops))[tid].held.Keys == {};
  }

  lemma GoKeepsInv(s: State, tid: nat)
    requires Inv(s) && Enabled(s, Go(tid))
    ensures Inv(Next(s, Go(tid)))
  {
    SteppedIsDisciplined(s[tid]);
    hide Disciplined;
    assert s[tid].todo[0].Acquire? ==>
        forall u | u in s && u != tid :: !Excludes(s[tid], s[u], s[tid].todo[0].l);
  }

  lemma KeepsInv(s: State, a: Act)
    requires Inv(s) && Enabled(s, a)
    ensures Inv(Next(s, a))
  {
    hide Inv, Next, Enabled;
    match a
    case Begin(tid, ops) => BeginKeepsInv(s, tid, ops);
    case Go(tid) => GoKeepsInv(s, tid);
  }

  // ---------- Runs ----------

  ghost function After(acts: seq<Act>): State
    requires Runs(acts)
    decreases |acts|, 2
  {
    if acts == [] then map[] else Next(After(acts[..|acts| - 1]), acts[|acts| - 1])
  }

  ghost predicate Runs(acts: seq<Act>)
    decreases |acts|, 1
  {
    acts == [] || (Runs(acts[..|acts| - 1]) && Enabled(After(acts[..|acts| - 1]), acts[|acts| - 1]))
  }

  lemma {:induction false} EveryRunKeepsInv(acts: seq<Act>)
    requires Runs(acts)
    ensures Inv(After(acts))
  {
    hide Next, Enabled;
    if acts != [] {
      EveryRunKeepsInv(acts[..|acts| - 1]);
      hide Inv;
      KeepsInv(After(acts[..|acts| - 1]), acts[|acts| - 1]);
    }
  }

  // ---------- No deadlock ----------

  /** How far up the ranking a thread's next acquisition is; a reader may also wait behind a writer of the same lock. */
  function Distance(t: Thread): nat {
    if t.todo == [] || t.todo[0].Release? then 0
    else 2 * (6 - Rank(t.todo[0].l)) + if t.todo[0].exclusive then 0 else 1
  }

  /** Whoever holds the lock a thread wants has something left to do, and wants only locks ranked higher. */
  lemma HolderIsAhead(s: State, tid: nat, u: nat, l: Lock)
    requires Inv(s) && tid in s && u in s && s[tid].Wants(l) && l in s[u].held
    ensures s[u].todo != [] && Distance(s[u]) < 2 * (6 - Rank(l))
  {
    assert Disciplined(s[u].held.Keys, s[u].todo);
    assert l in s[u].held.Keys;
  }

  /** Following who waits for whom climbs the ranking, so it ends at a thread that can go on. */
  lemma {:induction false} SomeoneCanStep(s: State, tid: nat) returns (who: nat)
    requires Inv(s) && tid in s && s[tid].todo != []
    ensures CanStep(s, who)
    decreases Distance(s[tid])
  {
    hide Inv, Disciplined;
    if !Blocked(s, tid) {
      return tid;
    }
    var l := s[tid].todo[0].l;
    var u :| u in s && u != tid
             && (Excludes(s[tid], s[u], l) || (!s[tid].todo[0].exclusive && s[u].WantsExclusively(l)));
    if Excludes(s[tid], s[u], l) {
      HolderIsAhead(s, tid, u, l);
    }
    who := SomeoneCanStep(s, u);
  }

  /** No reachable state is a deadlock: while any thread is on a path, some thread can take its next step. */
  lemma NoDeadlock(acts: seq<Act>, tid: nat) returns (who: nat)
    requires Runs(acts) && tid in After(acts) && After(acts)[tid].todo != []
    ensures CanStep(After(acts), who)
  {
    EveryRunKeepsInv(acts);
    hide *;
    who := SomeoneCanStep(After(acts), tid);
  }

  /** No thread waits for a lock it holds, and a thread between paths holds none. */
  lemma NoSelfDeadlock(acts: seq<Act>, tid: nat)
    requires Runs(acts) && tid in After(acts)
    ensures forall l: Lock | After(acts)[tid].Wants(l) :: l !in After(acts)[tid].held
    ensures After(acts)[tid].todo == [] ==> After(acts)[tid].held == map[]
  {
    EveryRunKeepsInv(acts);
    hide Runs, After;
    var t := After(acts)[tid];
    assert Disciplined(t.held.Keys, t.todo);
    forall l: Lock | t.Wants(l)
      ensures l !in t.held
    {
      assert l in t.held.Keys ==> Rank(l) < Rank(l);
    }
  }
}
