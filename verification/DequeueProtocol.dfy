/**
 * One producer stream of the lock-free queue: a single enqueuer and any number of dequeuers, one step per atomic
 * operation (ImplicitProducer::enqueue and dequeue). Indices are unbounded here; WrapAround relates them to 64 bits.
 */
module DequeueProtocol {

  /** What became of each value dequeueOptimisticCount.fetch_add handed out. */
  datatype Ticket = Drawn | Passed | Doomed | Claimed | Failed

  /** Where a dequeuer stands; the arguments are its locals. */
  datatype Place =
    | Idle
    | SawTail(tail: nat)
    | SawOver(tail: nat, over: nat)
    | Ready(over: nat)
    | Drew(over: nat, m: nat)
    | MayClaim(m: nat)
    | MustUndo(m: nat)
    | Reading(k: nat)
  {
    predicate Holds(ticket: nat) {
      (Drew? || MayClaim? || MustUndo?) && m == ticket
    }
  }

  /**
   * elems: every element constructed so far; at: the dequeuers that are not idle. The last two fields are history:
   * the fate of each ticket, and what each claimed index delivered.
   */
  datatype Stream<T> = Stream(
    elems: seq<T>,
    tail: nat,
    head: nat,
    opt: nat,
    over: nat,
    at: map<nat, Place>,
    tickets: seq<Ticket>,
    delivered: map<nat, T>)
  {
    function At(tid: nat): Place {
      if tid in at then at[tid] else Idle
    }
  }

  datatype Act<T> =
    | Construct(x: T)
    | Publish
    | LoadTail(tid: nat)
    | LoadOver(tid: nat)
    | LoadOptimistic(tid: nat)
    | Draw(tid: nat)
    | ReloadTail(tid: nat)
    | Claim(tid: nat)
    | Undo(tid: nat)
    | Take(tid: nat)

  function Fresh<T>(): Stream<T> {
    Stream([], 0, 0, 0, 0, map[], [], map[])
  }

  ghost predicate Enabled<T>(s: Stream<T>, a: Act<T>) {
    match a
    case Construct(_) => |s.elems| == s.tail
    case Publish => |s.elems| == s.tail + 1
    case LoadTail(tid) => s.At(tid).Idle?
    case LoadOver(tid) => s.At(tid).SawTail?
    case LoadOptimistic(tid) => s.At(tid).SawOver?
    case Draw(tid) => s.At(tid).Ready?
    case ReloadTail(tid) => s.At(tid).Drew? && s.At(tid).m < |s.tickets|
    case Claim(tid) => s.At(tid).MayClaim? && s.At(tid).m < |s.tickets|
    case Undo(tid) => s.At(tid).MustUndo? && s.At(tid).m < |s.tickets|
    case Take(tid) => s.At(tid).Reading? && s.At(tid).k < |s.elems|
  }

  ghost function Next<T>(s: Stream<T>, a: Act<T>): Stream<T>
    requires Enabled(s, a)
  {
    match a
    case Construct(x) => s.(elems := s.elems + [x])
    case Publish => s.(tail := s.tail + 1)
    case LoadTail(tid) => s.(at := s.at[tid := SawTail(s.tail)])
    case LoadOver(tid) => s.(at := s.at[tid := SawOver(s.At(tid).tail, s.over)])
    case LoadOptimistic(tid) =>
      var p := s.At(tid);
      s.(at := s.at[tid := if s.opt - p.over < p.tail then Ready(p.over) else Idle])
    case Draw(tid) =>
      s.(opt := s.opt + 1, tickets := s.tickets + [Drawn], at := s.at[tid := Drew(s.At(tid).over, s.opt)])
    case ReloadTail(tid) =>
      var p := s.At(tid);
      if p.m - p.over < s.tail
      then s.(tickets := s.tickets[p.m := Passed], at := s.at[tid := MayClaim(p.m)])
      else s.(tickets := s.tickets[p.m := Doomed], at := s.at[tid := MustUndo(p.m)])
    case Claim(tid) =>
      s.(head := s.head + 1, tickets := s.tickets[s.At(tid).m := Claimed], at := s.at[tid := Reading(s.head)])
    case Undo(tid) =>
      s.(over := s.over + 1, tickets := s.tickets[s.At(tid).m := Failed], at := s.at[tid := Idle])
    case Take(tid) =>
      var k := s.At(tid).k;
      s.(delivered := s.delivered[k := s.elems[k]], at := s.at[tid := Idle])
  }

  // ---------- Counting tickets ----------

  function Count(tickets: seq<Ticket>, kind: Ticket): (n: nat)
    ensures n <= |tickets|
  {
    if tickets == [] then 0
    else
      var n := |tickets| - 1;
      Count(tickets[..n], kind) + if tickets[n] == kind then 1 else 0
  }

  lemma {:induction false} CountUpdate(tickets: seq<Ticket>, m: nat, t: Ticket, kind: Ticket)
    requires m < |tickets|
    ensures Count(tickets[m := t], kind)
         == Count(tickets, kind) - (if tickets[m] == kind then 1 else 0) + (if t == kind then 1 else 0)
  {
    var n := |tickets| - 1;
    if m == n {
      assert tickets[m := t][..n] == tickets[..n];
    } else {
      assert tickets[m := t][..n] == tickets[..n][m := t];
      CountUpdate(tickets[..n], m, t, kind);
    }
  }

  lemma CountAppend(tickets: seq<Ticket>, t: Ticket, kind: Ticket)
    ensures Count(tickets + [t], kind) == Count(tickets, kind) + if t == kind then 1 else 0
  {
    assert (tickets + [t])[..|tickets|] == tickets;
  }

  lemma {:induction false} CountPrefix(tickets: seq<Ticket>, i: nat, kind: Ticket)
    requires i <= |tickets|
    ensures Count(tickets[..i], kind) <= Count(tickets, kind)
  {
    if i == |tickets| {
      assert tickets[..i] == tickets;
    } else {
      var n := |tickets| - 1;
      assert tickets[..n][..i] == tickets[..i];
      CountPrefix(tickets[..n], i, kind);
    }
  }

  /** The three fates counted here are different fates. */
  lemma {:induction false} FatesAreDisjoint(tickets: seq<Ticket>)
    ensures Count(tickets, Claimed) + Count(tickets, Passed) + Count(tickets, Failed) <= |tickets|
  {
    if tickets != [] {
      FatesAreDisjoint(tickets[..|tickets| - 1]);
    }
  }

  predicate Won(t: Ticket) {
    t.Passed? || t.Claimed?
  }

  /** Every winning ticket m left room for itself: of the tickets up to m, those not failed fit below the tail. */
  ghost predicate Roomy(tickets: seq<Ticket>, tail: nat) {
    forall m | 0 <= m < |tickets| && Won(tickets[m]) :: m + 1 - Count(tickets[..m + 1], Failed) <= tail
  }

  /** Hence all winning tickets together fit below the tail: look at the last of them. */
  lemma {:induction false} WinnersFit(tickets: seq<Ticket>, tail: nat)
    requires Roomy(tickets, tail)
    ensures Count(tickets, Claimed) + Count(tickets, Passed) <= tail
  {
    if tickets != [] {
      var n := |tickets| - 1;
      if Won(tickets[n]) {
        assert tickets[..n + 1] == tickets;
        FatesAreDisjoint(tickets);
      } else {
        forall m | 0 <= m < n && Won(tickets[..n][m])
          ensures m + 1 - Count(tickets[..n][..m + 1], Failed) <= tail
        {
          assert Won(tickets[m]);
          assert tickets[..n][..m + 1] == tickets[..m + 1];
        }
        WinnersFit(tickets[..n], tail);
      }
    }
  }

  lemma RoomyAppend(tickets: seq<Ticket>, tail: nat)
    requires Roomy(tickets, tail)
    ensures Roomy(tickets + [Drawn], tail)
  {
    var more := tickets + [Drawn];
    forall m | 0 <= m < |more| && Won(more[m])
      ensures m + 1 - Count(more[..m + 1], Failed) <= tail
    {
      assert Won(tickets[m]);
      assert more[..m + 1] == tickets[..m + 1];
    }
  }

  /** Changing one ticket that had not failed keeps the room of the others; the changed one needs its own. */
  lemma RoomyUpdate(tickets: seq<Ticket>, tail: nat, m: nat, t: Ticket)
    requires Roomy(tickets, tail) && m < |tickets| && !tickets[m].Failed?
    requires Won(t) ==> m + 1 - Count(tickets[..m + 1], Failed) <= tail
    ensures Roomy(tickets[m := t], tail)
  {
    var changed := tickets[m := t];
    forall i | 0 <= i < |changed| && Won(changed[i])
      ensures i + 1 - Count(changed[..i + 1], Failed) <= tail
    {
      if m <= i {
        assert changed[..i + 1] == tickets[..i + 1][m := t];
        CountUpdate(tickets[..i + 1], m, t, Failed);
      } else {
        assert changed[..i + 1] == tickets[..i + 1];
      }
      assert i != m ==> Won(tickets[i]);
    }
  }

  // ---------- The invariant ----------

  /** What a dequeuer's locals still say about the shared counters. */
  ghost predicate Holdable(p: Place, tail: nat, over: nat, tickets: seq<Ticket>) {
    match p
    case Idle => true
    case SawTail(t) => t <= tail
    case SawOver(t, o) => t <= tail && o <= over
    case Ready(o) => o <= over
    case Drew(o, m) => m < |tickets| && tickets[m] == Drawn && o <= Count(tickets[..m], Failed)
    case MayClaim(m) => m < |tickets| && tickets[m] == Passed
    case MustUndo(m) => m < |tickets| && tickets[m] == Doomed
    case Reading(_) => true
  }

  ghost predicate PlacesHold(at: map<nat, Place>, tail: nat, over: nat, tickets: seq<Ticket>) {
    forall tid | tid in at :: Holdable(at[tid], tail, over, tickets)
  }

  /** No ticket is held twice. */
  ghost predicate OneHolder(at: map<nat, Place>) {
    forall i, j, m | i in at && j in at && at[i].Holds(m) && at[j].Holds(m) :: i == j
  }

  ghost predicate Counted(head: nat, opt: nat, over: nat, tickets: seq<Ticket>) {
    |tickets| == opt && Count(tickets, Claimed) == head && Count(tickets, Failed) == over
  }

  /** Each claimed index is being read by exactly one dequeuer, or has delivered the element enqueued at it. */
  ghost predicate Served<T>(elems: seq<T>, head: nat, at: map<nat, Place>, delivered: map<nat, T>) {
    && head <= |elems|
    && (forall k | k in delivered :: k < head && delivered[k] == elems[k])
    && (forall tid | tid in at && at[tid].Reading? :: at[tid].k < head && at[tid].k !in delivered)
    && (forall i, j | i in at && j in at && at[i].Reading? && at[j].Reading? && at[i].k == at[j].k :: i == j)
    && (forall k: nat | k < head && k !in delivered :: exists tid :: tid in at && at[tid] == Reading(k))
  }

  /** The dequeuers between drawing a ticket and settling it. */
  function InFlight(at: map<nat, Place>): set<nat> {
    set tid | tid in at && (at[tid].Drew? || at[tid].MayClaim? || at[tid].MustUndo?)
  }

  ghost predicate Inv<T>(s: Stream<T>) {
    && s.tail <= |s.elems| <= s.tail + 1
    && Counted(s.head, s.opt, s.over, s.tickets)
    && Roomy(s.tickets, s.tail)
    && PlacesHold(s.at, s.tail, s.over, s.tickets)
    && OneHolder(s.at)
    && Served(s.elems, s.head, s.at, s.delivered)
    && |InFlight(s.at)| + s.head + s.over == s.opt
  }

  lemma InFlightEnters(at: map<nat, Place>, tid: nat, p: Place)
    requires tid !in InFlight(at) && (p.Drew? || p.MayClaim? || p.MustUndo?)
    ensures |InFlight(at[tid := p])| == |InFlight(at)| + 1
  {
    assert InFlight(at[tid := p]) == InFlight(at) + {tid};
  }

  lemma InFlightLeaves(at: map<nat, Place>, tid: nat, p: Place)
    requires tid in InFlight(at) && !(p.Drew? || p.MayClaim? || p.MustUndo?)
    ensures |InFlight(at[tid := p])| == |InFlight(at)| - 1
  {
    assert InFlight(at[tid := p]) == InFlight(at) - {tid};
  }

  lemma InFlightStays(at: map<nat, Place>, tid: nat, p: Place)
    requires tid in InFlight(at) <==> (p.Drew? || p.MayClaim? || p.MustUndo?)
    ensures InFlight(at[tid := p]) == InFlight(at)
  {
  }

  // ---------- Each step keeps it ----------

  lemma EnqueueKeepsInv<T>(s: Stream<T>, a: Act<T>)
    requires Inv(s) && Enabled(s, a) && (a.Construct? || a.Publish?)
    ensures Inv(Next(s, a))
  {
    hide InFlight, OneHolder, Count;
    var r := Next(s, a);
    assert Roomy(r.tickets, r.tail);
    assert PlacesHold(r.at, r.tail, r.over, r.tickets) by {
      assert forall tid | tid in s.at :: Holdable(s.at[tid], s.tail, s.over, s.tickets);
    }
    assert Served(r.elems, r.head, r.at, r.delivered) by {
      WinnersFit(s.tickets, s.tail);
    }
  }

  /** A dequeuer that reads neither before nor after its step serves no index. */
  lemma ServedBesides<T>(elems: seq<T>, head: nat, at: map<nat, Place>, delivered: map<nat, T>, tid: nat, p: Place)
    requires Served(elems, head, at, delivered) && !p.Reading? && (tid in at ==> !at[tid].Reading?)
    ensures Served(elems, head, at[tid := p], delivered)
  {
    var at' := at[tid := p];
    forall k: nat | k < head && k !in delivered
      ensures exists i :: i in at' && at'[i] == Reading(k)
    {
      var i :| i in at && at[i] == Reading(k);
      assert at'[i] == Reading(k);
    }
  }

  lemma LoadKeepsInv<T>(s: Stream<T>, a: Act<T>)
    requires Inv(s) && Enabled(s, a) && (a.LoadTail? || a.LoadOver? || a.LoadOptimistic?)
    ensures Inv(Next(s, a))
  {
    hide InFlight, Count, Roomy;
    InFlightMeans(s.at, a.tid);
    InFlightStays(s.at, a.tid, Next(s, a).At(a.tid));
    ServedBesides(s.elems, s.head, s.at, s.delivered, a.tid, Next(s, a).At(a.tid));
    hide Served;
  }

  lemma InFlightMeans(at: map<nat, Place>, tid: nat)
    ensures tid in InFlight(at) <==> tid in at && (at[tid].Drew? || at[tid].MayClaim? || at[tid].MustUndo?)
  {
  }

  lemma DrawKeepsInv<T>(s: Stream<T>, tid: nat)
    requires Inv(s) && Enabled(s, Draw(tid))
    ensures Inv(Next(s, Draw(tid)))
  {
    hide InFlight, Roomy, Count;
    var r := Next(s, Draw(tid));
    InFlightMeans(s.at, tid);
    InFlightEnters(s.at, tid, r.At(tid));
    ServedBesides(s.elems, s.head, s.at, s.delivered, tid, r.At(tid));
    hide Served;
    RoomyAppend(s.tickets, s.tail);
    CountAppend(s.tickets, Drawn, Claimed);
    CountAppend(s.tickets, Drawn, Failed);
    assert r.tickets[..s.opt] == s.tickets;
    assert forall m | 0 <= m < s.opt :: r.tickets[..m] == s.tickets[..m];
  }

  /** One ticket changes fate: what another dequeuer knows stays true, since no failure is ever taken back. */
  lemma OtherHolds(
    p: Place, tail: nat, over: nat, over': nat, tickets: seq<Ticket>, m: nat, t: Ticket)
    requires Holdable(p, tail, over, tickets) && over <= over'
    requires m < |tickets| && !tickets[m].Failed? && !p.Holds(m)
    ensures Holdable(p, tail, over', tickets[m := t])
  {
    hide Count;
    if p.Drew? {
      if m < p.m {
        assert tickets[m := t][..p.m] == tickets[..p.m][m := t];
        CountUpdate(tickets[..p.m], m, t, Failed);
      } else {
        assert tickets[m := t][..p.m] == tickets[..p.m];
      }
    }
  }

  lemma PlacesStillHold(
    at: map<nat, Place>, tail: nat, over: nat, over': nat, tickets: seq<Ticket>, m: nat, t: Ticket, tid: nat, p: Place)
    requires PlacesHold(at, tail, over, tickets) && OneHolder(at) && over <= over'
    requires m < |tickets| && !tickets[m].Failed? && tid in at && at[tid].Holds(m)
    requires Holdable(p, tail, over', tickets[m := t])
    ensures PlacesHold(at[tid := p], tail, over', tickets[m := t])
  {
    hide Holdable, Count;
    forall i | i in at && i != tid
      ensures Holdable(at[i], tail, over', tickets[m := t])
    {
      OtherHolds(at[i], tail, over, over', tickets, m, t);
    }
  }

  lemma ReloadKeepsInv<T>(s: Stream<T>, tid: nat)
    requires Inv(s) && Enabled(s, ReloadTail(tid))
    ensures Inv(Next(s, ReloadTail(tid)))
  {
    hide InFlight, Roomy, Count;
    var r := Next(s, ReloadTail(tid));
    var m, o := s.At(tid).m, s.At(tid).over;
    var t := r.tickets[m];
    assert Holdable(s.at[tid], s.tail, s.over, s.tickets);
    InFlightMeans(s.at, tid);
    InFlightStays(s.at, tid, r.At(tid));
    CountUpdate(s.tickets, m, t, Claimed);
    CountUpdate(s.tickets, m, t, Failed);
    PlacesStillHold(s.at, s.tail, s.over, s.over, s.tickets, m, t, tid, r.At(tid));
    assert Won(t) ==> m + 1 - Count(s.tickets[..m + 1], Failed) <= s.tail by {
      assert s.tickets[..m + 1] == s.tickets[..m] + [Drawn];
      CountAppend(s.tickets[..m], Drawn, Failed);
    }
    RoomyUpdate(s.tickets, s.tail, m, t);
    ServedBesides(s.elems, s.head, s.at, s.delivered, tid, r.At(tid));
    hide Served, PlacesHold, Won, Counted;
    assert OneHolder(r.at);
  }

  lemma ClaimKeepsInv<T>(s: Stream<T>, tid: nat)
    requires Inv(s) && Enabled(s, Claim(tid))
    ensures Inv(Next(s, Claim(tid))) && s.head < s.tail
  {
    hide InFlight, Roomy, Count;
    var r := Next(s, Claim(tid));
    var m := s.At(tid).m;
    assert Holdable(s.at[tid], s.tail, s.over, s.tickets);
    InFlightMeans(s.at, tid);
    InFlightLeaves(s.at, tid, r.At(tid));
    CountUpdate(s.tickets, m, Claimed, Claimed);
    CountUpdate(s.tickets, m, Claimed, Failed);
    PlacesStillHold(s.at, s.tail, s.over, s.over, s.tickets, m, Claimed, tid, r.At(tid));
    RoomyBoundsHolder(s.tickets, s.tail, m);
    RoomyUpdate(s.tickets, s.tail, m, Claimed);
    WinnersFit(r.tickets, r.tail);
    ClaimServes(s.elems, s.head, s.at, s.delivered, tid);
  }

  lemma RoomyBoundsHolder(tickets: seq<Ticket>, tail: nat, m: nat)
    requires Roomy(tickets, tail) && m < |tickets| && Won(tickets[m])
    ensures m + 1 - Count(tickets[..m + 1], Failed) <= tail
  {
  }

  lemma ClaimServes<T>(elems: seq<T>, head: nat, at: map<nat, Place>, delivered: map<nat, T>, tid: nat)
    requires Served(elems, head, at, delivered) && head < |elems| && tid in at && !at[tid].Reading?
    ensures Served(elems, head + 1, at[tid := Reading(head)], delivered)
  {
    var at' := at[tid := Reading(head)];
    forall k: nat | k < head + 1 && k !in delivered
      ensures exists i :: i in at' && at'[i] == Reading(k)
    {
      if k == head {
        assert at'[tid] == Reading(k);
      } else {
        var i :| i in at && at[i] == Reading(k);
        assert at'[i] == Reading(k);
      }
    }
  }

  lemma UndoKeepsInv<T>(s: Stream<T>, tid: nat)
    requires Inv(s) && Enabled(s, Undo(tid))
    ensures Inv(Next(s, Undo(tid)))
  {
    hide InFlight, Roomy, Count;
    var r := Next(s, Undo(tid));
    var m := s.At(tid).m;
    assert Holdable(s.at[tid], s.tail, s.over, s.tickets);
    InFlightMeans(s.at, tid);
    InFlightLeaves(s.at, tid, Idle);
    CountUpdate(s.tickets, m, Failed, Claimed);
    CountUpdate(s.tickets, m, Failed, Failed);
    PlacesStillHold(s.at, s.tail, s.over, s.over + 1, s.tickets, m, Failed, tid, Idle);
    RoomyUpdate(s.tickets, s.tail, m, Failed);
    ServedBesides(s.elems, s.head, s.at, s.delivered, tid, Idle);
    hide Served;
  }

  lemma TakeKeepsInv<T>(s: Stream<T>, tid: nat)
    requires Inv(s) && Enabled(s, Take(tid))
    ensures Inv(Next(s, Take(tid)))
  {
    hide InFlight, Roomy, Count;
    var r := Next(s, Take(tid));
    InFlightMeans(s.at, tid);
    InFlightStays(s.at, tid, Idle);
    var k := s.At(tid).k;
    assert OneHolder(r.at) && PlacesHold(r.at, r.tail, r.over, r.tickets) by {
      hide Served;
    }
    assert Served(r.elems, r.head, r.at, r.delivered) by {
      hide PlacesHold, OneHolder;
      forall j: nat | j < r.head && j !in r.delivered
        ensures exists i :: i in r.at && r.at[i] == Reading(j)
      {
        var i :| i in s.at && s.at[i] == Reading(j);
        assert r.at[i] == Reading(j);
      }
    }
  }

  lemma KeepsInv<T>(s: Stream<T>, a: Act<T>)
    requires Inv(s) && Enabled(s, a)
    ensures Inv(Next(s, a))
  {
    hide Inv, Next, Enabled;
    match a
    case Construct(_) | Publish => EnqueueKeepsInv(s, a);
    case LoadTail(_) | LoadOver(_) | LoadOptimistic(_) => LoadKeepsInv(s, a);
    case Draw(tid) => DrawKeepsInv(s, tid);
    case ReloadTail(tid) => ReloadKeepsInv(s, tid);
    case Claim(tid) => ClaimKeepsInv(s, tid);
    case Undo(tid) => UndoKeepsInv(s, tid);
    case Take(tid) => TakeKeepsInv(s, tid);
  }

  // ---------- Runs ----------

  ghost function After<T>(acts: seq<Act<T>>): Stream<T>
    requires Runs(acts)
    decreases |acts|, 2
  {
    if acts == [] then Fresh() else Next(After(acts[..|acts| - 1]), acts[|acts| - 1])
  }

  /** Any interleaving in which each step is one that its thread can take where it stands. */
  ghost predicate Runs<T>(acts: seq<Act<T>>)
    decreases |acts|, 1
  {
    acts == [] || (Runs(acts[..|acts| - 1]) && Enabled(After(acts[..|acts| - 1]), acts[|acts| - 1]))
  }

  lemma FreshSatisfiesInv<T>()
    ensures Inv<T>(Fresh())
  {
    assert InFlight(map[]) == {};
  }

  lemma {:induction false} EveryRunKeepsInv<T>(acts: seq<Act<T>>)
    requires Runs(acts)
    ensures Inv(After(acts))
  {
    hide Inv, Next, Enabled;
    if acts == [] {
      FreshSatisfiesInv<T>();
    } else {
      EveryRunKeepsInv(acts[..|acts| - 1]);
      KeepsInv(After(acts[..|acts| - 1]), acts[|acts| - 1]);
    }
  }

  /**
   * In every interleaving the head never passes the tail, and the optimistic count is exactly the claims made,
   * the overcommits taken back and the tickets still in flight.
   */
  lemma HeadNeverPassesTail<T>(acts: seq<Act<T>>)
    requires Runs(acts)
    ensures var s := After(acts);
            && s.head <= s.tail <= |s.elems|
            && s.opt == s.head + s.over + |InFlight(s.at)|
  {
    EveryRunKeepsInv(acts);
    var s := After(acts);
    WinnersFit(s.tickets, s.tail);
  }

  /** Every claim is of an index already published, not yet delivered, and that no other dequeuer reads. */
  lemma ClaimsArePublished<T>(acts: seq<Act<T>>, tid: nat)
    requires Runs(acts) && Enabled(After(acts), Claim(tid))
    ensures var s := After(acts);
            && s.head < s.tail && s.head !in s.delivered
            && (forall i | i in s.at :: s.at[i] != Reading(s.head))
            && Next(s, Claim(tid)).at[tid] == Reading(s.head)
  {
    EveryRunKeepsInv(acts);
    ClaimKeepsInv(After(acts), tid);
  }

  /** The k-th claim yields the k-th element enqueued: delivered, or in the hands of the one dequeuer reading it. */
  lemma EveryClaimYieldsItsElement<T>(acts: seq<Act<T>>, k: nat)
    requires Runs(acts)
    ensures var s := After(acts);
            && (k in s.delivered ==> k < s.head <= |s.elems| && s.delivered[k] == s.elems[k])
            && (k < s.head && k !in s.delivered ==> exists i :: i in s.at && s.at[i] == Reading(k))
            && (forall i, j | i in s.at && j in s.at && s.at[i] == Reading(k) && s.at[j] == Reading(k) :: i == j)
            && (forall i | i in s.at && s.at[i] == Reading(k) :: k < s.head && k !in s.delivered)
  {
    EveryRunKeepsInv(acts);
    hide Roomy, PlacesHold, OneHolder, InFlight, Counted;
  }

  /** With no dequeuer reading, exactly the first `head` elements have been delivered, each as enqueued. */
  lemma DeliveredIsAPrefix<T>(acts: seq<Act<T>>)
    requires Runs(acts) && forall i | i in After(acts).at :: !After(acts).at[i].Reading?
    ensures var s := After(acts);
            && s.head <= |s.elems|
            && s.delivered == map k: nat | k < s.head :: s.elems[k]
  {
    EveryRunKeepsInv(acts);
    hide Roomy, PlacesHold, OneHolder, InFlight, Counted;
  }

  /** No subtraction in the code wraps below zero, and no dequeuer's next step is ever out of range. */
  lemma LocalsStayInRange<T>(acts: seq<Act<T>>, tid: nat)
    requires Runs(acts)
    ensures var s := After(acts);
            var p := s.At(tid);
            && (p.SawOver? || p.Ready? ==> p.over <= s.opt)
            && (p.Drew? ==> p.over <= p.m)
            && (p.Drew? || p.MayClaim? || p.MustUndo? ==> p.m < |s.tickets|)
            && (p.Reading? ==> p.k < |s.elems|)
  {
    EveryRunKeepsInv(acts);
    hide Roomy, OneHolder;
    var s := After(acts);
    assert tid in s.at ==> Holdable(s.at[tid], s.tail, s.over, s.tickets);
  }

  // ---------- A dequeuer on its own ----------

  /** The loads up to the first test: Ready to draw a ticket, or back to Idle. */
  ghost function Tested<T>(s: Stream<T>, tid: nat): Stream<T>
    requires s.At(tid).Idle?
  {
    Next(Next(Next(s, LoadTail(tid)), LoadOver(tid)), LoadOptimistic(tid))
  }

  /** The rest of a dequeue that nobody interrupts: draw a ticket, look at the tail again, claim or undo. */
  ghost function Settled<T>(s: Stream<T>, tid: nat): Stream<T>
    requires s.At(tid).Ready? && s.opt == |s.tickets|
  {
    var r := Next(Next(s, Draw(tid)), ReloadTail(tid));
    if r.At(tid).MayClaim? then Next(r, Claim(tid)) else Next(r, Undo(tid))
  }

  lemma LoneTest<T>(s: Stream<T>, tid: nat)
    requires s.At(tid).Idle? && s.opt == s.head + s.over && s.head <= s.tail
    ensures Tested(s, tid) == s.(at := s.at[tid := if s.head < s.tail then Ready(s.over) else Idle])
  {
  }

  lemma LoneClaim<T>(s: Stream<T>, tid: nat)
    requires s.At(tid) == Ready(s.over) && s.opt == s.head + s.over == |s.tickets| && s.head < s.tail
    ensures Settled(s, tid)
         == s.(opt := s.opt + 1, head := s.head + 1, tickets := s.tickets + [Claimed], at := s.at[tid := Reading(s.head)])
  {
    var r1 := Next(s, Draw(tid));
    assert r1.At(tid) == Drew(s.over, s.opt);
    var r2 := Next(r1, ReloadTail(tid));
    assert r2.At(tid) == MayClaim(s.opt);
    assert s.tickets + [Claimed] == r2.tickets[s.opt := Claimed];
  }

  /**
   * Overcommits do no lasting harm: once every ticket is settled, a dequeue that runs alone finds an element exactly
   * when there is one, whatever the earlier races; if there is none it leaves the stream as it was.
   */
  lemma LoneDequeueSucceedsIff<T>(acts: seq<Act<T>>, tid: nat)
    requires Runs(acts) && After(acts).At(tid).Idle? && InFlight(After(acts).at) == {}
    ensures var s := After(acts);
            var r := Tested(s, tid);
            && (r.At(tid).Ready? <==> s.head < s.tail) && r.opt == |r.tickets|
            && (s.head >= s.tail ==> r == s.(at := s.at[tid := Idle]))
            && (s.head < s.tail ==> Settled(r, tid).At(tid) == Reading(s.head) && Settled(r, tid).head == s.head + 1
                                    && Settled(r, tid).opt == s.head + 1 + s.over && Settled(r, tid).over == s.over)
  {
    EveryRunKeepsInv(acts);
    HeadNeverPassesTail(acts);
    var s := After(acts);
    LoneTest(s, tid);
    assert s.opt == |s.tickets|;
    hide *;
    if s.head < s.tail {
      LoneClaim(s.(at := s.at[tid := Ready(s.over)]), tid);
    }
  }
}
