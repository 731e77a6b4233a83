/**
 * The lock-free free list of queue blocks, one step per atomic operation, any number of threads interleaved
 * (FreeList::add, try_get and add_knowing_refcount_is_zero).
 */
module FreeList {

  const FLAG := 0x8000_0000
  const WORD := 0x1_0000_0000
  /** Reference counts stay clear of the flag bit while fewer threads than this are running. */
  const MAX_THREADS := 0x7FFF_FFF0

  datatype Link = Null | To(n: nat)

  /** What a thread does after adding: return from add, or go on with the try_get that had to add. */
  datatype Back = Return | Resume(seen: Link)

  datatype Place =
    | Idle
    | Again
    | GotHead(n: nat)
    | GotRefs(n: nat, refs: nat)
    | Held(n: nat)
    | GotNext(n: nat, next: Link)
    | Popped(n: nat)
    | Losing(n: nat, seen: Link)
    | Adding(n: nat, back: Back)
    | Linking(n: nat, head: Link, back: Back)
    | Counting(n: nat, head: Link, back: Back)
    | Pushing(n: nat, head: Link, back: Back)
    | Retreating(n: nat, head: Link, back: Back)
  {
    /** The thread has incremented the node's count and not yet decremented it. */
    predicate Holds(node: nat) {
      (Held? || GotNext? || Popped? || Losing?) && n == node
    }

    predicate Readies(node: nat) {
      (Adding? || Linking? || Counting?) && n == node
    }

    predicate Offers(node: nat) {
      (Pushing? || Retreating?) && n == node
    }
  }

  /** Where a node is in its life; only this history variable knows, the code infers it from the count. */
  datatype Status =
    | Out
    | Waiting
    | Readying(tid: nat)
    | Offered(tid: nat)
    | Listed
    | Taken(tid: nat)
  {
    predicate Flagged() {
      Waiting? || Readying?
    }

    predicate ListRef() {
      Offered? || Listed? || Taken?
    }
  }

  /**
   * head, next and refs are the code's atomics; list is what following the links from the head yields; added and
   * taken count completed calls of add and successful ones of try_get.
   */
  datatype State = State(
    head: Link,
    next: map<nat, Link>,
    refs: map<nat, nat>,
    at: map<nat, Place>,
    list: seq<nat>,
    status: map<nat, Status>,
    added: nat,
    taken: nat)
  {
    function At(tid: nat): Place {
      if tid in at then at[tid] else Idle
    }

    function Move(tid: nat, p: Place): State {
      this.(at := at[tid := p])
    }

    function Mark(n: nat, s: Status): State {
      this.(status := status[n := s])
    }
  }

  datatype Act =
    | LoadHead(tid: nat)
    | LoadRefs(tid: nat)
    | AddRef(tid: nat)
    | LoadNext(tid: nat)
    | TakeHead(tid: nat)
    | DropTwo(tid: nat)
    | DropOne(tid: nat)
    | Add(tid: nat, n: nat)
    | AddLoadHead(tid: nat)
    | SetNext(tid: nat)
    | SetRefs(tid: nat)
    | Push(tid: nat)
    | Retreat(tid: nat)

  function Known(s: State, n: nat): bool {
    n in s.next && n in s.refs && n in s.status
  }

  ghost predicate Enabled(s: State, a: Act) {
    a.tid < MAX_THREADS &&
    var p := s.At(a.tid);
    match a
    case LoadHead(_) => p.Idle? || p.Again?
    case LoadRefs(_) => p.GotHead? && Known(s, p.n)
    case AddRef(_) => p.GotRefs? && Known(s, p.n)
    case LoadNext(_) => p.Held? && Known(s, p.n)
    case TakeHead(_) => p.GotNext? && Known(s, p.n)
    case DropTwo(_) => p.Popped? && Known(s, p.n)
    case DropOne(_) => p.Losing? && Known(s, p.n)
    case Add(_, n) => p.Idle? && Known(s, n) && s.status[n].Out?
    case AddLoadHead(_) => p.Adding?
    case SetNext(_) => p.Linking? && Known(s, p.n)
    case SetRefs(_) => p.Counting? && Known(s, p.n)
    case Push(_) => p.Pushing? && Known(s, p.n)
    case Retreat(_) => p.Retreating? && Known(s, p.n)
  }

  /** A word after fetch_add or fetch_sub. */
  function Plus(w: nat, delta: int): nat {
    (w + delta) % WORD
  }

  function Resumed(back: Back): Place {
    match back
    case Return => Idle
    case Resume(seen) => Looking(seen)
  }

  /** The head of try_get's loop: nothing to look at means return null. */
  function Looking(seen: Link): Place {
    if seen.Null? then Idle else GotHead(seen.n)
  }

  ghost function Next(s: State, a: Act): State
    requires Enabled(s, a)
  {
    var t, p := a.tid, s.At(a.tid);
    match a
    case LoadHead(_) => s.Move(t, Looking(s.head))
    case LoadRefs(_) => s.Move(t, if s.refs[p.n] % FLAG == 0 then Again else GotRefs(p.n, s.refs[p.n]))
    case AddRef(_) =>
      if s.refs[p.n] == p.refs then s.Move(t, Held(p.n)).(refs := s.refs[p.n := Plus(p.refs, 1)]) else s.Move(t, Again)
    case LoadNext(_) => s.Move(t, GotNext(p.n, s.next[p.n]))
    case TakeHead(_) =>
      if s.head == To(p.n)
      then s.Move(t, Popped(p.n)).Mark(p.n, Taken(t))
            .(head := p.next, list := if s.list == [] then [] else s.list[1..])
      else s.Move(t, Losing(p.n, s.head))
    case DropTwo(_) =>
      s.Move(t, Idle).Mark(p.n, Out).(refs := s.refs[p.n := Plus(s.refs[p.n], -2)], taken := s.taken + 1)
    case DropOne(_) =>
      var r := s.(refs := s.refs[p.n := Plus(s.refs[p.n], -1)]);
      if s.refs[p.n] == FLAG + 1 then r.Move(t, Adding(p.n, Resume(p.seen))).Mark(p.n, Readying(t))
      else r.Move(t, Looking(p.seen))
    case Add(_, n) =>
      var r := s.(refs := s.refs[n := Plus(s.refs[n], FLAG)], added := s.added + 1);
      if s.refs[n] == 0 then r.Move(t, Adding(n, Return)).Mark(n, Readying(t)) else r.Move(t, Idle).Mark(n, Waiting)
    case AddLoadHead(_) => s.Move(t, Linking(p.n, s.head, p.back))
    case SetNext(_) => s.Move(t, Counting(p.n, p.head, p.back)).(next := s.next[p.n := p.head])
    case SetRefs(_) => s.Move(t, Pushing(p.n, p.head, p.back)).Mark(p.n, Offered(t)).(refs := s.refs[p.n := 1])
    case Push(_) =>
      if s.head == p.head
      then s.Move(t, Resumed(p.back)).Mark(p.n, Listed).(head := To(p.n), list := [p.n] + s.list)
      else s.Move(t, Retreating(p.n, s.head, p.back))
    case Retreat(_) =>
      var r := s.(refs := s.refs[p.n := Plus(s.refs[p.n], FLAG - 1)]);
      if s.refs[p.n] == 1 then r.Move(t, Linking(p.n, p.head, p.back)).Mark(p.n, Readying(t))
      else r.Move(t, Resumed(p.back)).Mark(p.n, Waiting)
  }

  // ---------- The invariant ----------

  function LinkAt(list: seq<nat>, i: nat): Link {
    if i < |list| then To(list[i]) else Null
  }

  /** Following the links from the head visits exactly `list`, each node once. */
  ghost predicate Shape(head: Link, next: map<nat, Link>, list: seq<nat>) {
    && head == LinkAt(list, 0)
    && (forall i | 0 <= i < |list| :: list[i] in next && next[list[i]] == LinkAt(list, i + 1))
    && (forall i, j | 0 <= i < j < |list| :: list[i] != list[j])
  }

  ghost predicate Tracks(status: map<nat, Status>, list: seq<nat>) {
    forall n | n in status :: status[n].Listed? <==> n in list
  }

  function Holders(at: map<nat, Place>, n: nat): set<nat> {
    set tid | tid in at && at[tid].Holds(n)
  }

  /** The word the reference count must be: flag, one per holder, one for the list or whoever acts for it. */
  ghost function Expected(st: Status, holders: set<nat>): nat {
    (if st.Flagged() then FLAG else 0) + |holders| + if st.ListRef() then 1 else 0
  }

  ghost predicate Counts(refs: map<nat, nat>, status: map<nat, Status>, at: map<nat, Place>) {
    forall n | n in status :: n in refs && refs[n] == Expected(status[n], Holders(at, n))
  }

  /** A node being readied has no holder; one that waits has somebody left to add it. */
  ghost predicate Attended(status: map<nat, Status>, at: map<nat, Place>) {
    forall n | n in status ::
      && (status[n].Readying? ==> Holders(at, n) == {})
      && (status[n].Waiting? ==> Holders(at, n) != {})
  }

  predicate Reaches(l: Link, status: map<nat, Status>) {
    l.To? ==> l.n in status
  }

  ghost predicate Fits(tid: nat, p: Place, status: map<nat, Status>, next: map<nat, Link>) {
    && tid < MAX_THREADS
    && (!p.Idle? && !p.Again? ==> p.n in status)
    && (p.GotRefs? ==> p.refs % FLAG != 0)
    && (p.GotNext? ==> p.n in next && next[p.n] == p.next && Reaches(p.next, status))
    && (p.Popped? ==> status[p.n] == Taken(tid))
    && (p.Losing? ==> Reaches(p.seen, status))
    && (p.Adding? || p.Linking? || p.Counting? ==> status[p.n] == Readying(tid))
    && (p.Pushing? || p.Retreating? ==> status[p.n] == Offered(tid))
    && (p.Linking? || p.Counting? || p.Pushing? || p.Retreating? ==> Reaches(p.head, status))
    && (p.Counting? || p.Pushing? ==> p.n in next && next[p.n] == p.head)
    && (p.Adding? || p.Linking? || p.Counting? || p.Pushing? || p.Retreating? ==>
          p.back.Resume? ==> Reaches(p.back.seen, status))
  }

  ghost predicate Places(at: map<nat, Place>, status: map<nat, Status>, next: map<nat, Link>) {
    forall tid | tid in at :: Fits(tid, at[tid], status, next)
  }

  /** Whoever a status names is at it. */
  ghost predicate Responsible(at: map<nat, Place>, status: map<nat, Status>) {
    forall n | n in status ::
      && (status[n].Readying? ==> status[n].tid in at && at[status[n].tid].Readies(n))
      && (status[n].Offered? ==> status[n].tid in at && at[status[n].tid].Offers(n))
      && (status[n].Taken? ==> status[n].tid in at && at[status[n].tid] == Popped(n))
  }

  function InSystem(status: map<nat, Status>): set<nat> {
    set n | n in status && !status[n].Out?
  }

  /** The four predicates that tie threads to nodes, together. */
  ghost predicate Ties(
    refs: map<nat, nat>, status: map<nat, Status>, at: map<nat, Place>, next: map<nat, Link>)
  {
    Counts(refs, status, at) && Attended(status, at) && Places(at, status, next) && Responsible(at, status)
  }

  ghost predicate Tied(s: State) {
    Ties(s.refs, s.status, s.at, s.next)
  }

  ghost predicate Linked(head: Link, next: map<nat, Link>, list: seq<nat>, status: map<nat, Status>) {
    && (forall n | n in next :: Reaches(next[n], status))
    && Shape(head, next, list)
    && (forall n | n in list :: n in status)
    && Tracks(status, list)
  }

  /** Nodes in the system are those added and not taken. */
  ghost predicate Balanced(s: State) {
    s.added == s.taken + |InSystem(s.status)|
  }

  ghost predicate Inv(s: State) {
    && s.next.Keys == s.refs.Keys == s.status.Keys
    && Linked(s.head, s.next, s.list, s.status)
    && Tied(s)
    && Balanced(s)
  }

  // ---------- One thread moves, one node changes ----------

  function PlaceOf(at: map<nat, Place>, tid: nat): Place {
    if tid in at then at[tid] else Idle
  }

  lemma HoldersMove(at: map<nat, Place>, tid: nat, p: Place, n: nat)
    ensures Holders(at[tid := p], n) == if p.Holds(n) then Holders(at, n) + {tid} else Holders(at, n) - {tid}
    ensures tid in Holders(at, n) <==> PlaceOf(at, tid).Holds(n)
    ensures |Holders(at[tid := p], n)|
         == |Holders(at, n)| - (if PlaceOf(at, tid).Holds(n) then 1 else 0) + (if p.Holds(n) then 1 else 0)
  {
    var before, after := Holders(at, n), Holders(at[tid := p], n);
    if p.Holds(n) {
      assert after == before + {tid};
    } else {
      assert after == before - {tid};
    }
    hide Holders, Place.Holds;
  }

  lemma {:induction false} BoundedSet(s: set<nat>, bound: nat)
    requires forall x | x in s :: x < bound
    ensures |s| <= bound
  {
    if bound == 0 {
      assert s == {};
    } else {
      BoundedSet(s - {bound - 1}, bound - 1);
    }
  }

  lemma HoldersAreFew(at: map<nat, Place>, status: map<nat, Status>, next: map<nat, Link>, n: nat)
    requires Places(at, status, next)
    ensures |Holders(at, n)| <= MAX_THREADS
  {
    BoundedSet(Holders(at, n), MAX_THREADS);
  }

  lemma CountsStep(
    refs: map<nat, nat>, status: map<nat, Status>, at: map<nat, Place>, tid: nat, p: Place, n0: nat, st: Status, w: nat)
    requires Counts(refs, status, at) && n0 in status
    requires forall n | n != n0 :: PlaceOf(at, tid).Holds(n) <==> p.Holds(n)
    requires w == Expected(st, Holders(at[tid := p], n0))
    ensures Counts(refs[n0 := w], status[n0 := st], at[tid := p])
  {
    hide Holders, Expected;
    forall n | n in status && n != n0
      ensures Holders(at[tid := p], n) == Holders(at, n)
    {
      HoldersMove(at, tid, p, n);
    }
  }

  lemma AttendedStep(status: map<nat, Status>, at: map<nat, Place>, tid: nat, p: Place, n0: nat, st: Status)
    requires Attended(status, at) && n0 in status
    requires forall n | n != n0 :: PlaceOf(at, tid).Holds(n) <==> p.Holds(n)
    requires st.Readying? ==> Holders(at[tid := p], n0) == {}
    requires st.Waiting? ==> Holders(at[tid := p], n0) != {}
    ensures Attended(status[n0 := st], at[tid := p])
  {
    hide Holders;
    forall n | n in status && n != n0
      ensures Holders(at[tid := p], n) == Holders(at, n)
    {
      HoldersMove(at, tid, p, n);
    }
  }

  /** The status names a thread other than this one. */
  predicate NamesOther(st: Status, tid: nat) {
    (st.Readying? || st.Offered? || st.Taken?) && st.tid != tid
  }

  lemma PlacesStep(
    at: map<nat, Place>, status: map<nat, Status>, next: map<nat, Link>, tid: nat, p: Place, n0: nat, st: Status)
    requires Places(at, status, next) && n0 in status
    requires status[n0] == st || !NamesOther(status[n0], tid)
    requires Fits(tid, p, status[n0 := st], next)
    ensures Places(at[tid := p], status[n0 := st], next)
  {
    forall i | i in at && i != tid
      ensures Fits(i, at[i], status[n0 := st], next)
    {
      assert Fits(i, at[i], status, next);
    }
  }

  predicate Plays(p: Place, n: nat) {
    p.Readies(n) || p.Offers(n) || p == Popped(n)
  }

  /** If the status names a thread, it is this one, and its place is the one named. */
  predicate Backs(tid: nat, p: Place, n: nat, st: Status) {
    && (st.Readying? ==> st.tid == tid && p.Readies(n))
    && (st.Offered? ==> st.tid == tid && p.Offers(n))
    && (st.Taken? ==> st.tid == tid && p == Popped(n))
  }

  lemma ResponsibleStep(at: map<nat, Place>, status: map<nat, Status>, tid: nat, p: Place, n0: nat, st: Status)
    requires Responsible(at, status) && n0 in status
    requires forall n | n != n0 :: !Plays(PlaceOf(at, tid), n)
    requires (st == status[n0] && !Plays(PlaceOf(at, tid), n0)) || Backs(tid, p, n0, st)
    ensures Responsible(at[tid := p], status[n0 := st])
  {
    forall n | n in status && n != n0 && (status[n].Readying? || status[n].Offered? || status[n].Taken?)
      ensures status[n].tid != tid
    {
      assert !Plays(PlaceOf(at, tid), n);
    }
  }

  ghost predicate MayMove(s: State, tid: nat, p: Place, n: nat, st: Status) {
    && n in s.status
    && (forall m | m != n :: (s.At(tid).Holds(m) <==> p.Holds(m)) && !Plays(s.At(tid), m))
    && (s.status[n] == st || !NamesOther(s.status[n], tid))
    && ((st == s.status[n] && !Plays(s.At(tid), n)) || Backs(tid, p, n, st))
  }

  lemma Step(s: State, tid: nat, p: Place, n: nat, st: Status, w: nat)
    requires Tied(s) && MayMove(s, tid, p, n, st) && Fits(tid, p, s.status[n := st], s.next)
    requires w == Expected(st, Holders(s.at[tid := p], n))
    requires st.Readying? ==> Holders(s.at[tid := p], n) == {}
    requires st.Waiting? ==> Holders(s.at[tid := p], n) != {}
    ensures Tied(s.Move(tid, p).Mark(n, st).(refs := s.refs[n := w]))
  {
    assert PlaceOf(s.at, tid) == s.At(tid);
    hide Counts, Attended, Places, Responsible, Expected, Holders, Fits, Backs, NamesOther, Plays;
    CountsStep(s.refs, s.status, s.at, tid, p, n, st, w);
    AttendedStep(s.status, s.at, tid, p, n, st);
    PlacesStep(s.at, s.status, s.next, tid, p, n, st);
    ResponsibleStep(s.at, s.status, tid, p, n, st);
  }

  /** A step that changes no count and no status. */
  lemma LocalStepCounts(s: State, tid: nat, p: Place)
    requires Tied(s) && forall m :: s.At(tid).Holds(m) <==> p.Holds(m)
    ensures Counts(s.refs, s.status, s.at[tid := p]) && Attended(s.status, s.at[tid := p])
  {
    assert PlaceOf(s.at, tid) == s.At(tid);
    hide Fits, Responsible, Places, Place.Holds, Plays;
    forall n | n in s.status
      ensures Holders(s.at[tid := p], n) == Holders(s.at, n)
    {
      HoldersMove(s.at, tid, p, n);
    }
    hide Holders, Expected;
  }

  lemma LocalStep(s: State, tid: nat, p: Place)
    requires Tied(s) && Fits(tid, p, s.status, s.next)
    requires forall m :: s.At(tid).Holds(m) <==> p.Holds(m)
    requires forall m | Plays(s.At(tid), m) ::
               (s.At(tid).Readies(m) ==> p.Readies(m)) && (s.At(tid).Offers(m) ==> p.Offers(m)) && s.At(tid) != Popped(m)
    ensures Tied(s.Move(tid, p))
  {
    LocalStepCounts(s, tid, p);
    hide Counts, Attended;
    assert PlaceOf(s.at, tid) == s.At(tid);
    assert Places(s.at[tid := p], s.status, s.next) by {
      hide Fits, Responsible;
    }
    assert Responsible(s.at[tid := p], s.status) by {
      hide Fits, Places;
    }
  }

  lemma CountedAs(s: State, n: nat)
    requires Tied(s) && n in s.status
    ensures n in s.refs && s.refs[n] == Expected(s.status[n], Holders(s.at, n))
    ensures |Holders(s.at, n)| <= MAX_THREADS
  {
    HoldersAreFew(s.at, s.status, s.next, n);
  }

  lemma FitsHere(s: State, tid: nat)
    requires Tied(s)
    ensures tid in s.at ==> Fits(tid, s.at[tid], s.status, s.next)
  {
  }

  // ---------- try_get ----------

  lemma LinksAreKnown(s: State)
    requires Linked(s.head, s.next, s.list, s.status)
    ensures Reaches(s.head, s.status) && forall n | n in s.next :: Reaches(s.next[n], s.status)
  {
  }

  lemma LoadKeepsTied(s: State, a: Act)
    requires Inv(s) && Enabled(s, a) && (a.LoadHead? || a.LoadRefs? || a.LoadNext? || a.AddLoadHead?)
    ensures Tied(Next(s, a))
  {
    hide Ties, Linked, InSystem, Holders;
    FitsHere(s, a.tid);
    LinksAreKnown(s);
    LocalStep(s, a.tid, Next(s, a).At(a.tid));
  }

  lemma WordIsTheCount(n: nat)
    requires n <= MAX_THREADS + 1
    ensures n % FLAG == n && (FLAG + n) % FLAG == n
  {
  }

  lemma AddRefKeepsTied(s: State, tid: nat)
    requires Inv(s) && Enabled(s, AddRef(tid))
    ensures Tied(Next(s, AddRef(tid)))
  {
    hide Ties, Linked, InSystem, Holders;
    var p, r := s.At(tid), Next(s, AddRef(tid));
    FitsHere(s, tid);
    if s.refs[p.n] == p.refs {
      CountedAs(s, p.n);
      HoldersMove(s.at, tid, Held(p.n), p.n);
      WordIsTheCount(|Holders(s.at, p.n)|);
      if s.status[p.n].Readying? {
        ReadyingIsUnheld(s, p.n);
      }
      Recount(s, tid, Held(p.n), p.n, Plus(p.refs, 1));
    } else {
      LocalStep(s, tid, Again);
    }
  }

  lemma ReadyingIsUnheld(s: State, n: nat)
    requires Tied(s) && n in s.status && s.status[n].Readying?
    ensures Holders(s.at, n) == {}
  {
  }

  /** A step that changes a count but no status. */
  lemma Recount(s: State, tid: nat, p: Place, n: nat, w: nat)
    requires Tied(s) && n in s.status && MayMove(s, tid, p, n, s.status[n]) && Fits(tid, p, s.status, s.next)
    requires w == Expected(s.status[n], Holders(s.at[tid := p], n))
    requires s.status[n].Readying? ==> Holders(s.at[tid := p], n) == {}
    requires s.status[n].Waiting? ==> Holders(s.at[tid := p], n) != {}
    ensures Tied(s.Move(tid, p).(refs := s.refs[n := w]))
  {
    hide Ties, Fits, Expected, Holders;
    assert s.status[n := s.status[n]] == s.status;
    Step(s, tid, p, n, s.status[n], w);
  }

  /** A step that changes a status but not the count. */
  lemma Restatus(s: State, tid: nat, p: Place, n: nat, st: Status)
    requires Tied(s) && MayMove(s, tid, p, n, st) && Fits(tid, p, s.status[n := st], s.next)
    requires n in s.refs && s.refs[n] == Expected(st, Holders(s.at[tid := p], n))
    requires !st.Readying? && !st.Waiting?
    ensures Tied(s.Move(tid, p).Mark(n, st))
  {
    hide Ties, Fits, Expected, Holders;
    assert s.refs[n := s.refs[n]] == s.refs;
    Step(s, tid, p, n, st, s.refs[n]);
  }

  /** The compare-and-swap can succeed only on the listed head, and then it installs that node's current successor. */
  lemma TakeHeadTakesTheFirst(s: State, tid: nat)
    requires Inv(s) && Enabled(s, TakeHead(tid)) && s.head == To(s.At(tid).n)
    ensures var p := s.At(tid);
            && s.list != [] && s.list[0] == p.n && s.status[p.n].Listed?
            && s.next[p.n] == p.next == LinkAt(s.list, 1)
  {
    hide Counts, Attended, Responsible;
    assert s.At(tid).n in s.list;
    FitsHere(s, tid);
  }

  lemma TakeHeadKeepsTied(s: State, tid: nat)
    requires Inv(s) && Enabled(s, TakeHead(tid))
    ensures Tied(Next(s, TakeHead(tid)))
  {
    hide Ties, Linked, InSystem, Holders;
    var p := s.At(tid);
    if s.head == To(p.n) {
      TakeHeadTakesTheFirst(s, tid);
      CountedAs(s, p.n);
      HoldersMove(s.at, tid, Popped(p.n), p.n);
      Restatus(s, tid, Popped(p.n), p.n, Taken(tid));
    } else {
      FitsHere(s, tid);
      LinksAreKnown(s);
      LocalStep(s, tid, Losing(p.n, s.head));
    }
  }

  lemma DropTwoKeepsTied(s: State, tid: nat)
    requires Inv(s) && Enabled(s, DropTwo(tid))
    ensures Tied(Next(s, DropTwo(tid)))
  {
    hide Ties, Linked, InSystem, Holders;
    var p := s.At(tid);
    FitsHere(s, tid);
    CountedAs(s, p.n);
    HoldersMove(s.at, tid, Idle, p.n);
    Step(s, tid, Idle, p.n, Out, Plus(s.refs[p.n], -2));
  }

  lemma DropOneKeepsTied(s: State, tid: nat)
    requires Inv(s) && Enabled(s, DropOne(tid))
    ensures Tied(Next(s, DropOne(tid)))
  {
    hide Ties, Linked, InSystem, Holders;
    var p, r := s.At(tid), Next(s, DropOne(tid));
    FitsHere(s, tid);
    CountedAs(s, p.n);
    HoldersMove(s.at, tid, r.At(tid), p.n);
    if s.status[p.n].Readying? {
      ReadyingIsUnheld(s, p.n);
    }
    if s.refs[p.n] == FLAG + 1 {
      Step(s, tid, r.At(tid), p.n, Readying(tid), Plus(s.refs[p.n], -1));
    } else {
      Recount(s, tid, r.At(tid), p.n, Plus(s.refs[p.n], -1));
    }
  }

  // ---------- add ----------

  lemma AddUnheldKeepsTied(s: State, tid: nat, n: nat)
    requires Inv(s) && Enabled(s, Add(tid, n)) && s.refs[n] == 0
    ensures Tied(s.Move(tid, Adding(n, Return)).Mark(n, Readying(tid)).(refs := s.refs[n := FLAG]))
  {
    hide Ties, Linked, InSystem, Holders;
    CountedAs(s, n);
    HoldersMove(s.at, tid, Adding(n, Return), n);
    Step(s, tid, Adding(n, Return), n, Readying(tid), FLAG);
  }

  lemma AddHeldKeepsTied(s: State, tid: nat, n: nat)
    requires Inv(s) && Enabled(s, Add(tid, n)) && s.refs[n] != 0
    ensures Tied(s.Move(tid, Idle).Mark(n, Waiting).(refs := s.refs[n := Plus(s.refs[n], FLAG)]))
  {
    hide Ties, Linked, InSystem, Holders;
    CountedAs(s, n);
    HoldersMove(s.at, tid, Idle, n);
    Step(s, tid, Idle, n, Waiting, Plus(s.refs[n], FLAG));
  }

  lemma AddKeepsTied(s: State, tid: nat, n: nat)
    requires Inv(s) && Enabled(s, Add(tid, n))
    ensures Tied(Next(s, Add(tid, n)))
  {
    hide Ties, Inv;
    if s.refs[n] == 0 {
      AddUnheldKeepsTied(s, tid, n);
    } else {
      AddHeldKeepsTied(s, tid, n);
    }
  }

  lemma RelinkKeepsTied(s: State, tid: nat, n: nat, link: Link)
    requires Tied(s) && n in s.status && s.status[n] == Readying(tid) && s.At(tid).Linking?
    ensures Tied(s.(next := s.next[n := link]))
  {
    ReadyingIsUnheld(s, n);
    var next' := s.next[n := link];
    forall i | i in s.at
      ensures Fits(i, s.at[i], s.status, next')
    {
      assert Fits(i, s.at[i], s.status, s.next);
      assert s.at[i].Holds(n) ==> i in Holders(s.at, n);
    }
  }

  lemma SetNextKeepsTied(s: State, tid: nat)
    requires Inv(s) && Enabled(s, SetNext(tid))
    ensures Tied(Next(s, SetNext(tid)))
  {
    hide Ties, Linked, InSystem, Holders;
    var p := s.At(tid);
    FitsHere(s, tid);
    RelinkKeepsTied(s, tid, p.n, p.head);
    LocalStep(s.(next := s.next[p.n := p.head]), tid, Counting(p.n, p.head, p.back));
  }

  lemma MaySetRefs(s: State, tid: nat, n: nat, head: Link, back: Back)
    requires Inv(s) && s.At(tid) == Counting(n, head, back)
    ensures var q := Pushing(n, head, back);
            && MayMove(s, tid, q, n, Offered(tid)) && Fits(tid, q, s.status[n := Offered(tid)], s.next)
            && Holders(s.at[tid := q], n) == {}
  {
    hide Ties, Linked, InSystem, Holders, Balanced;
    FitsHere(s, tid);
    ReadyingIsUnheld(s, n);
    HoldersMove(s.at, tid, Pushing(n, head, back), n);
  }

  lemma SetRefsKeepsTied(s: State, tid: nat)
    requires Inv(s) && Enabled(s, SetRefs(tid))
    ensures Tied(Next(s, SetRefs(tid)))
  {
    hide Ties, Linked, InSystem, Holders, Balanced, Fits, MayMove;
    var p := s.At(tid);
    MaySetRefs(s, tid, p.n, p.head, p.back);
    Step(s, tid, Pushing(p.n, p.head, p.back), p.n, Offered(tid), 1);
  }

  lemma PushedKeepsTied(s: State, tid: nat)
    requires Inv(s) && Enabled(s, Push(tid)) && s.head == s.At(tid).head
    ensures Tied(Next(s, Push(tid)))
  {
    hide Ties, Linked, InSystem, Holders, Balanced;
    var p, r := s.At(tid), Next(s, Push(tid));
    FitsHere(s, tid);
    LinksAreKnown(s);
    CountedAs(s, p.n);
    HoldersMove(s.at, tid, r.At(tid), p.n);
    Restatus(s, tid, r.At(tid), p.n, Listed);
  }

  lemma BeatenKeepsTied(s: State, tid: nat)
    requires Inv(s) && Enabled(s, Push(tid)) && s.head != s.At(tid).head
    ensures Tied(Next(s, Push(tid)))
  {
    hide Ties, Linked, InSystem, Holders, Balanced;
    FitsHere(s, tid);
    LinksAreKnown(s);
    LocalStep(s, tid, Next(s, Push(tid)).At(tid));
  }

  lemma PushKeepsTied(s: State, tid: nat)
    requires Inv(s) && Enabled(s, Push(tid))
    ensures Tied(Next(s, Push(tid)))
  {
    hide Inv, Next;
    if s.head == s.At(tid).head {
      PushedKeepsTied(s, tid);
    } else {
      BeatenKeepsTied(s, tid);
    }
  }

  lemma UnheldMayRetreat(s: State, tid: nat, n: nat, head: Link, back: Back)
    requires Inv(s) && s.At(tid) == Retreating(n, head, back) && n in s.refs && s.refs[n] == 1
    ensures var q := Linking(n, head, back);
            && MayMove(s, tid, q, n, Readying(tid)) && Fits(tid, q, s.status[n := Readying(tid)], s.next)
            && Holders(s.at[tid := q], n) == {}
  {
    hide Ties, Linked, InSystem, Holders, Balanced;
    FitsHere(s, tid);
    CountedAs(s, n);
    HoldersMove(s.at, tid, Linking(n, head, back), n);
  }

  lemma RetreatUnheldKeepsTied(s: State, tid: nat)
    requires Enabled(s, Retreat(tid)) && s.refs[s.At(tid).n] == 1 && Inv(s)
    ensures Tied(Next(s, Retreat(tid)))
  {
    hide Ties, Linked, InSystem, Holders, Balanced, Fits, MayMove;
    var p := s.At(tid);
    UnheldMayRetreat(s, tid, p.n, p.head, p.back);
    Step(s, tid, Linking(p.n, p.head, p.back), p.n, Readying(tid), FLAG);
    assert Plus(1, FLAG - 1) == FLAG;
  }

  lemma RetreatHeldKeepsTied(s: State, tid: nat)
    requires Enabled(s, Retreat(tid)) && s.refs[s.At(tid).n] != 1 && Inv(s)
    ensures Tied(Next(s, Retreat(tid)))
  {
    hide Ties, Linked, InSystem, Holders, Balanced;
    var p := s.At(tid);
    FitsHere(s, tid);
    CountedAs(s, p.n);
    HoldersMove(s.at, tid, Resumed(p.back), p.n);
    Step(s, tid, Resumed(p.back), p.n, Waiting, Plus(s.refs[p.n], FLAG - 1));
  }

  lemma RetreatKeepsTied(s: State, tid: nat)
    requires Inv(s) && Enabled(s, Retreat(tid))
    ensures Tied(Next(s, Retreat(tid)))
  {
    hide Ties, Inv;
    if s.refs[s.At(tid).n] == 1 {
      RetreatUnheldKeepsTied(s, tid);
    } else {
      RetreatHeldKeepsTied(s, tid);
    }
  }

  // ---------- The list itself ----------

  lemma RemarkLinked(s: State, n: nat, st: Status)
    requires Linked(s.head, s.next, s.list, s.status) && n in s.status && !s.status[n].Listed? && !st.Listed?
    ensures Linked(s.head, s.next, s.list, s.status[n := st])
  {
    hide Shape;
  }

  ghost predicate StillLinked(r: State) {
    r.next.Keys == r.refs.Keys == r.status.Keys && Linked(r.head, r.next, r.list, r.status)
  }

  lemma LoadLinked(s: State, a: Act)
    requires Inv(s) && Enabled(s, a) && (a.LoadHead? || a.LoadRefs? || a.AddRef? || a.LoadNext? || a.AddLoadHead?)
    ensures StillLinked(Next(s, a))
  {
    FitsHere(s, a.tid);
    hide Ties, Plus, InSystem, Linked, Fits;
  }

  lemma AddLinked(s: State, a: Act)
    requires Inv(s) && Enabled(s, a) && a.Add?
    ensures StillLinked(Next(s, a))
  {
    hide Ties, Plus, InSystem, Linked;
    RemarkLinked(s, a.n, Next(s, a).status[a.n]);
  }

  lemma MarkedIsOffTheList(s: State, tid: nat)
    requires Inv(s) && (s.At(tid).Popped? || s.At(tid).Counting? || s.At(tid).Retreating?)
    ensures s.At(tid).n in s.status && !s.status[s.At(tid).n].Listed?
  {
    FitsHere(s, tid);
    hide Ties;
  }

  lemma DropTwoLinked(s: State, tid: nat)
    requires Inv(s) && Enabled(s, DropTwo(tid))
    ensures StillLinked(Next(s, DropTwo(tid)))
  {
    hide Ties, Balanced, Linked, StillLinked, Plus;
    MarkedIsOffTheList(s, tid);
    InvIsLinked(s);
    var n, r := s.At(tid).n, Next(s, DropTwo(tid));
    MarkKeepsLinked(s, n, Out, r.refs, r.at);
    TakenCountStays(s.Mark(n, Out).(refs := r.refs, at := r.at), r);
  }

  lemma SetRefsLinked(s: State, tid: nat)
    requires Inv(s) && Enabled(s, SetRefs(tid))
    ensures StillLinked(Next(s, SetRefs(tid)))
  {
    hide Ties, Balanced, Linked, StillLinked, Plus;
    MarkedIsOffTheList(s, tid);
    InvIsLinked(s);
    var n, r := s.At(tid).n, Next(s, SetRefs(tid));
    MarkKeepsLinked(s, n, Offered(tid), r.refs, r.at);
  }

  lemma MarkKeepsLinked(s: State, n: nat, st: Status, refs: map<nat, nat>, at: map<nat, Place>)
    requires StillLinked(s) && n in s.status && !s.status[n].Listed? && !st.Listed? && refs.Keys == s.refs.Keys
    ensures StillLinked(s.Mark(n, st).(refs := refs, at := at))
  {
    hide Linked;
    RemarkLinked(s, n, st);
  }

  lemma RetreatLinked(s: State, tid: nat)
    requires Inv(s) && Enabled(s, Retreat(tid))
    ensures StillLinked(Next(s, Retreat(tid)))
  {
    hide Ties, Balanced, Linked, StillLinked, Plus, Resumed;
    MarkedIsOffTheList(s, tid);
    InvIsLinked(s);
    var n, r := s.At(tid).n, Next(s, Retreat(tid));
    assert r.refs.Keys == s.refs.Keys;
    MarkKeepsLinked(s, n, r.status[n], r.refs, r.at);
  }

  lemma TakenCountStays(s: State, r: State)
    requires StillLinked(s) && r == s.(taken := r.taken)
    ensures StillLinked(r)
  {
    hide Linked;
  }

  lemma InvIsLinked(s: State)
    requires Inv(s)
    ensures StillLinked(s)
  {
    hide Ties, Balanced, Linked;
  }

  lemma DropOneLinked(s: State, a: Act)
    requires Inv(s) && Enabled(s, a) && a.DropOne?
    ensures StillLinked(Next(s, a))
  {
    hide Ties, Plus, InSystem, Linked;
    var n := s.At(a.tid).n;
    if s.refs[n] == FLAG + 1 {
      DropTakesNoListed(s, a);
      RemarkLinked(s, n, Readying(a.tid));
    }
  }

  lemma DropTakesNoListed(s: State, a: Act)
    requires Inv(s) && Enabled(s, a) && a.DropOne? && s.refs[s.At(a.tid).n] == FLAG + 1
    ensures s.status[s.At(a.tid).n].Waiting?
  {
    CountedAs(s, s.At(a.tid).n);
    HoldersMove(s.at, a.tid, Idle, s.At(a.tid).n);
  }

  lemma PopShape(head: Link, next: map<nat, Link>, list: seq<nat>)
    requires Shape(head, next, list) && list != []
    ensures Shape(LinkAt(list, 1), next, list[1..]) && list[0] !in list[1..]
  {
    var rest := list[1..];
    forall i | 0 <= i < |rest|
      ensures rest[i] in next && next[rest[i]] == LinkAt(rest, i + 1) && rest[i] != list[0]
    {
      assert rest[i] == list[i + 1];
    }
  }

  lemma PoppedLinked(s: State, st: Status)
    requires Linked(s.head, s.next, s.list, s.status) && s.list != [] && !st.Listed?
    ensures Linked(LinkAt(s.list, 1), s.next, s.list[1..], s.status[s.list[0] := st])
  {
    hide Shape;
    PopShape(s.head, s.next, s.list);
    assert s.list == [s.list[0]] + s.list[1..];
  }

  lemma TakeHeadLinked(s: State, tid: nat)
    requires Inv(s) && Enabled(s, TakeHead(tid))
    ensures StillLinked(Next(s, TakeHead(tid)))
  {
    hide Ties, InSystem, Linked;
    if s.head == To(s.At(tid).n) {
      TakeHeadTakesTheFirst(s, tid);
      PoppedLinked(s, Taken(tid));
    }
  }

  lemma PushShape(next: map<nat, Link>, list: seq<nat>, n: nat)
    requires Shape(LinkAt(list, 0), next, list) && n !in list && n in next && next[n] == LinkAt(list, 0)
    ensures Shape(To(n), next, [n] + list)
  {
    var more := [n] + list;
    forall i | 0 <= i < |more|
      ensures more[i] in next && next[more[i]] == LinkAt(more, i + 1)
    {
      assert i > 0 ==> more[i] == list[i - 1];
    }
  }

  lemma PushedLinked(s: State, n: nat)
    requires Linked(s.head, s.next, s.list, s.status) && n in s.status && !s.status[n].Listed?
    requires n in s.next && s.next[n] == s.head
    ensures Linked(To(n), s.next, [n] + s.list, s.status[n := Listed])
  {
    assert s.head == LinkAt(s.list, 0);
    hide Shape;
    PushShape(s.next, s.list, n);
  }

  lemma PushLinked(s: State, tid: nat)
    requires Inv(s) && Enabled(s, Push(tid))
    ensures StillLinked(Next(s, Push(tid)))
  {
    FitsHere(s, tid);
    hide Ties, InSystem, Linked;
    if s.head == s.At(tid).head {
      PushedLinked(s, s.At(tid).n);
    }
  }

  lemma SetNextLinked(s: State, tid: nat)
    requires Inv(s) && Enabled(s, SetNext(tid))
    ensures StillLinked(Next(s, SetNext(tid)))
  {
    FitsHere(s, tid);
    hide Ties, InSystem, Linked;
    RelinkLinked(s, s.At(tid).n, s.At(tid).head);
  }

  lemma RelinkLinked(s: State, n: nat, link: Link)
    requires Linked(s.head, s.next, s.list, s.status) && n in s.status && !s.status[n].Listed?
        && Reaches(link, s.status)
    ensures Linked(s.head, s.next[n := link], s.list, s.status)
  {
    assert n !in s.list;
  }

  lemma OneMember(before: set<nat>, n: nat)
    ensures |before + {n}| == if n in before then |before| else |before| + 1
    ensures |before - {n}| == if n in before then |before| - 1 else |before|
  {
    if n in before {
      assert before + {n} == before;
    } else {
      assert before - {n} == before;
    }
  }

  lemma MarkedSystem(status: map<nat, Status>, n: nat, st: Status)
    requires n in status
    ensures n in InSystem(status) <==> !status[n].Out?
    ensures InSystem(status[n := st]) == if st.Out? then InSystem(status) - {n} else InSystem(status) + {n}
  {
  }

  lemma InSystemMarks(status: map<nat, Status>, n: nat, st: Status)
    requires n in status
    ensures n in InSystem(status) <==> !status[n].Out?
    ensures InSystem(status[n := st]) == if st.Out? then InSystem(status) - {n} else InSystem(status) + {n}
    ensures |InSystem(status[n := st])|
         == |InSystem(status)| - (if status[n].Out? then 0 else 1) + (if st.Out? then 0 else 1)
  {
    hide InSystem;
    MarkedSystem(status, n, st);
    OneMember(InSystem(status), n);
  }

  lemma TakeHeadKeepsLedger(s: State, tid: nat)
    requires Inv(s) && Enabled(s, TakeHead(tid))
    ensures Balanced(Next(s, TakeHead(tid)))
  {
    hide Linked, Ties, InSystem;
    var n := s.At(tid).n;
    if s.head == To(n) {
      TakeHeadTakesTheFirst(s, tid);
      InSystemMarks(s.status, n, Taken(tid));
    }
  }

  lemma DropOneKeepsLedger(s: State, a: Act)
    requires Inv(s) && Enabled(s, a) && a.DropOne?
    ensures Balanced(Next(s, a))
  {
    hide Linked, Ties, InSystem, Plus;
    var n := s.At(a.tid).n;
    if s.refs[n] == FLAG + 1 {
      DropTakesNoListed(s, a);
      InSystemMarks(s.status, n, Readying(a.tid));
    }
  }

  lemma ActsOnMember(s: State, a: Act)
    requires Inv(s) && Enabled(s, a) && (a.DropTwo? || a.SetRefs? || a.Push? || a.Retreat?)
    ensures s.At(a.tid).n in s.status && !s.status[s.At(a.tid).n].Out?
  {
    hide Linked, Balanced, Counts, Attended, Responsible;
    FitsHere(s, a.tid);
  }

  lemma MarksKeepLedger(s: State, a: Act)
    requires Inv(s) && Enabled(s, a) && (a.DropTwo? || a.SetRefs? || a.Push? || a.Retreat?)
    ensures Balanced(Next(s, a))
  {
    hide Linked, Ties, InSystem, Plus;
    ActsOnMember(s, a);
    var n := s.At(a.tid).n;
    match a
    case DropTwo(_) => InSystemMarks(s.status, n, Out);
    case SetRefs(tid) => InSystemMarks(s.status, n, Offered(tid));
    case Push(_) => InSystemMarks(s.status, n, Listed);
    case Retreat(tid) => InSystemMarks(s.status, n, if s.refs[n] == 1 then Readying(tid) else Waiting);
  }

  lemma KeepsLedger(s: State, a: Act)
    requires Inv(s) && Enabled(s, a)
    ensures Balanced(Next(s, a))
  {
    hide Linked, Ties, InSystem;
    match a
    case LoadHead(_) | LoadRefs(_) | AddRef(_) | LoadNext(_) | AddLoadHead(_) | SetNext(_) =>
    case Add(_, n) => InSystemMarks(s.status, n, if s.refs[n] == 0 then Readying(a.tid) else Waiting);
    case TakeHead(tid) => TakeHeadKeepsLedger(s, tid);
    case DropOne(_) => DropOneKeepsLedger(s, a);
    case DropTwo(_) | SetRefs(_) | Push(_) | Retreat(_) => MarksKeepLedger(s, a);
  }

  lemma TakeHeadKeepsMembers(s: State, tid: nat)
    requires Inv(s) && Enabled(s, TakeHead(tid))
    ensures Next(s, TakeHead(tid)).status.Keys == s.status.Keys
    ensures InSystem(Next(s, TakeHead(tid)).status) == InSystem(s.status)
  {
    hide Linked, Ties, InSystem;
    var n := s.At(tid).n;
    if s.head == To(n) {
      TakeHeadTakesTheFirst(s, tid);
      InSystemMarks(s.status, n, Taken(tid));
    }
  }

  lemma DropOneKeepsMembers(s: State, a: Act)
    requires Inv(s) && Enabled(s, a) && a.DropOne?
    ensures Next(s, a).status.Keys == s.status.Keys && InSystem(Next(s, a).status) == InSystem(s.status)
  {
    hide Linked, Ties, InSystem, Plus;
    var n := s.At(a.tid).n;
    if s.refs[n] == FLAG + 1 {
      DropTakesNoListed(s, a);
      InSystemMarks(s.status, n, Readying(a.tid));
    }
  }

  lemma MarksMoveMembers(s: State, a: Act)
    requires Inv(s) && Enabled(s, a) && (a.DropTwo? || a.SetRefs? || a.Push? || a.Retreat?)
    ensures Next(s, a).status.Keys == s.status.Keys
    ensures InSystem(Next(s, a).status)
         == if a.DropTwo? then InSystem(s.status) - {s.At(a.tid).n} else InSystem(s.status)
  {
    hide Inv, InSystem, Plus;
    ActsOnMember(s, a);
    var n := s.At(a.tid).n;
    match a
    case DropTwo(_) => InSystemMarks(s.status, n, Out);
    case SetRefs(tid) => InSystemMarks(s.status, n, Offered(tid));
    case Push(_) => InSystemMarks(s.status, n, Listed);
    case Retreat(tid) => InSystemMarks(s.status, n, if s.refs[n] == 1 then Readying(tid) else Waiting);
  }

  /** A node enters the system by being added and leaves it by being handed to the caller that took it. */
  lemma MembershipMoves(s: State, a: Act)
    requires Inv(s) && Enabled(s, a)
    ensures Next(s, a).status.Keys == s.status.Keys
    ensures InSystem(Next(s, a).status)
         == if a.Add? then InSystem(s.status) + {a.n}
            else if a.DropTwo? then InSystem(s.status) - {s.At(a.tid).n} else InSystem(s.status)
  {
    hide Linked, Ties, InSystem, Plus;
    match a
    case LoadHead(_) | LoadRefs(_) | AddRef(_) | LoadNext(_) | AddLoadHead(_) | SetNext(_) =>
    case Add(_, n) => InSystemMarks(s.status, n, if s.refs[n] == 0 then Readying(a.tid) else Waiting);
    case TakeHead(tid) => TakeHeadKeepsMembers(s, tid);
    case DropOne(_) => DropOneKeepsMembers(s, a);
    case DropTwo(_) | SetRefs(_) | Push(_) | Retreat(_) => MarksMoveMembers(s, a);
  }

  lemma KeepsInv(s: State, a: Act)
    requires Inv(s) && Enabled(s, a)
    ensures Inv(Next(s, a))
  {
    hide Next, Enabled, Ties, Linked, InSystem;
    KeepsLedger(s, a);
    match a
    case LoadHead(_) | LoadRefs(_) | LoadNext(_) | AddLoadHead(_) =>
      LoadKeepsTied(s, a);
      LoadLinked(s, a);
    case AddRef(tid) =>
      AddRefKeepsTied(s, tid);
      LoadLinked(s, a);
    case TakeHead(tid) =>
      TakeHeadKeepsTied(s, tid);
      TakeHeadLinked(s, tid);
    case DropTwo(tid) =>
      DropTwoKeepsTied(s, tid);
      DropTwoLinked(s, tid);
    case DropOne(tid) =>
      DropOneKeepsTied(s, tid);
      DropOneLinked(s, a);
    case Add(tid, n) =>
      AddKeepsTied(s, tid, n);
      AddLinked(s, a);
    case SetNext(tid) =>
      SetNextKeepsTied(s, tid);
      SetNextLinked(s, tid);
    case SetRefs(tid) =>
      SetRefsKeepsTied(s, tid);
      SetRefsLinked(s, tid);
    case Push(tid) =>
      PushKeepsTied(s, tid);
      PushLinked(s, tid);
    case Retreat(tid) =>
      RetreatKeepsTied(s, tid);
      RetreatLinked(s, tid);
  }

  // ---------- Runs ----------

  /** The empty list, with every node of the pool in somebody's hands. */
  ghost predicate Start(s: State) {
    && s.head.Null? && s.list == [] && s.at == map[] && s.added == s.taken == 0
    && s.next.Keys == s.refs.Keys == s.status.Keys
    && (forall n | n in s.status :: s.status[n].Out? && s.refs[n] == 0 && s.next[n].Null?)
  }

  ghost function After(s: State, acts: seq<Act>): State
    requires Runs(s, acts)
    decreases |acts|, 2
  {
    if acts == [] then s else Next(After(s, acts[..|acts| - 1]), acts[|acts| - 1])
  }

  ghost predicate Runs(s: State, acts: seq<Act>)
    decreases |acts|, 1
  {
    acts == [] || (Runs(s, acts[..|acts| - 1]) && Enabled(After(s, acts[..|acts| - 1]), acts[|acts| - 1]))
  }

  lemma StartSatisfiesInv(s: State)
    requires Start(s)
    ensures Inv(s)
  {
    assert InSystem(s.status) == {};
    assert forall n :: Holders(s.at, n) == {};
  }

  lemma {:induction false} EveryRunKeepsInv(s: State, acts: seq<Act>)
    requires Start(s) && Runs(s, acts)
    ensures Inv(After(s, acts))
    decreases |acts|
  {
    hide Inv, Next, Enabled;
    if acts == [] {
      StartSatisfiesInv(s);
    } else {
      EveryRunKeepsInv(s, acts[..|acts| - 1]);
      KeepsInv(After(s, acts[..|acts| - 1]), acts[|acts| - 1]);
    }
  }

  /** In every interleaving, the links from the head visit each listed node once and end. */
  lemma NodesAreListedOnce(s: State, acts: seq<Act>, i: nat, j: nat)
    requires Start(s) && Runs(s, acts) && i < j < |After(s, acts).list|
    ensures var r := After(s, acts);
            && r.list[i] != r.list[j]
            && r.head == To(r.list[0]) && r.list[i] in r.next && r.list[j] in r.next
            && r.next[r.list[i]] == To(r.list[i + 1])
            && r.next[r.list[j]] == if j + 1 < |r.list| then To(r.list[j + 1]) else Null
  {
    EveryRunKeepsInv(s, acts);
    hide Ties, InSystem;
  }

  /**
   * No ABA: when the compare-and-swap of try_get succeeds, however long ago the next link was read, it installs
   * the present successor of the node it removes, and that node's should-be-on-freelist flag is clear.
   */
  lemma PopInstallsTheSuccessor(s: State, acts: seq<Act>, tid: nat)
    requires Start(s) && Runs(s, acts) && Enabled(After(s, acts), TakeHead(tid))
    requires After(s, acts).head == To(After(s, acts).At(tid).n)
    ensures var r := After(s, acts);
            var r' := Next(r, TakeHead(tid));
            && r.list != [] && r.list[0] == r.At(tid).n
            && r'.head == r.next[r.At(tid).n] == LinkAt(r.list, 1) && r'.list == r.list[1..]
            && r'.refs[r.At(tid).n] < FLAG
  {
    EveryRunKeepsInv(s, acts);
    var r := After(s, acts);
    TakeHeadTakesTheFirst(r, tid);
    CountedAs(r, r.At(tid).n);
    hide Ties, Linked, InSystem, Holders;
  }

  /** The assertion after the swap holds until the thread lets go: nobody sets the flag of a node being taken. */
  lemma FlagStaysClear(s: State, acts: seq<Act>, tid: nat)
    requires Start(s) && Runs(s, acts) && After(s, acts).At(tid).Popped?
    ensures var r := After(s, acts);
            var n := r.At(tid).n;
            n in r.refs && 2 <= r.refs[n] < FLAG
  {
    EveryRunKeepsInv(s, acts);
    var r := After(s, acts);
    var n := r.At(tid).n;
    FitsHere(r, tid);
    CountedAs(r, n);
    HoldersMove(r.at, tid, Idle, n);
  }

  /** A node on its way out is in one thread's hands only, and is not on the list. */
  lemma NoNodeGoesToTwo(s: State, acts: seq<Act>, i: nat, j: nat)
    requires Start(s) && Runs(s, acts) && After(s, acts).At(i).Popped? && After(s, acts).At(j).Popped?
    requires After(s, acts).At(i).n == After(s, acts).At(j).n
    ensures i == j && After(s, acts).At(i).n !in After(s, acts).list
  {
    EveryRunKeepsInv(s, acts);
    var r := After(s, acts);
    FitsHere(r, i);
    FitsHere(r, j);
    hide Ties, InSystem, Shape;
  }

  /** A caller that got a node is the only one to have it: it is off the list, and no thread is adding it. */
  lemma TakenNodesAreOut(s: State, acts: seq<Act>, tid: nat)
    requires Start(s) && Runs(s, acts) && Enabled(After(s, acts), DropTwo(tid))
    ensures var r := Next(After(s, acts), DropTwo(tid));
            var n := After(s, acts).At(tid).n;
            && r.status[n] == Out && n !in r.list && r.refs[n] < FLAG
            && (forall i | i in r.at :: !Plays(r.at[i], n))
            && (forall i | i in r.at && r.at[i].Pushing? :: r.at[i].n != n)
  {
    hide Inv, Start, Runs, After, Next;
    EveryRunKeepsInv(s, acts);
    var q := After(s, acts);
    KeepsInv(q, DropTwo(tid));
    DroppedIsOut(q, tid);
    NobodyPlays(Next(q, DropTwo(tid)), q.At(tid).n);
  }

  lemma DroppedIsOut(q: State, tid: nat)
    requires Inv(q) && Enabled(q, DropTwo(tid))
    ensures var r, n := Next(q, DropTwo(tid)), q.At(tid).n; n in r.status && r.status[n] == Out
  {
    hide Inv;
  }

  lemma NobodyPlays(r: State, n: nat)
    requires Inv(r) && n in r.status && r.status[n] == Out
    ensures n in r.refs && n !in r.list && r.refs[n] < FLAG
    ensures forall i | i in r.at :: !Plays(r.at[i], n)
    ensures forall i | i in r.at && r.at[i].Pushing? :: r.at[i].n != n
  {
    CountedAs(r, n);
    hide Ties, Shape, Holders, InSystem;
    forall i | i in r.at
      ensures !Plays(r.at[i], n)
    {
      FitsHere(r, i);
    }
  }

  /** With every thread idle the list holds exactly the nodes added and not taken: none is lost. */
  lemma QuiescentListHoldsTheDifference(s: State, acts: seq<Act>)
    requires Start(s) && Runs(s, acts) && forall i | i in After(s, acts).at :: After(s, acts).at[i].Idle?
    ensures var r := After(s, acts);
            && |r.list| == r.added - r.taken
            && (forall n | n in r.status :: n in r.list <==> !r.status[n].Out?)
            && (forall n | n in r.list :: n in r.refs && r.refs[n] == 1)
  {
    hide Start, Runs, After;
    EveryRunKeepsInv(s, acts);
    var r := After(s, acts);
    forall n | n in r.status
      ensures n in r.list <==> !r.status[n].Out?
      ensures n in r.list ==> n in r.refs && r.refs[n] == 1
    {
      NobodyHolds(r, n);
    }
    hide Ties;
    assert InSystem(r.status) == Members(r.list);
    DistinctLength(r.list);
  }

  lemma NobodyHolds(r: State, n: nat)
    requires Inv(r) && n in r.status && forall i | i in r.at :: r.at[i].Idle?
    ensures n in r.list <==> !r.status[n].Out?
    ensures n in r.list ==> n in r.refs && r.refs[n] == 1
  {
    hide Balanced, Places;
    assert Holders(r.at, n) == {};
    CountedAs(r, n);
  }

  function Members(list: seq<nat>): set<nat> {
    set n | n in list
  }

  lemma {:induction false} DistinctLength(list: seq<nat>)
    requires forall i, j | 0 <= i < j < |list| :: list[i] != list[j]
    ensures |Members(list)| == |list|
  {
    if list != [] {
      var last := |list| - 1;
      DistinctLength(list[..last]);
      assert Members(list) == Members(list[..last]) + {list[last]} && list[last] !in Members(list[..last]);
    }
  }

  // ---------- A call that runs alone ----------

  /** The steps of a try_get that finds a node and is not interfered with. */
  function TryGet(tid: nat): seq<Act> {
    [LoadHead(tid), LoadRefs(tid), AddRef(tid), LoadNext(tid)] + [TakeHead(tid), DropTwo(tid)]
  }

  /** The steps that put a node nobody holds on the list, when nobody interferes. */
  function PutOnList(tid: nat): seq<Act> {
    [AddLoadHead(tid), SetNext(tid), SetRefs(tid), Push(tid)]
  }

  ghost predicate RunsTo(s: State, acts: seq<Act>, r: State) {
    Runs(s, acts) && After(s, acts) == r
  }

  lemma RunsOn(s: State, acts: seq<Act>, q: State, a: Act)
    requires RunsTo(s, acts, q) && Enabled(q, a)
    ensures RunsTo(s, acts + [a], Next(q, a))
  {
    hide Next, Enabled;
    assert (acts + [a])[..|acts|] == acts;
  }

  lemma RunsOne(s: State, a: Act)
    requires Enabled(s, a)
    ensures RunsTo(s, [a], Next(s, a))
  {
    hide Next, Enabled;
    RunsOn(s, [], s, a);
    assert [] + [a] == [a];
  }

  lemma {:induction false} RunsChain(s: State, acts: seq<Act>, q: State, more: seq<Act>, r: State)
    requires RunsTo(s, acts, q) && RunsTo(q, more, r)
    ensures RunsTo(s, acts + more, r)
    decreases |more|
  {
    hide Next, Enabled;
    if more == [] {
      assert acts + more == acts;
    } else {
      var n := |more| - 1;
      RunsChain(s, acts, q, more[..n], After(q, more[..n]));
      RunsOn(s, acts + more[..n], After(q, more[..n]), more[n]);
      assert acts + more == acts + more[..n] + [more[n]];
    }
  }

  lemma RunsTwo(s: State, a: Act, q: State, b: Act, r: State)
    requires Enabled(s, a) && Next(s, a) == q && Enabled(q, b) && Next(q, b) == r
    ensures RunsTo(s, [a, b], r)
  {
    hide Next, Enabled, RunsTo;
    RunsOne(s, a);
    RunsOn(s, [a], q, b);
    assert [a] + [b] == [a, b];
  }

  lemma MovesOverwrite(s: State, tid: nat, p: Place, q: Place)
    ensures s.Move(tid, p).Move(tid, q) == s.Move(tid, q)
  {
    assert s.at[tid := p][tid := q] == s.at[tid := q];
  }

  /** The head node is counted, unflagged, and linked to the node behind it. */
  lemma HeadIsListed(s: State)
    requires Inv(s) && s.list != []
    ensures var n := s.list[0];
            && s.head == To(n) && Known(s, n) && s.next[n] == LinkAt(s.list, 1)
            && 0 < s.refs[n] < FLAG - 1
  {
    hide Attended, Places, Responsible, Holders, InSystem;
    assert s.list[0] in s.list;
    CountedAs(s, s.list[0]);
  }

  /** The first four steps find the head and reference it. */
  lemma LoneLook(s: State, tid: nat, n: nat)
    requires tid < MAX_THREADS && (s.At(tid).Idle? || s.At(tid).Again?)
    requires s.head == To(n) && Known(s, n) && 0 < s.refs[n] < FLAG - 1
    ensures RunsTo(s, [LoadHead(tid), LoadRefs(tid), AddRef(tid), LoadNext(tid)],
                   s.Move(tid, GotNext(n, s.next[n])).(refs := s.refs[n := s.refs[n] + 1]))
  {
    var counted := s.(refs := s.refs[n := s.refs[n] + 1]);
    var s1, s2 := s.Move(tid, GotHead(n)), s.Move(tid, GotRefs(n, s.refs[n]));
    var s3, s4 := counted.Move(tid, Held(n)), counted.Move(tid, GotNext(n, s.next[n]));
    MovesOverwrite(s, tid, GotHead(n), GotRefs(n, s.refs[n]));
    MovesOverwrite(counted, tid, GotRefs(n, s.refs[n]), Held(n));
    MovesOverwrite(counted, tid, Held(n), GotNext(n, s.next[n]));
    RunsTwo(s, LoadHead(tid), s1, LoadRefs(tid), s2);
    RunsTwo(s2, AddRef(tid), s3, LoadNext(tid), s4);
    hide *;
    RunsChain(s, [LoadHead(tid), LoadRefs(tid)], s2, [AddRef(tid), LoadNext(tid)], s4);
    assert [LoadHead(tid), LoadRefs(tid)] + [AddRef(tid), LoadNext(tid)]
        == [LoadHead(tid), LoadRefs(tid), AddRef(tid), LoadNext(tid)];
  }

  /** The last two take it off and let go of it. */
  lemma LoneTake(s: State, tid: nat, n: nat)
    requires tid < MAX_THREADS && s.At(tid).GotNext? && s.At(tid).n == n && s.list != []
    requires s.head == To(n) && Known(s, n) && 2 <= s.refs[n] < FLAG
    ensures RunsTo(s, [TakeHead(tid), DropTwo(tid)],
                   s.Move(tid, Idle).Mark(n, Out).(
                     refs := s.refs[n := s.refs[n] - 2], head := s.At(tid).next, list := s.list[1..], taken := s.taken + 1))
  {
    var off := s.(head := s.At(tid).next, list := s.list[1..]);
    var s1 := off.Move(tid, Popped(n)).Mark(n, Taken(tid));
    MovesOverwrite(off, tid, Popped(n), Idle);
    assert s.status[n := Taken(tid)][n := Out] == s.status[n := Out];
    RunsTwo(s, TakeHead(tid), s1, DropTwo(tid), Next(s1, DropTwo(tid)));
  }

  /** What a try_get leaves that took the head. */
  function HeadTaken(s: State, tid: nat, n: nat): State
    requires Known(s, n) && s.refs[n] > 0 && s.list != []
  {
    s.Move(tid, Idle).Mark(n, Out).(
      refs := s.refs[n := s.refs[n] - 1], head := s.next[n], list := s.list[1..], taken := s.taken + 1)
  }

  lemma LoneTryGet(s: State, tid: nat, n: nat)
    requires tid < MAX_THREADS && (s.At(tid).Idle? || s.At(tid).Again?)
    requires s.head == To(n) && Known(s, n) && 0 < s.refs[n] < FLAG - 1 && s.list != []
    ensures RunsTo(s, TryGet(tid), HeadTaken(s, tid, n))
  {
    hide RunsTo;
    var p, counted := GotNext(n, s.next[n]), s.(refs := s.refs[n := s.refs[n] + 1]);
    var q := counted.Move(tid, p);
    LoneLook(s, tid, n);
    LoneTake(q, tid, n);
    MovesOverwrite(s, tid, p, Idle);
    assert s.refs[n := s.refs[n] + 1][n := s.refs[n] - 1] == s.refs[n := s.refs[n] - 1];
    RunsChain(s, [LoadHead(tid), LoadRefs(tid), AddRef(tid), LoadNext(tid)], q, [TakeHead(tid), DropTwo(tid)],
              HeadTaken(s, tid, n));
  }

  lemma EmptyListIsNull(s: State)
    requires Inv(s)
    ensures s.head.Null? <==> s.list == []
  {
    hide Ties, InSystem;
  }

  /**
   * From any state the threads can reach, a try_get that runs alone from there returns null if and only if the list is
   * empty. Otherwise it takes the head: the list is left with its tail, and the node is out.
   */
  lemma LoneTryGetTakesTheHead(start: State, acts: seq<Act>, tid: nat)
    requires Start(start) && Runs(start, acts) && tid < MAX_THREADS
    requires After(start, acts).At(tid).Idle? || After(start, acts).At(tid).Again?
    ensures var s := After(start, acts);
            && Enabled(s, LoadHead(tid)) && (Next(s, LoadHead(tid)).At(tid).Idle? <==> s.list == [])
            && (s.list == [] ==> Next(s, LoadHead(tid)) == s.Move(tid, Idle))
            && (s.list != [] ==>
                  && Runs(s, TryGet(tid))
                  && var r, n := After(s, TryGet(tid)), s.list[0];
                  && n in s.refs && s.refs[n] > 0
                  && r.head == LinkAt(s.list, 1) && r.list == s.list[1..] && r.taken == s.taken + 1 && r.added == s.added
                  && r.at == s.at[tid := Idle] && r.status == s.status[n := Out] && r.next == s.next
                  && r.refs == s.refs[n := s.refs[n] - 1])
  {
    hide Start, Runs, After, Inv;
    EveryRunKeepsInv(start, acts);
    var s := After(start, acts);
    EmptyListIsNull(s);
    if s.list != [] {
      HeadIsListed(s);
      LoneTryGet(s, tid, s.list[0]);
    }
  }

  lemma StatesOverwrite(s: State, n: nat, a: Status, b: Status)
    ensures s.Mark(n, a).Mark(n, b) == s.Mark(n, b)
  {
    assert s.status[n := a][n := b] == s.status[n := b];
  }

  /** What putting a node on the list leaves. */
  function PutOn(s: State, tid: nat, n: nat, back: Back): State {
    s.Move(tid, Resumed(back)).Mark(n, Listed).(
      next := s.next[n := s.head], refs := s.refs[n := 1], head := To(n), list := [n] + s.list)
  }

  /** The node is linked to the head in front of it. */
  lemma LoneSetNext(s: State, tid: nat, n: nat, back: Back)
    requires tid < MAX_THREADS && s.At(tid) == Adding(n, back) && Known(s, n)
    ensures RunsTo(s, [AddLoadHead(tid), SetNext(tid)],
                   s.Move(tid, Counting(n, s.head, back)).(next := s.next[n := s.head]))
  {
    hide RunsTo;
    var linked, s1 := s.(next := s.next[n := s.head]), s.Move(tid, Linking(n, s.head, back));
    MovesOverwrite(linked, tid, Linking(n, s.head, back), Counting(n, s.head, back));
    RunsTwo(s, AddLoadHead(tid), s1, SetNext(tid), linked.Move(tid, Counting(n, s.head, back)));
  }

  /** It is given the list's reference and becomes the head. */
  lemma LonePush(s: State, tid: nat, n: nat, back: Back)
    requires tid < MAX_THREADS && s.At(tid) == Counting(n, s.head, back) && Known(s, n)
    ensures RunsTo(s, [SetRefs(tid), Push(tid)],
                   s.Move(tid, Resumed(back)).Mark(n, Listed).(
                     refs := s.refs[n := 1], head := To(n), list := [n] + s.list))
  {
    hide RunsTo;
    var counted := s.Mark(n, Offered(tid)).(refs := s.refs[n := 1]);
    var s1 := counted.Move(tid, Pushing(n, s.head, back));
    MovesOverwrite(counted, tid, Pushing(n, s.head, back), Resumed(back));
    StatesOverwrite(s, n, Offered(tid), Listed);
    RunsTwo(s, SetRefs(tid), s1, Push(tid), Next(s1, Push(tid)));
  }

  lemma LonePut(s: State, tid: nat, n: nat, back: Back)
    requires tid < MAX_THREADS && s.At(tid) == Adding(n, back) && Known(s, n)
    ensures RunsTo(s, PutOnList(tid), PutOn(s, tid, n, back))
  {
    hide RunsTo, Next;
    var linked := s.(next := s.next[n := s.head]);
    var s2 := linked.Move(tid, Counting(n, s.head, back));
    LoneSetNext(s, tid, n, back);
    LonePush(s2, tid, n, back);
    MovesOverwrite(linked, tid, Counting(n, s.head, back), Resumed(back));
    hide *;
    RunsChain(s, [AddLoadHead(tid), SetNext(tid)], s2, [SetRefs(tid), Push(tid)], PutOn(s, tid, n, back));
    assert [AddLoadHead(tid), SetNext(tid)] + [SetRefs(tid), Push(tid)]
        == [AddLoadHead(tid), SetNext(tid), SetRefs(tid), Push(tid)];
  }

  lemma LoneAdd(s: State, tid: nat, n: nat)
    requires Enabled(s, Add(tid, n)) && s.refs[n] == 0
    ensures RunsTo(s, [Add(tid, n)] + PutOnList(tid), PutOn(s.(added := s.added + 1), tid, n, Return))
  {
    hide RunsTo;
    var s1 := Next(s, Add(tid, n));
    RunsOne(s, Add(tid, n));
    LonePut(s1, tid, n, Return);
    MovesOverwrite(s, tid, Adding(n, Return), Idle);
    StatesOverwrite(s, n, Readying(tid), Listed);
    assert s.refs[n := FLAG][n := 1] == s.refs[n := 1];
    RunsChain(s, [Add(tid, n)], s1, PutOnList(tid), PutOn(s1, tid, n, Return));
  }

  /**
   * From any state the threads can reach, an add that runs alone from there makes the node the head if and only if
   * nobody is still counted on it; otherwise it leaves the list as it was, and the node waits.
   */
  lemma LoneAddPutsOnTheList(start: State, acts: seq<Act>, tid: nat, n: nat)
    requires Start(start) && Runs(start, acts) && Enabled(After(start, acts), Add(tid, n))
    ensures var s := After(start, acts);
            var alone := Next(s, Add(tid, n));
            && s.refs[n] == |Holders(s.at, n)| && n !in s.list
            && (alone.At(tid).Idle? <==> Holders(s.at, n) != {})
            && (Holders(s.at, n) != {} ==>
                  && alone.list == s.list && alone.head == s.head && alone.next == s.next
                  && alone.status == s.status[n := Waiting] && alone.at == s.at[tid := Idle])
            && (Holders(s.at, n) == {} ==>
                  && Runs(s, [Add(tid, n)] + PutOnList(tid))
                  && var r := After(s, [Add(tid, n)] + PutOnList(tid));
                  && r.head == To(n) && r.list == [n] + s.list && r.added == s.added + 1 && r.taken == s.taken
                  && r.at == s.at[tid := Idle] && r.status == s.status[n := Listed]
                  && r.next == s.next[n := s.head] && r.refs == s.refs[n := 1])
  {
    hide Start, Runs, After, Inv, Holders;
    EveryRunKeepsInv(start, acts);
    var s := After(start, acts);
    OutIsUnlisted(s, n);
    if s.refs[n] == 0 {
      LoneAdd(s, tid, n);
    }
  }

  lemma OutIsUnlisted(s: State, n: nat)
    requires Inv(s) && n in s.status && s.status[n].Out?
    ensures n in s.refs && s.refs[n] == |Holders(s.at, n)| && n !in s.list
  {
    hide Attended, Places, Responsible, Holders, InSystem, Shape;
    CountedAs(s, n);
  }

  /**
   * Nor is a waiting node forgotten: the last of those counted on it, letting go and then running alone, puts it on the
   * list before it goes on with its own try_get.
   */
  lemma LastHolderAddsTheNode(start: State, acts: seq<Act>, tid: nat)
    requires Start(start) && Runs(start, acts) && Enabled(After(start, acts), DropOne(tid))
    ensures var s := After(start, acts);
            var n, seen := s.At(tid).n, s.At(tid).seen;
            && tid in Holders(s.at, n)
            && (Next(s, DropOne(tid)).At(tid).Adding? <==> s.status[n].Waiting? && Holders(s.at, n) == {tid})
            && (!Next(s, DropOne(tid)).At(tid).Adding? ==> Next(s, DropOne(tid)).At(tid) == Looking(seen))
            && (s.status[n].Waiting? && Holders(s.at, n) == {tid} ==>
                  && Runs(s, [DropOne(tid)] + PutOnList(tid))
                  && var r := After(s, [DropOne(tid)] + PutOnList(tid));
                  && r.head == To(n) && r.list == [n] + s.list
                  && r.at == s.at[tid := Looking(seen)] && r.status == s.status[n := Listed]
                  && r.next == s.next[n := s.head] && r.refs == s.refs[n := 1])
  {
    hide Start, Runs, After, Inv, Holders;
    EveryRunKeepsInv(start, acts);
    var s := After(start, acts);
    LastHolder(s, tid);
    if s.refs[s.At(tid).n] == FLAG + 1 {
      LoneRelease(s, tid);
    }
  }

  lemma LastHolder(s: State, tid: nat)
    requires Inv(s) && Enabled(s, DropOne(tid))
    ensures var n := s.At(tid).n;
            && tid in Holders(s.at, n)
            && (s.refs[n] == FLAG + 1 <==> s.status[n].Waiting? && Holders(s.at, n) == {tid})
  {
    var n := s.At(tid).n;
    FitsHere(s, tid);
    CountedAs(s, n);
    HoldersMove(s.at, tid, Idle, n);
    if s.status[n].Readying? {
      ReadyingIsUnheld(s, n);
    }
    hide Ties, Linked, InSystem, Holders;
    if |Holders(s.at, n)| == 1 {
      SingleMember(Holders(s.at, n), tid);
    }
  }

  lemma SingleMember(m: set<nat>, x: nat)
    requires x in m && |m| == 1
    ensures m == {x}
  {
    assert |m - {x}| == 0;
  }

  lemma LoneRelease(s: State, tid: nat)
    requires Enabled(s, DropOne(tid)) && s.refs[s.At(tid).n] == FLAG + 1
    ensures RunsTo(s, [DropOne(tid)] + PutOnList(tid), PutOn(s, tid, s.At(tid).n, Resume(s.At(tid).seen)))
  {
    hide RunsTo;
    var n, back := s.At(tid).n, Resume(s.At(tid).seen);
    var s1 := Next(s, DropOne(tid));
    RunsOne(s, DropOne(tid));
    LonePut(s1, tid, n, back);
    MovesOverwrite(s, tid, Adding(n, back), Resumed(back));
    StatesOverwrite(s, n, Readying(tid), Listed);
    assert s.refs[n := FLAG][n := 1] == s.refs[n := 1];
    RunsChain(s, [DropOne(tid)], s1, PutOnList(tid), PutOn(s1, tid, n, back));
  }

  // ---------- null under contention ----------

  /** The thread has seen the head null and is to return null once it has let go of what it holds. */
  predicate SawNull(p: Place) {
    || (p.Losing? && p.seen.Null?)
    || ((p.Adding? || p.Linking? || p.Counting? || p.Pushing? || p.Retreating?) && p.back == Resume(Null))
  }

  /** The step ends a try_get of its thread without a node. */
  ghost predicate ReturnsNull(s: State, a: Act)
    requires Enabled(s, a)
  {
    && Next(s, a).At(a.tid).Idle?
    && (a.LoadHead? || a.DropOne? || ((a.Push? || a.Retreat?) && s.At(a.tid).back.Resume?))
  }

  /** At step i the thread read the head while the list was empty, and it has been in the same call since. */
  ghost predicate EmptyAt(s: State, acts: seq<Act>, tid: nat, i: nat)
    requires Runs(s, acts)
  {
    && i < |acts| && acts[i].tid == tid && (acts[i].LoadHead? || acts[i].TakeHead?)
    && Runs(s, acts[..i]) && After(s, acts[..i]).list == []
    && forall j | i < j < |acts| :: Runs(s, acts[..j]) && !After(s, acts[..j]).At(tid).Idle?
  }

  lemma SawNullStep(s: State, a: Act, tid: nat)
    requires Enabled(s, a) && SawNull(Next(s, a).At(tid))
    ensures SawNull(s.At(tid)) || (a == TakeHead(tid) && s.head.Null?)
  {
  }

  lemma ReturnsNullStep(s: State, a: Act)
    requires Enabled(s, a) && ReturnsNull(s, a)
    ensures SawNull(s.At(a.tid)) || (a.LoadHead? && s.head.Null?)
  {
  }

  lemma EmptyBefore(s: State, acts: seq<Act>, tid: nat, i: nat)
    requires Runs(s, acts) && acts != []
    requires Runs(s, acts[..|acts| - 1]) && !After(s, acts[..|acts| - 1]).At(tid).Idle?
    requires EmptyAt(s, acts[..|acts| - 1], tid, i)
    ensures EmptyAt(s, acts, tid, i)
  {
    hide Runs, After;
    var before := acts[..|acts| - 1];
    assert before[..i] == acts[..i] && before[i] == acts[i];
    forall j | i < j < |acts|
      ensures Runs(s, acts[..j]) && !After(s, acts[..j]).At(tid).Idle?
    {
      if j < |before| {
        assert before[..j] == acts[..j];
      }
    }
  }

  lemma {:induction false} SawNullWhenEmpty(s: State, acts: seq<Act>, tid: nat) returns (i: nat)
    requires Start(s) && Runs(s, acts) && SawNull(After(s, acts).At(tid))
    ensures EmptyAt(s, acts, tid, i)
    decreases |acts|
  {
    hide Next, Enabled, Inv, EmptyAt;
    if acts == [] {
      assert false;
    } else {
      var n := |acts| - 1;
      var q := After(s, acts[..n]);
      SawNullStep(q, acts[n], tid);
      if SawNull(q.At(tid)) {
        i := SawNullWhenEmpty(s, acts[..n], tid);
        EmptyBefore(s, acts, tid, i);
      } else {
        i := n;
        EmptyNow(s, acts);
      }
    }
  }

  lemma EmptyNow(s: State, acts: seq<Act>)
    requires Start(s) && Runs(s, acts) && acts != [] && (acts[|acts| - 1].LoadHead? || acts[|acts| - 1].TakeHead?)
    requires After(s, acts[..|acts| - 1]).head.Null?
    ensures EmptyAt(s, acts, acts[|acts| - 1].tid, |acts| - 1)
  {
    hide Next, Enabled, Inv, Start;
    EveryRunKeepsInv(s, acts[..|acts| - 1]);
    EmptyListIsNull(After(s, acts[..|acts| - 1]));
  }

  /**
   * Under contention too, a try_get returns null only if the list was empty at a moment within that very call: when
   * the thread read the head, or when its swap failed and reloaded it.
   */
  lemma NullOnlyIfEmpty(s: State, acts: seq<Act>) returns (i: nat)
    requires Start(s) && Runs(s, acts) && acts != []
    requires ReturnsNull(After(s, acts[..|acts| - 1]), acts[|acts| - 1])
    ensures EmptyAt(s, acts, acts[|acts| - 1].tid, i)
  {
    hide Next, Enabled, Inv, EmptyAt, ReturnsNull;
    var n := |acts| - 1;
    var q := After(s, acts[..n]);
    ReturnsNullStep(q, acts[n]);
    if SawNull(q.At(acts[n].tid)) {
      i := SawNullWhenEmpty(s, acts[..n], acts[n].tid);
      EmptyBefore(s, acts, acts[n].tid, i);
    } else {
      i := n;
      EmptyNow(s, acts);
    }
  }
}
