/** What the block machine guarantees in every interleaving. */
module BlockIndexTheorems {
  import opened BlockIndex
  import opened BlockIndexSafety

  lemma ProducerKeeps<T>(s: State<T>, a: Act<T>)
    requires Inv(s) && Enabled(s, a)
    requires a.Probe? || a.NewIndex? || a.StoreKey? || a.StoreTail? || a.LoadPool? || a.FetchPool? || a.TryFreeList?
             || a.Create? || a.Rewind? || a.ClearValue? || a.Fill? || a.Expose? || a.Publish?
    ensures Inv(NextOfProducer(s, a))
  {
    hide Inv, NextOfProducer;
    match a
    case Probe => ProbeKeeps(s);
    case NewIndex(ok, junk) =>
      if ok {
        NewIndexKeeps(s, junk);
      } else {
        LookForBlockKeeps(s, a);
      }
    case StoreKey => StoreKeyKeeps(s);
    case StoreTail | Rewind => StoreTailKeeps(s, a);
    case LoadPool => LookForBlockKeeps(s, a);
    case FetchPool => RequisitionKeeps(s, a);
    case TryFreeList(got) =>
      if got.Block? {
        RequisitionKeeps(s, a);
      } else {
        LookForBlockKeeps(s, a);
      }
    case Create(ok) =>
      if ok {
        RequisitionKeeps(s, a);
      } else {
        LookForBlockKeeps(s, a);
      }
    case ClearValue => ClearValueKeeps(s);
    case Fill(x) =>
      if s.producer.Got? {
        FillNewBlockKeeps(s, x);
      } else {
        FillTailBlockKeeps(s, x);
      }
    case Expose => ExposeKeeps(s);
    case Publish => PublishKeeps(s);
  }

  lemma ConsumerKeeps<T>(s: State<T>, a: Act<T>)
    requires Inv(s) && Enabled(s, a)
    requires a.Claim? || a.LoadIndex? || a.LoadSlot? || a.LoadBase? || a.LoadValue? || a.MoveOut? || a.Count?
             || a.Forget? || a.Release?
    ensures Inv(NextOfConsumer(s, a))
  {
    hide Inv, NextOfConsumer;
    match a
    case Claim(tid) => ClaimKeeps(s, tid);
    case LoadIndex(tid) => LoadIndexKeeps(s, tid);
    case LoadSlot(tid) => LoadSlotKeeps(s, tid);
    case LoadBase(tid) => LoadBaseKeeps(s, tid);
    case LoadValue(tid) => LoadValueKeeps(s, tid);
    case MoveOut(tid) => MoveOutKeeps(s, tid);
    case Count(tid) => CountKeeps(s, tid);
    case Forget(tid) => ForgetKeeps(s, tid);
    case Release(tid) => ReleaseKeeps(s, tid);
  }

  lemma KeepsInv<T>(s: State<T>, a: Act<T>)
    requires Inv(s) && Enabled(s, a)
    ensures Inv(Next(s, a))
  {
    hide Inv, NextOfProducer, NextOfConsumer, NextOfOthers, Enabled;
    match a
    case Claim(_) | LoadIndex(_) | LoadSlot(_) | LoadBase(_) | LoadValue(_) | MoveOut(_) | Count(_) | Forget(_)
       | Release(_) => ConsumerKeeps(s, a);
    case OtherTakesPool | OtherTakesFree(_) | OtherCreates | OtherReleases(_) => OthersKeep(s, a);
    case Probe | NewIndex(_, _) | StoreKey | StoreTail | LoadPool | FetchPool | TryFreeList(_) | Create(_) | Rewind
       | ClearValue | Fill(_) | Expose | Publish => ProducerKeeps(s, a);
  }

  // ---------- Runs ----------

  /** A new producer: one index of INITIAL_CAPACITY invalid entries; the pool in any state, none of it this stream's. */
  ghost predicate Start<T>(s: State<T>) {
    && s.headers
       == [Header(INITIAL_CAPACITY, INITIAL_CAPACITY - 1, seq(INITIAL_CAPACITY, i requires i >= 0 => i), 0, -1)]
    && |s.entries| == INITIAL_CAPACITY && (forall i | 0 <= i < |s.entries| :: s.entries[i].key == INVALID_BLOCK_BASE)
    && s.tail == s.head == s.exposed == 0 && s.elems == [] && s.entryOf == []
    && s.producer.Between? && s.at == map[] && s.live == map[] && s.counted == {} && s.released == {}
    && Owned(s.owner, s.live, NoBlock, s.at, s.poolNext, s.poolSize, s.nextId)
  }

  ghost function After<T>(s: State<T>, acts: seq<Act<T>>): State<T>
    requires Runs(s, acts)
    decreases |acts|, 2
  {
    if acts == [] then s else Next(After(s, acts[..|acts| - 1]), acts[|acts| - 1])
  }

  ghost predicate Runs<T>(s: State<T>, acts: seq<Act<T>>)
    decreases |acts|, 1
  {
    acts == [] || (Runs(s, acts[..|acts| - 1]) && Enabled(After(s, acts[..|acts| - 1]), acts[|acts| - 1]))
  }

  lemma StartSatisfiesInv<T>(s: State<T>)
    requires Start(s)
    ensures Inv(s)
  {
    hide Owned;
    assert s.headers == [s.Last()];
    assert HeaderFits(s.Last(), s.entries);
  }

  lemma {:induction false} EveryRunKeepsInv<T>(s: State<T>, acts: seq<Act<T>>)
    requires Start(s) && Runs(s, acts)
    ensures Inv(After(s, acts))
    decreases |acts|
  {
    hide Inv, Next, Enabled;
    if acts == [] {
      StartSatisfiesInv(s);
    } else {
      EveryRunKeepsInv(s, acts[..|acts| - 1]);
      KeepsInv(After(s, acts[..|acts| - 1]), acts[|acts| - 1]);
    }
  }

  /** The look-up of index i by slot t and base: the entry it leads to has i's own key, and a block. */
  ghost predicate Finds<T>(r: State<T>, i: nat, h: nat, t: nat, base: nat) {
    && h < |r.headers| && Usable(r.headers[h], r.entries)
    && i / BLOCK_SIZE in r.live
    && var e := r.headers[h].index[FoundSlot(i, t, base, r.headers[h].capacity)];
       r.entries[e] == Entry(i - i % BLOCK_SIZE, Block(r.live[i / BLOCK_SIZE].b))
  }

  lemma LookupFinds<T>(r: State<T>, tid: nat)
    requires Inv(r) && r.At(tid).HasBase?
    ensures var q := r.At(tid); Finds(r, q.i, q.h, q.t, q.base)
  {
    hide Inv, FoundSlot, Slot;
    LookupSucceeds(r, tid);
  }

  /**
   * Every look-up of a claimed index that is not yet consumed finds an entry with the index's own key and a block,
   * whichever header and tail slot the consumer read, across wrap-around of the ring and doubling of the index.
   */
  lemma LookupsSucceed<T>(s: State<T>, acts: seq<Act<T>>, tid: nat)
    requires Start(s) && Runs(s, acts) && After(s, acts).At(tid).HasBase?
    ensures var q := After(s, acts).At(tid); Finds(After(s, acts), q.i, q.h, q.t, q.base)
  {
    EveryRunKeepsInv(s, acts);
    hide Inv, Runs, After, Start, Finds;
    LookupFinds(After(s, acts), tid);
  }

  /** What a consumer moves out of a block is the element enqueued at its index. */
  lemma ConsumersGetTheirElement<T>(s: State<T>, acts: seq<Act<T>>, tid: nat)
    requires Start(s) && Runs(s, acts) && After(s, acts).At(tid).Moved?
    ensures var r := After(s, acts);
            r.At(tid).i < |r.elems| && r.At(tid).x == r.elems[r.At(tid).i]
  {
    EveryRunKeepsInv(s, acts);
    ConsumerIs(After(s, acts), tid);
  }

  /**
   * A block leaves the index at most once, only after all BLOCK_SIZE of its elements have been moved out, with no
   * consumer left that could still look it up.
   */
  lemma BlocksAreReleasedOnce<T>(s: State<T>, acts: seq<Act<T>>, tid: nat)
    requires Start(s) && Runs(s, acts) && Enabled(After(s, acts), Forget(tid))
    ensures var r := After(s, acts);
            var j := r.At(tid).i / BLOCK_SIZE;
            && j !in r.released && j in Next(r, Forget(tid)).released
            && FullyCounted(r.counted, j)
            && (forall t | t in r.at && r.at[t].Holds() :: r.at[t].i / BLOCK_SIZE != j)
            && (forall t | t in r.at && r.at[t].WasLast? && r.at[t].i / BLOCK_SIZE == j :: t == tid)
  {
    EveryRunKeepsInv(s, acts);
    var r := After(s, acts);
    ForgetReleases(r, tid);
    hide Inv, Runs, After, Start, FullyCounted, Next, Enabled;
    assert r.At(tid).WasLast?;
    LastConsumer(r, tid);
    UsedUpIsLeftAlone(r, r.At(tid).i / BLOCK_SIZE);
  }

  lemma ForgetReleases<T>(r: State<T>, tid: nat)
    requires Enabled(r, Forget(tid))
    ensures r.At(tid).WasLast? && Next(r, Forget(tid)).released == r.released + {r.At(tid).i / BLOCK_SIZE}
  {
  }

  lemma UsedUpIsLeftAlone<T>(r: State<T>, j: nat)
    requires Inv(r) && FullyCounted(r.counted, j) && j in r.live
    ensures j !in r.released
    ensures forall t | t in r.at && r.at[t].Holds() :: r.at[t].i / BLOCK_SIZE != j
    ensures forall t, u | t in r.at && u in r.at && r.at[t].WasLast? && r.at[u].WasLast?
                          && r.at[t].i / BLOCK_SIZE == j && r.at[u].i / BLOCK_SIZE == j :: t == u
  {
    LiveAreExposed(r);
    hide Indexed, Produces, Counts, Owned, Stores, Slot, Attended, FullyCounted;
    forall t | t in r.at && r.at[t].Holds()
      ensures r.at[t].i / BLOCK_SIZE != j
    {
      ConsumerIs(r, t);
      if r.at[t].i / BLOCK_SIZE == j {
        CountedIsCounted(r.counted, r.at[t].i);
      }
    }
  }

  lemma CountedIsCounted(counted: set<nat>, i: nat)
    requires FullyCounted(counted, i / BLOCK_SIZE)
    ensures i in counted
  {
  }

  /** None is forgotten either: with no consumer at work, the index holds exactly the blocks not yet used up. */
  lemma QuiescentIndexHoldsTheUnconsumed<T>(s: State<T>, acts: seq<Act<T>>, j: nat)
    requires Start(s) && Runs(s, acts) && j < After(s, acts).exposed
    requires forall t | t in After(s, acts).at :: After(s, acts).at[t].Free?
    ensures var r := After(s, acts);
            (j in r.live <==> !FullyCounted(r.counted, j)) && (j in r.released <==> FullyCounted(r.counted, j))
  {
    EveryRunKeepsInv(s, acts);
    hide Indexed, Produces, Consumes, Exclusive, Counts, Owned, Stores, FullyCounted, Runs, After, Start;
  }

  // ---------- Who holds a block ----------

  ghost predicate InIndex<T>(s: State<T>, b: nat) {
    exists m :: m in s.live && s.live[m].b == b
  }

  ghost predicate InTransit<T>(s: State<T>, b: nat) {
    s.producer.Carried() == Block(b) || exists t :: t in s.at && s.at[t] == Releasing(b)
  }

  predicate InPool<T>(s: State<T>, b: nat) {
    s.poolNext <= b < s.poolSize
  }

  /**
   * Every block is in exactly one of five hands: the initial pool, the free list, this stream's index, a thread that
   * carries it between them, or the other producers and the allocator.
   */
  lemma EveryBlockHasOneHolder<T>(s: State<T>, acts: seq<Act<T>>, b: nat)
    requires Start(s) && Runs(s, acts) && b < After(s, acts).nextId
    ensures var r := After(s, acts);
            && b in r.owner
            && (InPool(r, b) <==> r.owner[b].Pool?)
            && (InIndex(r, b) <==> r.owner[b].Mine?)
            && (InTransit(r, b) <==> r.owner[b].InHand? || r.owner[b].Released?)
            && (r.owner[b].FreeList? ==> b < r.poolSize) && (r.owner[b].Destroyed? ==> b >= r.poolSize)
            && !(r.producer.Carried() == Block(b) && exists t :: t in r.at && r.at[t] == Releasing(b))
            && (forall t, u | t in r.at && u in r.at && r.at[t] == Releasing(b) && r.at[u] == Releasing(b) :: t == u)
            && (forall m, n | m in r.live && n in r.live && r.live[m].b == b && r.live[n].b == b :: m == n)
  {
    EveryRunKeepsInv(s, acts);
    hide Indexed, Produces, Consumes, Exclusive, Attended, Counts, Covers, Stores, Runs, After, Start, Producer.Carried;
  }

  /** The entry of every live block points at it, and no two entries point at one block. */
  lemma IndexEntriesAreDistinct<T>(s: State<T>, acts: seq<Act<T>>, j: nat, k: nat)
    requires Start(s) && Runs(s, acts) && j in After(s, acts).live && k in After(s, acts).live && j != k
    ensures var r := After(s, acts);
            && r.live[j].e != r.live[k].e && r.live[j].b != r.live[k].b
            && r.live[j].e < |r.entries| && r.entries[r.live[j].e] == Entry(BLOCK_SIZE * j, Block(r.live[j].b))
  {
    EveryRunKeepsInv(s, acts);
    hide HeadersFit, AllFrozen, Keyed, Produces, Consumes, Exclusive;
    hide Attended, Counts, Covers, Stores, Runs, After, Start;
  }

  /** The consumer's next step reads and writes things that exist. */
  ghost predicate InRange<T>(r: State<T>, q: Consumer<T>) {
    match q
    case Free | Releasing(_) => true
    case Claimed(_) => r.headers != []
    case HasIndex(_, h) => h < |r.headers|
    case HasSlot(_, h, t, _) => h < |r.headers| && Usable(r.headers[h], r.entries) && t < r.headers[h].capacity
    case HasBase(_, h, _, _, _) => h < |r.headers| && Usable(r.headers[h], r.entries)
    case HasBlock(i, _, b) => (b, i % BLOCK_SIZE) in r.cells
    case Moved(_, _, b, _) => b in r.gone
    case WasLast(_, e, _) => e < |r.entries|
  }

  lemma ConsumerInRange<T>(r: State<T>, tid: nat)
    requires Inv(r) && tid in r.at
    ensures InRange(r, r.at[tid])
  {
    hide AllFrozen, Keyed, Produces, Consumes, Exclusive, Attended, Covers, Owned, Stores, FullyCounted, CountedIn;
    ConsumerIs(r, tid);
    var q := r.at[tid];
    if q.HasBlock? {
      MoveOutFindsTheElement(r, tid);
    }
    assert q.HasSlot? || q.HasBase? ==> HeaderFits(r.headers[q.h], r.entries);
  }

  /** In every interleaving, no consumer ever reaches for a header, entry, cell or counter that is not there. */
  lemma NoStepIsOutOfRange<T>(s: State<T>, acts: seq<Act<T>>, tid: nat)
    requires Start(s) && Runs(s, acts) && tid in After(s, acts).at
    ensures InRange(After(s, acts), After(s, acts).at[tid])
  {
    EveryRunKeepsInv(s, acts);
    hide Inv, Runs, After, Start, InRange;
    ConsumerInRange(After(s, acts), tid);
  }

  lemma CountIsBelow(counted: set<nat>, i: nat)
    requires i !in counted
    ensures |CountedIn(counted, i / BLOCK_SIZE)| < BLOCK_SIZE
  {
    hide Indices;
    var j := i / BLOCK_SIZE;
    var all := Indices(BLOCK_SIZE * j, BLOCK_SIZE);
    assert i in all && CountedIn(counted, j) <= all - {i};
    SubsetIsSmaller(CountedIn(counted, j), all - {i});
  }

  /**
   * What the code asserts about one consumer: the key at the tail slot is a block's, and its block is not yet
   * used up.
   */
  ghost predicate AssertionsHold<T>(r: State<T>, q: Consumer<T>) {
    && (q.HasBase? ==> q.base != INVALID_BLOCK_BASE && q.base % BLOCK_SIZE == 0)
    && (q.Moved? ==> q.b in r.gone && r.gone[q.b] < BLOCK_SIZE)
  }

  lemma ConsumerAssertionsHold<T>(r: State<T>, tid: nat)
    requires Inv(r) && tid in r.at
    ensures AssertionsHold(r, r.at[tid])
  {
    hide Indexed, Produces, Consumes, Exclusive, Attended, Covers, Owned, Stores, FullyCounted, CountedIn, Slot;
    ConsumerIs(r, tid);
    if r.at[tid].Moved? {
      CountIsBelow(r.counted, r.at[tid].i);
    }
  }

  /**
   * The assertions of the dequeuing side, and the one an enqueue makes about head and tail, hold in every
   * interleaving.
   */
  lemma TheAssertionsHold<T>(s: State<T>, acts: seq<Act<T>>, tid: nat)
    requires Start(s) && Runs(s, acts)
    ensures After(s, acts).head <= After(s, acts).tail
    ensures tid in After(s, acts).at ==> AssertionsHold(After(s, acts), After(s, acts).at[tid])
  {
    EveryRunKeepsInv(s, acts);
    var r := After(s, acts);
    assert r.head <= r.tail by {
      hide Indexed, Produces, Consumes, Exclusive, Attended, Counts, Owned, Stores;
    }
    hide Inv, Runs, After, Start, AssertionsHold;
    if tid in r.at {
      ConsumerAssertionsHold(r, tid);
    }
  }
}
