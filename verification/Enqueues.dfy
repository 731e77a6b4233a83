/** What an enqueue does that nobody interferes with, at a block start and within a block (ImplicitProducer::enqueue). */
module Enqueues {
  import opened BlockIndex
  import opened BlockIndexSafety
  import opened BlockIndexTheorems

  /** Looking for an index entry and for a block: every producer step but those that write the element. */
  predicate Prepares<T>(a: Act<T>) {
    a.Probe? || a.NewIndex? || a.StoreKey? || a.StoreTail? || a.LoadPool? || a.FetchPool? || a.TryFreeList? || a.Create?
    || a.Rewind? || a.ClearValue?
  }

  /** Elements, indices, consumers and the blocks in use are the same. */
  ghost predicate SameQueue<T>(s: State<T>, r: State<T>) {
    && r.elems == s.elems && r.tail == s.tail && r.head == s.head && r.at == s.at && r.live == s.live
    && r.exposed == s.exposed && r.counted == s.counted && r.released == s.released && r.gone == s.gone
    && r.cells == s.cells && r.tailBlock == s.tailBlock
  }

  /** No block has changed hands. */
  ghost predicate SameBlocks<T>(s: State<T>, r: State<T>) {
    r.poolNext == s.poolNext && r.poolSize == s.poolSize && r.nextId == s.nextId && r.owner == s.owner
  }

  lemma IndexingKeepsQueue<T>(s: State<T>, a: Act<T>)
    requires Enabled(s, a)
    requires a.Probe? || a.NewIndex? || a.StoreKey? || a.StoreTail? || a.Rewind? || a.ClearValue?
    ensures SameQueue(s, Next(s, a)) && SameBlocks(s, Next(s, a))
  {
    if a.Probe? {
      ProbeKeepsQueue(s);
    } else if a.NewIndex? {
      NewIndexKeepsQueue(s, a.ok, a.junk);
    } else {
      hide Usable, NextOfConsumer, NextOfOthers;
    }
  }

  lemma ProbeKeepsQueue<T>(s: State<T>)
    requires Enabled(s, Probe)
    ensures SameQueue(s, Next(s, Probe)) && SameBlocks(s, Next(s, Probe))
  {
    hide Usable, NextOfConsumer, NextOfOthers;
  }

  lemma NewIndexKeepsQueue<T>(s: State<T>, ok: bool, junk: seq<Value>)
    requires Enabled(s, NewIndex(ok, junk))
    ensures var r := Next(s, NewIndex(ok, junk)); SameQueue(s, r) && SameBlocks(s, r)
  {
    hide Usable, NextOfConsumer, NextOfOthers, Grown;
  }

  lemma TakingKeepsQueue<T>(s: State<T>, a: Act<T>)
    requires Enabled(s, a) && (a.LoadPool? || a.FetchPool? || a.TryFreeList? || a.Create?)
    ensures SameQueue(s, Next(s, a))
  {
    hide SameQueue, Enabled, Next;
    match a
    case LoadPool => LoadPoolKeepsQueue(s);
    case FetchPool => FetchPoolKeepsQueue(s);
    case TryFreeList(got) => TryFreeListKeepsQueue(s, got);
    case Create(ok) => CreateKeepsQueue(s, ok);
  }

  lemma LoadPoolKeepsQueue<T>(s: State<T>)
    requires Enabled(s, LoadPool)
    ensures SameQueue(s, Next(s, LoadPool))
  {
    hide Usable, NextOfConsumer, NextOfOthers;
  }

  lemma FetchedKeepsQueue<T>(s: State<T>)
    ensures var r := FetchedPool(s, InHand); r == s.(poolNext := r.poolNext, owner := r.owner)
  {
  }

  lemma FetchPoolKeepsQueue<T>(s: State<T>)
    requires Enabled(s, FetchPool)
    ensures SameQueue(s, Next(s, FetchPool))
  {
    hide Usable, NextOfConsumer, NextOfOthers, FetchedPool;
    FetchedKeepsQueue(s);
  }

  lemma TryFreeListKeepsQueue<T>(s: State<T>, got: Value)
    requires Enabled(s, TryFreeList(got))
    ensures SameQueue(s, Next(s, TryFreeList(got)))
  {
    hide Usable, NextOfConsumer, NextOfOthers;
  }

  lemma CreateKeepsQueue<T>(s: State<T>, ok: bool)
    requires Enabled(s, Create(ok))
    ensures SameQueue(s, Next(s, Create(ok)))
  {
    hide Usable, NextOfConsumer, NextOfOthers;
  }

  lemma PreparingKeepsQueue<T>(s: State<T>, a: Act<T>)
    requires Enabled(s, a) && Prepares(a)
    ensures SameQueue(s, Next(s, a))
  {
    hide Enabled, Next, SameQueue, SameBlocks;
    if a.LoadPool? || a.FetchPool? || a.TryFreeList? || a.Create? {
      TakingKeepsQueue(s, a);
    } else {
      IndexingKeepsQueue(s, a);
    }
  }

  ghost predicate RunsTo<T>(s: State<T>, acts: seq<Act<T>>, r: State<T>) {
    Runs(s, acts) && After(s, acts) == r
  }

  lemma RunsNowhere<T>(s: State<T>)
    ensures RunsTo(s, [], s)
  {
  }

  lemma RunsOn<T>(s: State<T>, acts: seq<Act<T>>, q: State<T>, a: Act<T>)
    requires RunsTo(s, acts, q) && Enabled(q, a)
    ensures RunsTo(s, acts + [a], Next(q, a))
  {
    hide Next, Enabled;
    assert (acts + [a])[..|acts|] == acts;
  }

  /** An enqueue that gave up before it wrote its element has left the queue as it was. */
  lemma {:induction false} FailedEnqueueLeavesTheQueue<T>(s: State<T>, acts: seq<Act<T>>)
    requires Runs(s, acts) && forall a | a in acts :: Prepares(a)
    ensures SameQueue(s, After(s, acts))
    decreases |acts|
  {
    hide Next, Enabled, Prepares;
    if acts != [] {
      var n := |acts| - 1;
      assert acts[n] in acts && forall a | a in acts[..n] :: a in acts;
      FailedEnqueueLeavesTheQueue(s, acts[..n]);
      PreparingKeepsQueue(After(s, acts[..n]), acts[n]);
    }
  }

  lemma ProducerIsReady<T>(s: State<T>)
    requires Inv(s)
    ensures s.headers != [] && Usable(s.Last(), s.entries)
    ensures s.producer.FoundFree? || s.producer.Keyed() ==> s.producer.e < |s.entries|
  {
    hide AllFrozen, Keyed, LiveFits, Consumes, Exclusive, Attended, Counts, Covers, Owned, Stores, Reaches, Slot;
    assert HeaderFits(s.Last(), s.entries);
  }

  /** One more preparing step. */
  lemma Prepare<T>(s: State<T>, acts: seq<Act<T>>, q: State<T>, a: Act<T>) returns (acts': seq<Act<T>>, q': State<T>)
    requires RunsTo(s, acts, q) && Inv(q) && SameQueue(s, q) && Prepares(a) && Enabled(q, a)
    ensures acts' == acts + [a] && q' == Next(q, a)
    ensures RunsTo(s, acts', q') && Inv(q') && SameQueue(s, q')
  {
    hide RunsTo, Inv, Enabled, Next, Prepares;
    RunsOn(s, acts, q, a);
    KeepsInv(q, a);
    PreparingKeepsQueue(q, a);
    acts', q' := acts + [a], Next(q, a);
  }

  lemma ProbeFinds<T>(s: State<T>)
    requires s.producer.Between? && |s.elems| == s.tail && s.tail % BLOCK_SIZE == 0
    requires s.headers != [] && Usable(s.Last(), s.entries)
    ensures Enabled(s, Probe) && (Next(s, Probe).producer.FoundFree? || Next(s, Probe).producer.NoRoom?)
  {
    hide Usable, NextOfConsumer, NextOfOthers;
  }

  /** With room for a larger index, the producer has an entry. */
  lemma GrowsIndex<T>(s: State<T>) returns (a: Act<T>)
    requires s.producer.NoRoom? && s.headers != [] && Usable(s.Last(), s.entries)
    ensures a.NewIndex? && a.ok && Enabled(s, a) && Next(s, a).producer.FoundFree?
  {
    hide Usable, NextOfConsumer, NextOfOthers, Grown;
    a := NewIndex(true, seq(s.Last().capacity, i => NoBlock));
  }

  lemma KeysEntry<T>(s: State<T>)
    requires s.producer.FoundFree? && s.headers != [] && s.producer.e < |s.entries|
    ensures Enabled(s, StoreKey) && Next(s, StoreKey).producer.KeyStored?
  {
    hide Usable, NextOfConsumer, NextOfOthers;
  }

  lemma MovesTail<T>(s: State<T>)
    requires s.producer.KeyStored? && s.headers != [] && Usable(s.Last(), s.entries)
    ensures Enabled(s, StoreTail) && Next(s, StoreTail).producer.Inserted?
  {
    hide Usable, NextOfConsumer, NextOfOthers;
  }

  /** One more step on the way to an entry. */
  lemma Index<T>(s: State<T>, acts: seq<Act<T>>, q: State<T>, a: Act<T>) returns (acts': seq<Act<T>>, q': State<T>)
    requires RunsTo(s, acts, q) && Inv(q) && SameQueue(s, q) && SameBlocks(s, q) && Enabled(q, a)
    requires a.Probe? || a.NewIndex? || a.StoreKey? || a.StoreTail?
    ensures acts' == acts + [a] && q' == Next(q, a)
    ensures RunsTo(s, acts', q') && Inv(q') && SameQueue(s, q') && SameBlocks(s, q')
    ensures q'.headers != [] && Usable(q'.Last(), q'.entries)
    ensures q'.producer.FoundFree? || q'.producer.Keyed() ==> q'.producer.e < |q'.entries|
  {
    hide RunsTo, Inv, Enabled, Next, SameQueue, Usable;
    acts', q' := Prepare(s, acts, q, a);
    IndexingKeepsQueue(q, a);
    ProducerIsReady(q');
  }

  /** The entry for the next block is found, in a larger index if need be, keyed, and put at the tail. */
  lemma FindsEntry<T>(s: State<T>) returns (acts: seq<Act<T>>, r: State<T>)
    requires Inv(s) && s.producer.Between? && |s.elems| == s.tail && s.tail % BLOCK_SIZE == 0
    ensures RunsTo(s, acts, r) && Inv(r) && SameQueue(s, r) && SameBlocks(s, r) && r.producer.Inserted?
  {
    RunsNowhere(s);
    SameAsItself(s);
    ProducerIsReady(s);
    hide RunsTo, Inv, SameQueue, SameBlocks, Usable, Enabled, Next;
    ProbeFinds(s);
    acts, r := Index(s, [], s, Probe);
    if r.producer.NoRoom? {
      var a := GrowsIndex(r);
      acts, r := Index(s, acts, r, a);
    }
    KeysEntry(r);
    acts, r := Index(s, acts, r, StoreKey);
    MovesTail(r);
    acts, r := Index(s, acts, r, StoreTail);
  }

  lemma SameAsItself<T>(s: State<T>)
    ensures SameQueue(s, s) && SameBlocks(s, s)
  {
  }

  // ---------- A block ----------

  ghost predicate SomeListed<T>(s: State<T>) {
    exists b :: b in s.owner && s.owner[b].FreeList?
  }

  /** The block the producer got: of the pool while it lasts, else from the free list, else new. */
  ghost predicate Requisitioned<T>(s: State<T>, b: nat) {
    if s.poolNext < s.poolSize then b == s.poolNext
    else if SomeListed(s) then b in s.owner && s.owner[b].FreeList?
    else b == s.nextId
  }

  lemma LooksInPool<T>(s: State<T>)
    requires s.producer.Inserted?
    ensures Enabled(s, LoadPool) && SameBlocks(s, Next(s, LoadPool))
    ensures var p := Next(s, LoadPool).producer; if s.poolNext < s.poolSize then p.PoolSeen? else p.PoolEmpty?
  {
    hide Usable, NextOfConsumer, NextOfOthers;
  }

  lemma TakesFromPool<T>(s: State<T>)
    requires s.producer.PoolSeen? && s.poolNext < s.poolSize
    ensures Enabled(s, FetchPool)
    ensures var p := Next(s, FetchPool).producer; p.Got? && p.b == s.poolNext
  {
    hide Usable, NextOfConsumer, NextOfOthers;
  }

  lemma TakesFromFreeList<T>(s: State<T>, got: Value)
    requires s.producer.PoolEmpty? && (got.Block? ==> got.b in s.owner && s.owner[got.b].FreeList?)
    ensures Enabled(s, TryFreeList(got))
    ensures var r := Next(s, TryFreeList(got));
            if got.Block? then r.producer.Got? && r.producer.b == got.b else r.producer.FreeListEmpty? && SameBlocks(s, r)
  {
    hide Usable, NextOfConsumer, NextOfOthers;
  }

  lemma CreatesBlock<T>(s: State<T>)
    requires s.producer.FreeListEmpty?
    ensures Enabled(s, Create(true))
    ensures var p := Next(s, Create(true)).producer; p.Got? && p.b == s.nextId
  {
    hide Usable, NextOfConsumer, NextOfOthers;
  }

  lemma TakesBlock<T>(s: State<T>, before: seq<Act<T>>, q: State<T>) returns (acts: seq<Act<T>>, r: State<T>)
    requires RunsTo(s, before, q) && Inv(q) && SameQueue(s, q) && SameBlocks(s, q) && q.producer.Inserted?
    ensures RunsTo(s, acts, r) && Inv(r) && SameQueue(s, r) && r.producer.Got? && Requisitioned(s, r.producer.b)
  {
    hide RunsTo, Inv, SameQueue, Enabled, Next;
    LooksInPool(q);
    acts, r := Prepare(s, before, q, LoadPool);
    if s.poolNext < s.poolSize {
      TakesFromPool(r);
      acts, r := Prepare(s, acts, r, FetchPool);
    } else if b :| b in s.owner && s.owner[b].FreeList? {
      TakesFromFreeList(r, Block(b));
      acts, r := Prepare(s, acts, r, TryFreeList(Block(b)));
    } else {
      TakesFromFreeList(r, NoBlock);
      acts, r := Prepare(s, acts, r, TryFreeList(NoBlock));
      CreatesBlock(r);
      acts, r := Prepare(s, acts, r, Create(true));
    }
  }

  // ---------- The element ----------

  /** The element is at the end of the queue, and nothing else has changed for its consumers. */
  ghost predicate Appended<T>(s: State<T>, r: State<T>, x: T) {
    && r.elems == s.elems + [x] && r.tail == s.tail + 1 && r.head == s.head && r.at == s.at
    && r.counted == s.counted && r.released == s.released && r.producer.Between?
  }

  lemma FillsWithin<T>(s: State<T>, x: T)
    requires s.producer.Between? && |s.elems| == s.tail && s.tail % BLOCK_SIZE != 0
    ensures Enabled(s, Fill(x)) && Enabled(Next(s, Fill(x)), Publish)
    ensures var r := Next(Next(s, Fill(x)), Publish); Appended(s, r, x) && r.live == s.live && r.exposed == s.exposed
  {
    hide Usable, NextOfConsumer, NextOfOthers;
  }

  lemma FillsBlock<T>(s: State<T>, x: T)
    requires s.producer.Got? && |s.elems| == s.tail && s.producer.e < |s.entries|
    ensures Enabled(s, Fill(x)) && Enabled(Next(s, Fill(x)), Expose)
    ensures Enabled(Next(Next(s, Fill(x)), Expose), Publish)
    ensures var r := Next(Next(Next(s, Fill(x)), Expose), Publish);
            && Appended(s, r, x) && r.exposed == s.exposed + 1
            && r.live == s.live[s.exposed := LiveBlock(s.producer.e, s.producer.b)]
  {
    hide Usable, NextOfConsumer, NextOfOthers;
  }

  lemma Continue<T>(s: State<T>, acts: seq<Act<T>>, q: State<T>, a: Act<T>) returns (acts': seq<Act<T>>, q': State<T>)
    requires RunsTo(s, acts, q) && Inv(q) && Enabled(q, a)
    ensures acts' == acts + [a] && q' == Next(q, a) && RunsTo(s, acts', q') && Inv(q')
  {
    hide RunsTo, Inv, Enabled, Next;
    RunsOn(s, acts, q, a);
    KeepsInv(q, a);
    acts', q' := acts + [a], Next(q, a);
  }

  /**
   * From any state the threads can reach, an enqueue that runs alone from there, and is given memory when it asks for
   * some, appends its element. Within a block it only writes the element; at a block start it puts one more block in
   * the index, taken from the pool while that lasts, else from the free list, and allocated only if both are empty.
   */
  lemma LoneEnqueueAppends<T>(start: State<T>, before: seq<Act<T>>, x: T) returns (acts: seq<Act<T>>, r: State<T>)
    requires Start(start) && Runs(start, before)
    requires var s := After(start, before); s.producer.Between? && |s.elems| == s.tail
    ensures var s := After(start, before);
            && RunsTo(s, acts, r) && Inv(r) && Appended(s, r, x)
            && (s.tail % BLOCK_SIZE != 0 ==> acts == [Fill(x), Publish] && r.live == s.live && r.exposed == s.exposed)
            && (s.tail % BLOCK_SIZE == 0 ==>
                  && r.exposed == s.exposed + 1 && s.exposed in r.live && Requisitioned(s, r.live[s.exposed].b)
                  && r.live == s.live[s.exposed := r.live[s.exposed]])
  {
    hide Start, Runs, After, Inv, Enabled, Next, RunsTo, SameBlocks, Requisitioned;
    EveryRunKeepsInv(start, before);
    var s := After(start, before);
    if s.tail % BLOCK_SIZE != 0 {
      RunsNowhere(s);
      FillsWithin(s, x);
      acts, r := Continue(s, [], s, Fill(x));
      acts, r := Continue(s, acts, r, Publish);
    } else {
      acts, r := FindsEntry(s);
      acts, r := TakesBlock(s, acts, r);
      ProducerIsReady(r);
      FillsBlock(r, x);
      acts, r := Continue(s, acts, r, Fill(x));
      acts, r := Continue(s, acts, r, Expose);
      acts, r := Continue(s, acts, r, Publish);
    }
  }

  // ---------- When the index is full ----------

  ghost predicate OfLive(live: map<nat, LiveBlock>, e: nat) {
    exists m :: m in live && live[m].e == e
  }

  /** An entry that shows a key and a block is a live block's, or the one keyed for the next. */
  ghost predicate Used(entries: seq<Entry>, entryOf: seq<nat>, live: map<nat, LiveBlock>, exposed: nat) {
    forall e: nat | e < |entries| && entries[e].key != INVALID_BLOCK_BASE && entries[e].value.Block? ::
      OfLive(live, e) || (|entryOf| == exposed + 1 && entryOf[exposed] == e)
  }

  ghost predicate IndexUsed<T>(s: State<T>) {
    Used(s.entries, s.entryOf, s.live, s.exposed)
  }

  /** The steps that leave the index alone. */
  predicate Elsewhere<T>(a: Act<T>) {
    !a.NewIndex? && !a.StoreKey? && !a.ClearValue? && !a.Expose? && !a.Forget?
  }

  ghost predicate SameIndexAs<T>(s: State<T>, r: State<T>) {
    r.entries == s.entries && r.entryOf == s.entryOf && r.live == s.live && r.exposed == s.exposed
  }

  lemma ProducerElsewhere<T>(s: State<T>, a: Act<T>)
    requires Enabled(s, a) && Elsewhere(a) && (Prepares(a) || a.Fill? || a.Publish?)
    ensures SameIndexAs(s, Next(s, a))
  {
    if Prepares(a) {
      hide Next, Enabled;
      PreparingKeepsQueue(s, a);
      PreparingKeepsEntries(s, a);
    } else {
      hide Usable, NextOfConsumer, NextOfOthers;
    }
  }

  lemma PreparingKeepsEntries<T>(s: State<T>, a: Act<T>)
    requires Enabled(s, a) && Elsewhere(a) && Prepares(a)
    ensures Next(s, a).entries == s.entries && Next(s, a).entryOf == s.entryOf
  {
    hide Enabled, Next;
    if a.FetchPool? || a.Create? {
      RequisitionKeepsEntries(s, a);
    } else if a.LoadPool? || a.TryFreeList? {
      AskingKeepsEntries(s, a);
    } else {
      TailKeepsEntries(s, a);
    }
  }

  lemma AskingKeepsEntries<T>(s: State<T>, a: Act<T>)
    requires Enabled(s, a) && (a.LoadPool? || a.TryFreeList?)
    ensures Next(s, a).entries == s.entries && Next(s, a).entryOf == s.entryOf
  {
    if a.LoadPool? {
      hide Usable, NextOfConsumer, NextOfOthers, FetchedPool, Created, Grown;
    } else {
      TryingKeepsEntries(s, a.got);
    }
  }

  lemma TryingKeepsEntries<T>(s: State<T>, got: Value)
    requires Enabled(s, TryFreeList(got))
    ensures Next(s, TryFreeList(got)).entries == s.entries && Next(s, TryFreeList(got)).entryOf == s.entryOf
  {
    hide Usable, NextOfConsumer, NextOfOthers, FetchedPool, Created, Grown;
  }

  lemma TailKeepsEntries<T>(s: State<T>, a: Act<T>)
    requires Enabled(s, a) && (a.Probe? || a.StoreTail? || a.Rewind?)
    ensures Next(s, a).entries == s.entries && Next(s, a).entryOf == s.entryOf
  {
    if a.Probe? {
      ProbeKeepsEntries(s);
    } else {
      hide Usable, NextOfConsumer, NextOfOthers, FetchedPool, Created, Grown;
    }
  }

  lemma ProbeKeepsEntries<T>(s: State<T>)
    requires Enabled(s, Probe)
    ensures Next(s, Probe).entries == s.entries && Next(s, Probe).entryOf == s.entryOf
  {
    hide Usable, NextOfConsumer, NextOfOthers, FetchedPool, Created, Grown;
  }

  lemma RequisitionKeepsEntries<T>(s: State<T>, a: Act<T>)
    requires Enabled(s, a) && (a.FetchPool? || a.Create?)
    ensures Next(s, a).entries == s.entries && Next(s, a).entryOf == s.entryOf
  {
    FetchedKeepsQueue(s);
    hide Usable, NextOfConsumer, NextOfOthers, FetchedPool;
  }

  lemma ConsumerElsewhere<T>(s: State<T>, a: Act<T>)
    requires Enabled(s, a) && Elsewhere(a)
    requires a.Claim? || a.LoadIndex? || a.LoadSlot? || a.LoadBase? || a.LoadValue? || a.MoveOut? || a.Count?
             || a.Release?
    ensures SameIndexAs(s, Next(s, a))
  {
    hide Usable, NextOfProducer, NextOfOthers, FoundSlot, TailBlockNo, BlockIn, Recycled;
  }

  lemma OthersFetch<T>(s: State<T>)
    ensures SameIndexAs(s, FetchedPool(s, Others)) && SameIndexAs(s, Created(s, Others))
  {
  }

  lemma OthersElsewhere<T>(s: State<T>, a: Act<T>)
    requires Enabled(s, a) && (a.OtherTakesPool? || a.OtherTakesFree? || a.OtherCreates? || a.OtherReleases?)
    ensures SameIndexAs(s, Next(s, a))
  {
    hide Usable, NextOfProducer, NextOfConsumer, Recycled, Created;
    OthersFetch(s);
  }

  lemma KeyingKeepsUsed<T>(s: State<T>)
    requires Inv(s) && Enabled(s, StoreKey) && IndexUsed(s)
    ensures IndexUsed(Next(s, StoreKey))
  {
    hide Indexed, Consumes, Exclusive, Attended, Counts, Covers, Owned, Stores, OfLive, Slot, Advances;
  }

  lemma ExposingKeepsUsed<T>(s: State<T>)
    requires Inv(s) && Enabled(s, Expose) && IndexUsed(s)
    ensures IndexUsed(Next(s, Expose))
  {
    hide Consumes, Exclusive, Attended, Counts, Covers, Owned, Stores, Slot, HeadersFit, AllFrozen, Keyed;
    var r, p := Next(s, Expose), s.producer;
    forall e: nat | e < |r.entries| && r.entries[e].key != INVALID_BLOCK_BASE && r.entries[e].value.Block?
      ensures OfLive(r.live, e)
    {
      if e == p.e {
        assert r.live[s.exposed].e == e;
      } else {
        assert OfLive(s.live, e);
        var m :| m in s.live && s.live[m].e == e;
        assert m in r.live && r.live[m] == s.live[m];
      }
    }
  }

  lemma UsedForgets(
    entries: seq<Entry>, entryOf: seq<nat>, live: map<nat, LiveBlock>, exposed: nat, j: nat)
    requires Used(entries, entryOf, live, exposed) && j in live && live[j].e < |entries|
    ensures var e := live[j].e; Used(entries[e := entries[e].(value := NoBlock)], entryOf, live - {j}, exposed)
  {
    forall e: nat | e != live[j].e && OfLive(live, e)
      ensures OfLive(live - {j}, e)
    {
      var m :| m in live && live[m].e == e;
      assert m in live - {j};
    }
    hide OfLive;
  }

  lemma ForgettingKeepsUsed<T>(s: State<T>, tid: nat)
    requires Inv(s) && Enabled(s, Forget(tid)) && IndexUsed(s)
    ensures IndexUsed(Next(s, Forget(tid)))
  {
    hide Inv, Next, Enabled, Used;
    ForgottenEntries(s, tid);
    LastConsumer(s, tid);
    UsedForgets(s.entries, s.entryOf, s.live, s.exposed, s.At(tid).i / BLOCK_SIZE);
  }

  lemma ForgottenEntries<T>(s: State<T>, tid: nat)
    requires Enabled(s, Forget(tid))
    ensures var r, q := Next(s, Forget(tid)), s.At(tid);
            && q.WasLast? && q.e < |s.entries| && r.entries == s.entries[q.e := s.entries[q.e].(value := NoBlock)]
            && r.live == s.live - {q.i / BLOCK_SIZE} && r.entryOf == s.entryOf && r.exposed == s.exposed
  {
    hide Usable, NextOfProducer, NextOfOthers;
  }

  lemma GrowingKeepsUsed<T>(s: State<T>, ok: bool, junk: seq<Value>)
    requires Enabled(s, NewIndex(ok, junk)) && IndexUsed(s)
    ensures IndexUsed(Next(s, NewIndex(ok, junk)))
  {
    hide Usable, OfLive, Grown;
  }

  lemma ClearingKeepsUsed<T>(s: State<T>)
    requires Enabled(s, ClearValue) && IndexUsed(s)
    ensures IndexUsed(Next(s, ClearValue))
  {
    hide Usable, OfLive;
  }

  lemma KeepsUsed<T>(s: State<T>, a: Act<T>)
    requires Inv(s) && Enabled(s, a) && IndexUsed(s)
    ensures IndexUsed(Next(s, a))
  {
    hide Inv, Enabled, Next, Used;
    match a
    case NewIndex(ok, junk) => GrowingKeepsUsed(s, ok, junk);
    case StoreKey => KeyingKeepsUsed(s);
    case ClearValue => ClearingKeepsUsed(s);
    case Expose => ExposingKeepsUsed(s);
    case Forget(tid) => ForgettingKeepsUsed(s, tid);
    case Claim(_) | LoadIndex(_) | LoadSlot(_) | LoadBase(_) | LoadValue(_) | MoveOut(_) | Count(_) | Release(_) =>
      ConsumerElsewhere(s, a);
    case OtherTakesPool | OtherTakesFree(_) | OtherCreates | OtherReleases(_) => OthersElsewhere(s, a);
    case _ => ProducerElsewhere(s, a);
  }

  lemma StartIsUsed<T>(s: State<T>)
    requires Start(s)
    ensures IndexUsed(s)
  {
    hide Owned;
  }

  lemma {:induction false} EveryRunKeepsUsed<T>(s: State<T>, acts: seq<Act<T>>)
    requires Start(s) && Runs(s, acts)
    ensures Inv(After(s, acts)) && IndexUsed(After(s, acts))
    decreases |acts|
  {
    hide Inv, Next, Enabled, Start, Used;
    EveryRunKeepsInv(s, acts);
    if acts == [] {
      StartIsUsed(s);
    } else {
      EveryRunKeepsUsed(s, acts[..|acts| - 1]);
      KeepsUsed(After(s, acts[..|acts| - 1]), acts[|acts| - 1]);
    }
  }

  /** The slot after the tail is taken by the block one whole turn back, or free. */
  lemma NextSlotIsOneTurnBack<T>(s: State<T>, m: nat)
    requires Indexed(s) && Produces(s) && s.producer.Between? && m in s.live
    ensures var h := s.Last();
            s.live[m].e == h.index[(h.tail + 1) % h.capacity] <==> m + h.capacity == s.exposed
  {
    hide AllFrozen, Keyed, Advances, Slot;
    CurrentHeader(s);
    var h := s.Last();
    NextSlot(h, s.exposed - 1);
    assert h.index[Slot(h, m)] == s.entryOf[m] == s.live[m].e;
    if m + h.capacity == s.exposed {
      SlotsRepeat(h, m);
    } else {
      NearbySlotsDiffer(h, m, s.exposed);
    }
  }

  /**
   * At a block start the index has no room, and is doubled, if and only if it is full: the block one whole turn of the
   * ring back is still in it, not used up.
   */
  lemma IndexIsFullIff<T>(s: State<T>, acts: seq<Act<T>>)
    requires Start(s) && Runs(s, acts) && Enabled(After(s, acts), Probe)
    ensures var r := After(s, acts);
            Next(r, Probe).producer.NoRoom? <==> r.exposed >= r.Last().capacity && r.exposed - r.Last().capacity in r.live
  {
    hide Start, Runs, After, Inv, Next, Enabled, Used;
    EveryRunKeepsUsed(s, acts);
    FullMeans(After(s, acts));
  }

  lemma FullMeans<T>(r: State<T>)
    requires Inv(r) && IndexUsed(r) && Enabled(r, Probe)
    ensures Next(r, Probe).producer.NoRoom?
            <==> r.exposed >= r.Last().capacity && r.exposed - r.Last().capacity in r.live
  {
    hide HeadersFit, AllFrozen, Keyed, Consumes, Exclusive, Attended, Counts, Covers, Owned, Stores, Slot, Advances;
    var h := r.Last();
    var e := h.index[(h.tail + 1) % h.capacity];
    NextSlot(h, r.exposed - 1);
    if Next(r, Probe).producer.NoRoom? {
      assert OfLive(r.live, e);
      var m :| m in r.live && r.live[m].e == e;
      NextSlotIsOneTurnBack(r, m);
    } else if r.exposed >= h.capacity && r.exposed - h.capacity in r.live {
      NextSlotIsOneTurnBack(r, r.exposed - h.capacity);
    }
  }
}
