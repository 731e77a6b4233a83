/** What every interleaving of the block machine keeps: look-ups succeed, and blocks have one holder and one release. */
module BlockIndexSafety {
  import opened BlockIndex
  import opened Ring

  // ---------- The index ----------

  ghost predicate HeaderFits(h: Header, entries: seq<Entry>) {
    && Usable(h, entries)
    && (forall s, t | 0 <= s < t < |h.index| :: h.index[s] != h.index[t])
  }

  /** From the oldest live block on, the header's slots name the entries the blocks were inserted at. */
  ghost predicate Reaches(h: Header, entryOf: seq<nat>, live: map<nat, LiveBlock>) {
    && h.capacity > 0 && |h.index| == h.capacity && h.top < |entryOf|
    && (forall m, j: nat | m in live && m <= j <= h.top :: h.index[Slot(h, j)] == entryOf[j])
    && (forall m | m in live && m <= h.top :: h.top - h.capacity < m)
  }

  /** A header that has been replaced no longer changes, and ends at a block already exposed. */
  ghost predicate Frozen(h: Header, exposed: nat) {
    h.capacity > 0 && h.top < exposed && h.tail == Slot(h, h.top)
  }

  ghost predicate HeadersFit(headers: seq<Header>, entries: seq<Entry>, entryOf: seq<nat>, live: map<nat, LiveBlock>) {
    && headers != []
    && (forall k | 0 <= k < |headers| :: HeaderFits(headers[k], entries))
    && (forall k | 0 <= k < |headers| :: Reaches(headers[k], entryOf, live))
  }

  ghost predicate AllFrozen(headers: seq<Header>, exposed: nat) {
    forall k | 0 <= k < |headers| - 1 :: Frozen(headers[k], exposed)
  }

  ghost predicate Keyed(entries: seq<Entry>, entryOf: seq<nat>, live: map<nat, LiveBlock>) {
    forall m, j: nat | m in live && m <= j < |entryOf| ::
      entryOf[j] < |entries| && entries[entryOf[j]].key == BLOCK_SIZE * j
  }

  /** The entry of a live block holds its key and the block. */
  ghost predicate LiveFits(entries: seq<Entry>, entryOf: seq<nat>, live: map<nat, LiveBlock>, exposed: nat) {
    forall m | m in live ::
      m < exposed && m < |entryOf| && live[m].e == entryOf[m] && entryOf[m] < |entries|
      && entries[entryOf[m]] == Entry(BLOCK_SIZE * m, Block(live[m].b))
  }

  // ---------- The producer ----------

  ghost predicate Positioned(p: Producer, last: Header, entryOf: seq<nat>, exposed: nat) {
    && last.capacity > 0 && |last.index| == last.capacity
    && exposed <= |entryOf| <= exposed + 1
    && last.top == |entryOf| - 1
    && last.tail == Slot(last, if p.AtTail() then exposed else exposed - 1)
    && (p.Keyed() ==> |entryOf| == exposed + 1)
    && (p.NoRoom? ==> |entryOf| == exposed)
  }

  /** The entry for the next block: keyed already if an earlier attempt failed, and in nobody's use. */
  ghost predicate Pending(p: Producer, last: Header, entries: seq<Entry>, entryOf: seq<nat>, exposed: nat) {
    && last.capacity > 0 && |last.index| == last.capacity
    && (|entryOf| == exposed + 1 ==>
          && last.index[Slot(last, exposed)] == entryOf[exposed] && entryOf[exposed] < |entries|
          && entries[entryOf[exposed]].key == BLOCK_SIZE * exposed
          && (p.Keyed() ==> p.e == entryOf[exposed])
          && (!p.Keyed() ==> entries[entryOf[exposed]].value.NoBlock?))
    && (p.FoundFree? ==>
          && p.e == last.index[Slot(last, exposed)] && p.e < |entries|
          && (entries[p.e].key == INVALID_BLOCK_BASE || entries[p.e].value.NoBlock?))
  }

  ghost predicate Advances(
      p: Producer, length: nat, tail: nat, exposed: nat, tailBlock: nat, live: map<nat, LiveBlock>) {
    && tail <= length <= tail + 1
    && BLOCK_SIZE * (exposed - 1) <= tail <= BLOCK_SIZE * exposed
    && (exposed > 0 ==> length > BLOCK_SIZE * (exposed - 1))
    && (!p.Between? ==> tail == BLOCK_SIZE * exposed && (length == tail + 1 <==> p.Filled?))
    && (p.Between? ==> length <= BLOCK_SIZE * exposed)
    && (exposed > 0 && exposed - 1 in live ==> tailBlock == live[exposed - 1].b)
  }

  // ---------- The consumers ----------

  predicate FullyCounted(counted: set<nat>, j: nat) {
    forall i | BLOCK_SIZE * j <= i < BLOCK_SIZE * (j + 1) :: i in counted
  }

  ghost predicate ConsumerFits<T>(
    p: Consumer<T>, headers: seq<Header>, live: map<nat, LiveBlock>, counted: set<nat>, head: nat, elems: seq<T>)
  {
    && (p.Holds() ==> p.i < head && p.i !in counted)
    && (p.HasIndex? || p.HasSlot? || p.HasBase? ==> p.h < |headers| && p.i / BLOCK_SIZE <= headers[p.h].top)
    && (p.HasSlot? || p.HasBase? ==>
          && headers[p.h].capacity > 0
          && p.i / BLOCK_SIZE <= p.jt <= headers[p.h].top && p.t == Slot(headers[p.h], p.jt))
    && (p.HasBase? ==> p.base == BLOCK_SIZE * p.jt)
    && (p.HasBlock? || p.Moved? || p.WasLast? ==>
          p.i / BLOCK_SIZE in live && live[p.i / BLOCK_SIZE] == LiveBlock(p.e, p.b))
    && (p.Moved? ==> p.i < |elems| && p.x == elems[p.i])
    && (p.WasLast? ==> FullyCounted(counted, p.i / BLOCK_SIZE))
  }

  ghost predicate Consumes<T>(
    at: map<nat, Consumer<T>>, headers: seq<Header>, live: map<nat, LiveBlock>, counted: set<nat>, head: nat,
    elems: seq<T>)
  {
    forall tid | tid in at :: ConsumerFits(at[tid], headers, live, counted, head, elems)
  }

  /** No index is held twice, and a block has one last consumer. */
  ghost predicate Exclusive<T>(at: map<nat, Consumer<T>>) {
    && (forall i, j | i in at && j in at && at[i].Holds() && at[j].Holds() && at[i].i == at[j].i :: i == j)
    && (forall i, j | i in at && j in at && at[i].WasLast? && at[j].WasLast?
                      && at[i].i / BLOCK_SIZE == at[j].i / BLOCK_SIZE :: i == j)
  }

  // ---------- Counting ----------

  function CountedIn(counted: set<nat>, j: nat): set<nat> {
    set i | i in counted && i / BLOCK_SIZE == j
  }

  ghost predicate Counts(live: map<nat, LiveBlock>, gone: map<nat, nat>, counted: set<nat>) {
    forall m | m in live :: live[m].b in gone && gone[live[m].b] == |CountedIn(counted, m)|
  }

  /** Every index of an exposed block not yet counted is in a live block; what is released is fully counted. */
  ghost predicate Covers(
      live: map<nat, LiveBlock>, counted: set<nat>, released: set<nat>, exposed: nat, head: nat, tail: nat) {
    && head <= tail
    && (forall i | i in counted :: i < head)
    && (forall m | 0 <= m < exposed :: m in live <==> m !in released)
    && (forall m | m in released :: m < exposed && FullyCounted(counted, m))
  }

  /** A live block whose indices are all counted has its last consumer, on the way to take it out. */
  ghost predicate Attended<T>(at: map<nat, Consumer<T>>, live: map<nat, LiveBlock>, counted: set<nat>) {
    forall m | m in live && FullyCounted(counted, m) ::
      exists tid :: tid in at && at[tid].WasLast? && at[tid].i / BLOCK_SIZE == m
  }

  // ---------- Ownership ----------

  ghost predicate Owned<T>(
    owner: map<nat, Owner>, live: map<nat, LiveBlock>, carried: Value, at: map<nat, Consumer<T>>, poolNext: nat,
    poolSize: nat, nextId: nat)
  {
    && poolSize <= nextId
    && (forall b :: b in owner <==> 0 <= b < nextId)
    && (forall b | b in owner :: owner[b].Pool? <==> poolNext <= b < poolSize)
    && (forall b | b in owner && owner[b].Mine? :: owner[b].j in live && live[owner[b].j].b == b)
    && (forall m | m in live :: live[m].b in owner && owner[live[m].b] == Mine(m))
    && (forall b | b in owner && owner[b].InHand? :: carried == Block(b))
    && (carried.Block? ==> carried.b in owner && owner[carried.b].InHand?)
    && (forall b | b in owner && owner[b].Released? :: owner[b].tid in at && at[owner[b].tid] == Releasing(b))
    && (forall tid | tid in at && at[tid].Releasing? :: at[tid].b in owner && owner[at[tid].b] == Released(tid))
    && (forall b | b in owner :: (owner[b].FreeList? ==> b < poolSize) && (owner[b].Destroyed? ==> b >= poolSize))
  }

  // ---------- Contents ----------

  ghost predicate Stores<T>(
    elems: seq<T>, live: map<nat, LiveBlock>, counted: set<nat>, cells: map<(nat, nat), T>, loaded: Value,
    gone: map<nat, nat>, exposed: nat)
  {
    && (forall i | 0 <= i < |elems| && i !in counted && i / BLOCK_SIZE in live ::
          (live[i / BLOCK_SIZE].b, i % BLOCK_SIZE) in cells
          && cells[(live[i / BLOCK_SIZE].b, i % BLOCK_SIZE)] == elems[i])
    && (loaded.Block? ==>
          && BLOCK_SIZE * exposed < |elems| && loaded.b in gone && gone[loaded.b] == 0
          && (loaded.b, 0) in cells && cells[(loaded.b, 0)] == elems[BLOCK_SIZE * exposed])
  }

  ghost predicate Indexed<T>(s: State<T>) {
    && HeadersFit(s.headers, s.entries, s.entryOf, s.live)
    && AllFrozen(s.headers, s.exposed)
    && Keyed(s.entries, s.entryOf, s.live)
    && LiveFits(s.entries, s.entryOf, s.live, s.exposed)
  }

  ghost predicate Produces<T>(s: State<T>) {
    && s.headers != []
    && Positioned(s.producer, s.Last(), s.entryOf, s.exposed)
    && Pending(s.producer, s.Last(), s.entries, s.entryOf, s.exposed)
    && Advances(s.producer, |s.elems|, s.tail, s.exposed, s.tailBlock, s.live)
  }

  ghost predicate Inv<T>(s: State<T>) {
    && Indexed(s)
    && Produces(s)
    && Consumes(s.at, s.headers, s.live, s.counted, s.head, s.elems)
    && Exclusive(s.at)
    && Attended(s.at, s.live, s.counted)
    && Counts(s.live, s.gone, s.counted)
    && Covers(s.live, s.counted, s.released, s.exposed, s.head, s.tail)
    && Owned(s.owner, s.live, s.producer.Carried(), s.at, s.poolNext, s.poolSize, s.nextId)
    && Stores(s.elems, s.live, s.counted, s.cells, s.producer.Loaded(), s.gone, s.exposed)
  }

  // ---------- The producer inserts a block ----------

  /** The next entry round the ring is the slot of the next block. */
  lemma NextSlot(h: Header, j: int)
    requires h.capacity > 0 && h.tail == Slot(h, j)
    ensures (h.tail + 1) % h.capacity == Slot(h, j + 1) && (h.tail - 1) % h.capacity == Slot(h, j - 1)
  {
    Shifted(j - h.first, 1, h.capacity);
    Shifted(j - h.first, -1, h.capacity);
  }

  lemma CurrentHeader<T>(s: State<T>)
    requires Indexed(s)
    ensures s.headers != [] && HeaderFits(s.Last(), s.entries) && Reaches(s.Last(), s.entryOf, s.live)
  {
  }

  /** A step that only moves the producer, and neither takes nor fills a block. */
  lemma ProducerMoves<T>(s: State<T>, p: Producer)
    requires Inv(s) && Produces(s.(producer := p))
    requires p.Carried() == s.producer.Carried() && p.Loaded() == s.producer.Loaded()
    ensures Inv(s.(producer := p))
  {
    hide HeadersFit, AllFrozen, Keyed, LiveFits, Produces, Consumes, Exclusive, Attended, Counts, Covers, Owned, Stores;
    hide Producer.Carried, Producer.Loaded;
  }

  lemma ProbeKeeps<T>(s: State<T>)
    requires Inv(s) && Enabled(s, Probe)
    ensures Inv(NextOfProducer(s, Probe))
  {
    hide HeadersFit, AllFrozen, Keyed, LiveFits, Consumes, Exclusive, Attended, Counts, Covers, Owned, Stores, Slot;
    NextSlot(s.Last(), s.exposed - 1);
    ProducerMoves(s, NextOfProducer(s, Probe).producer);
  }

  lemma LookForBlockKeeps<T>(s: State<T>, a: Act<T>)
    requires Inv(s) && Enabled(s, a)
    requires a.LoadPool? || (a.TryFreeList? && a.got.NoBlock?) || (a.Create? && !a.ok) || (a.NewIndex? && !a.ok)
    ensures Inv(NextOfProducer(s, a))
  {
    hide HeadersFit, AllFrozen, Keyed, LiveFits, Consumes, Exclusive, Attended, Counts, Covers, Owned, Stores;
    ProducerMoves(s, NextOfProducer(s, a).producer);
  }

  // ---------- Headers change ----------

  /** The slots of a header stand for the same blocks as before. */
  predicate SameSlots(h: Header, h': Header) {
    h'.capacity == h.capacity && h'.first == h.first && h'.index == h.index && h.top <= h'.top
  }

  lemma ConsumersSeeGrowth<T>(
    at: map<nat, Consumer<T>>, headers: seq<Header>, headers': seq<Header>, live: map<nat, LiveBlock>,
    counted: set<nat>, head: nat, elems: seq<T>)
    requires Consumes(at, headers, live, counted, head, elems) && |headers| <= |headers'|
    requires forall k | 0 <= k < |headers| :: SameSlots(headers[k], headers'[k])
    ensures Consumes(at, headers', live, counted, head, elems)
  {
    hide FullyCounted;
    forall tid | tid in at
      ensures ConsumerFits(at[tid], headers', live, counted, head, elems)
    {
      assert ConsumerFits(at[tid], headers, live, counted, head, elems);
    }
  }

  /** The current header with another tail slot. */
  function Retailed(headers: seq<Header>, tail: nat): seq<Header>
    requires headers != []
  {
    headers[|headers| - 1 := headers[|headers| - 1].(tail := tail)]
  }

  lemma RetailedFits(
    headers: seq<Header>, tail: nat, entries: seq<Entry>, entryOf: seq<nat>, live: map<nat, LiveBlock>, exposed: nat)
    requires HeadersFit(headers, entries, entryOf, live) && AllFrozen(headers, exposed)
    requires tail < headers[|headers| - 1].capacity
    ensures HeadersFit(Retailed(headers, tail), entries, entryOf, live) && AllFrozen(Retailed(headers, tail), exposed)
    ensures forall k | 0 <= k < |headers| :: SameSlots(headers[k], Retailed(headers, tail)[k])
  {
    var headers' := Retailed(headers, tail);
    forall k | 0 <= k < |headers|
      ensures HeaderFits(headers'[k], entries) && Reaches(headers'[k], entryOf, live)
    {
      var h, h' := headers[k], headers'[k];
      assert HeaderFits(h, entries) && Reaches(h, entryOf, live);
      assert forall j :: Slot(h', j) == Slot(h, j);
    }
  }

  lemma RetailKeeps<T>(s: State<T>, tail: nat, p: Producer)
    requires Inv(s) && tail < s.Last().capacity
    requires Produces(s.(headers := Retailed(s.headers, tail), producer := p))
    requires p.Carried() == s.producer.Carried() && p.Loaded() == s.producer.Loaded()
    ensures Inv(s.(headers := Retailed(s.headers, tail), producer := p))
  {
    hide HeadersFit, AllFrozen, Keyed, LiveFits, Produces, Consumes, Exclusive, Attended, Counts, Covers, Owned, Stores;
    hide Producer.Carried, Producer.Loaded, Retailed;
    CurrentHeader(s);
    RetailedFits(s.headers, tail, s.entries, s.entryOf, s.live, s.exposed);
    RetailedLength(s.headers, tail);
    ConsumersSeeGrowth(s.at, s.headers, Retailed(s.headers, tail), s.live, s.counted, s.head, s.elems);
  }

  lemma RetailedLength(headers: seq<Header>, tail: nat)
    requires headers != []
    ensures |Retailed(headers, tail)| == |headers|
  {
  }

  lemma StoreTailKeeps<T>(s: State<T>, a: Act<T>)
    requires Inv(s) && Enabled(s, a) && (a.StoreTail? || a.Rewind?)
    ensures Inv(NextOfProducer(s, a))
  {
    hide HeadersFit, AllFrozen, Keyed, LiveFits, Consumes, Exclusive, Attended, Counts, Covers, Owned, Stores;
    var h, r := s.Last(), NextOfProducer(s, a);
    NextSlot(h, if a.StoreTail? then s.exposed - 1 else s.exposed);
    assert r == s.(headers := Retailed(s.headers, r.Last().tail), producer := r.producer);
    assert forall j :: Slot(r.Last(), j) == Slot(h, j);
    RetailKeeps(s, r.Last().tail, r.producer);
  }

  // ---------- A key is stored ----------

  lemma SlotsRepeat(h: Header, j: int)
    requires h.capacity > 0
    ensures Slot(h, j + h.capacity) == Slot(h, j)
  {
    MultiplesVanish(j - h.first, h.capacity, 1);
  }

  lemma NearbySlotsDiffer(h: Header, j: int, k: int)
    requires j < k < j + h.capacity
    ensures Slot(h, j) != Slot(h, k)
  {
    SlotsDiffer(j - h.first, k - h.first, h.capacity);
  }

  /** The entry found free is no live block's, and its slot is that of no block from the oldest live one on. */
  lemma FreeEntryIsClear<T>(s: State<T>)
    requires Indexed(s) && Produces(s) && s.producer.FoundFree?
    ensures forall m, j: nat | m in s.live && m <= j < s.exposed :: j < |s.entryOf| && s.entryOf[j] != s.producer.e
    ensures forall m | m in s.live :: s.exposed - s.Last().capacity < m
  {
    hide HeadersFit, AllFrozen, Slot, Advances;
    CurrentHeader(s);
    var h, e := s.Last(), s.producer.e;
    forall m | m in s.live
      ensures s.exposed - h.capacity < m
    {
      assert m <= h.top;
      SlotsRepeat(h, m);
    }
    forall m, j: nat | m in s.live && m <= j < s.exposed
      ensures s.entryOf[j] != e
    {
      assert h.index[Slot(h, j)] == s.entryOf[j];
      NearbySlotsDiffer(h, j, s.exposed);
    }
  }

  /** A header that takes in one more block still leads to every live one. */
  lemma RetoppedReaches(h: Header, entryOf: seq<nat>, live: map<nat, LiveBlock>, e: nat)
    requires Reaches(h, entryOf, live) && h.top == |entryOf| - 1
    requires h.index[Slot(h, |entryOf|)] == e && forall m | m in live :: |entryOf| - h.capacity < m
    ensures Reaches(h.(top := |entryOf|), entryOf + [e], live)
  {
    assert forall i :: Slot(h.(top := |entryOf|), i) == Slot(h, i);
  }

  lemma StoreKeyHeaders<T>(s: State<T>)
    requires Indexed(s) && Produces(s) && Enabled(s, StoreKey) && |s.entryOf| == s.exposed
    ensures var r := NextOfProducer(s, StoreKey); HeadersFit(r.headers, r.entries, r.entryOf, r.live)
  {
    FreeEntryIsClear(s);
    CurrentHeader(s);
    hide AllFrozen, Keyed, LiveFits;
    var r, e := NextOfProducer(s, StoreKey), s.producer.e;
    RetoppedReaches(s.Last(), s.entryOf, s.live, e);
    forall k | 0 <= k < |s.headers|
      ensures HeaderFits(r.headers[k], r.entries) && Reaches(r.headers[k], r.entryOf, s.live)
    {
      assert HeaderFits(s.headers[k], s.entries) && Reaches(s.headers[k], s.entryOf, s.live);
    }
  }

  lemma StoreKeyEntries<T>(s: State<T>)
    requires Indexed(s) && Produces(s) && Enabled(s, StoreKey) && |s.entryOf| == s.exposed
    ensures var r := NextOfProducer(s, StoreKey);
            && AllFrozen(r.headers, r.exposed) && Keyed(r.entries, r.entryOf, r.live)
            && LiveFits(r.entries, r.entryOf, r.live, r.exposed)
  {
    FreeEntryIsClear(s);
    hide HeadersFit;
  }

  lemma StoreKeyFits<T>(s: State<T>)
    requires Indexed(s) && Produces(s) && Enabled(s, StoreKey) && |s.entryOf| == s.exposed
    ensures Indexed(NextOfProducer(s, StoreKey))
  {
    hide HeadersFit, AllFrozen, Keyed, LiveFits, Produces, NextOfProducer;
    StoreKeyHeaders(s);
    StoreKeyEntries(s);
  }

  lemma StoreKeyProduces<T>(s: State<T>)
    requires Indexed(s) && Produces(s) && Enabled(s, StoreKey) && |s.entryOf| == s.exposed
    ensures Produces(NextOfProducer(s, StoreKey))
  {
    hide HeadersFit, AllFrozen, Keyed, LiveFits;
    CurrentHeader(s);
    var h, r := s.Last(), NextOfProducer(s, StoreKey);
    assert r.Last() == h.(top := s.exposed);
    assert forall j :: Slot(r.Last(), j) == Slot(h, j);
  }

  lemma StoreKeyKeeps<T>(s: State<T>)
    requires Inv(s) && Enabled(s, StoreKey)
    ensures Inv(NextOfProducer(s, StoreKey))
  {
    hide HeadersFit, AllFrozen, Keyed, LiveFits, Consumes, Exclusive, Attended, Counts, Covers, Owned, Stores;
    var r := NextOfProducer(s, StoreKey);
    if |s.entryOf| == s.exposed {
      StoreKeyFits(s);
      StoreKeyProduces(s);
      hide Positioned, Pending, Advances;
      ConsumersSeeGrowth(s.at, s.headers, r.headers, s.live, s.counted, s.head, s.elems);
    } else {
      CurrentHeader(s);
      assert r == s.(producer := r.producer) by {
        assert r.headers == s.headers && r.entries == s.entries;
      }
      ProducerMoves(s, r.producer);
    }
  }

  // ---------- A larger index ----------

  /** Going round the old ring from the slot after the tail passes each old entry once. */
  lemma GrownFits(h: Header, entries: seq<Entry>, more: seq<Entry>)
    requires HeaderFits(h, entries) && |more| == h.capacity
    ensures HeaderFits(Grown(h, |entries|), entries + more)
  {
    var g := Grown(h, |entries|);
    forall s, t | 0 <= s < t < |g.index|
      ensures g.index[s] != g.index[t]
    {
      if t < h.capacity {
        SlotsDiffer(h.tail + 1 + s, h.tail + 1 + t, h.capacity);
      }
    }
  }

  /** Where block j of the old ring lies in the larger one, counted from its slot 0. */
  lemma CopiedSlot(h: Header, j: int)
    requires h.capacity > 0 && h.tail == Slot(h, h.top) && h.top - h.capacity < j <= h.top
    ensures (h.tail + 1 + (j - (h.top + 1 - h.capacity))) % h.capacity == Slot(h, j)
  {
    var d := 1 + (j - (h.top + 1 - h.capacity));
    OneTurn(h.tail, h.top - h.first, d, j - h.first, h.capacity);
    assert h.tail + d == h.tail + 1 + (j - (h.top + 1 - h.capacity));
  }

  lemma SmallSlot(x: nat, c: nat)
    requires x < c
    ensures x % c == x
  {
  }

  /** In the larger index each block from the oldest live one on has the slot its entry was copied to. */
  lemma GrownReaches(h: Header, spare: nat, entryOf: seq<nat>, live: map<nat, LiveBlock>)
    requires Reaches(h, entryOf, live) && h.tail == Slot(h, h.top)
    ensures Reaches(Grown(h, spare), entryOf, live)
  {
    var g := Grown(h, spare);
    forall m, j: nat | m in live && m <= j <= g.top
      ensures g.index[Slot(g, j)] == entryOf[j]
    {
      assert h.top - h.capacity < m;
      assert h.index[Slot(h, j)] == entryOf[j];
      CopiedSlot(h, j);
      SmallSlot(j - g.first, g.capacity);
      hide Slot;
    }
  }

  lemma NewIndexFits<T>(s: State<T>, junk: seq<Value>)
    requires Inv(s) && Enabled(s, NewIndex(true, junk))
    ensures Indexed(NextOfProducer(s, NewIndex(true, junk)))
  {
    hide Grown, Slot, Consumes, Exclusive, Attended, Counts, Covers, Owned, Stores, Pending, Advances;
    CurrentHeader(s);
    var h, r := s.Last(), NextOfProducer(s, NewIndex(true, junk));
    var more := r.entries[|s.entries|..];
    assert r.entries == s.entries + more;
    GrownFits(h, s.entries, more);
    GrownReaches(h, |s.entries|, s.entryOf, s.live);
    forall k | 0 <= k < |r.headers|
      ensures HeaderFits(r.headers[k], r.entries) && Reaches(r.headers[k], r.entryOf, s.live)
    {
      if k < |s.headers| {
        assert HeaderFits(s.headers[k], s.entries) && Reaches(s.headers[k], s.entryOf, s.live);
      }
    }
  }

  lemma NewIndexProduces<T>(s: State<T>, junk: seq<Value>)
    requires Inv(s) && Enabled(s, NewIndex(true, junk))
    ensures Produces(NextOfProducer(s, NewIndex(true, junk)))
  {
    hide HeadersFit, AllFrozen, Keyed, LiveFits, Consumes, Exclusive, Attended, Counts, Covers, Owned, Stores;
    CurrentHeader(s);
    var h, r := s.Last(), NextOfProducer(s, NewIndex(true, junk));
    SmallSlot(h.capacity - 1, r.Last().capacity);
    SmallSlot(h.capacity, r.Last().capacity);
    assert Slot(r.Last(), s.exposed) == h.capacity && r.Last().index[h.capacity] == |s.entries|;
    assert Slot(r.Last(), s.exposed - 1) == h.capacity - 1;
    hide Slot;
  }

  lemma NewIndexKeeps<T>(s: State<T>, junk: seq<Value>)
    requires Inv(s) && Enabled(s, NewIndex(true, junk))
    ensures Inv(NextOfProducer(s, NewIndex(true, junk)))
  {
    NewIndexFits(s, junk);
    NewIndexProduces(s, junk);
    hide Indexed, Produces, Consumes, Exclusive, Attended, Counts, Covers, Owned, Stores;
    ConsumersSeeGrowth(
      s.at, s.headers, NextOfProducer(s, NewIndex(true, junk)).headers, s.live, s.counted, s.head, s.elems);
  }

  // ---------- A block for it ----------

  lemma ClearedIndex<T>(s: State<T>)
    requires Indexed(s) && Produces(s) && Enabled(s, ClearValue)
    ensures Indexed(NextOfProducer(s, ClearValue))
  {
    hide Advances, Slot;
    var r := NextOfProducer(s, ClearValue);
    assert s.producer.e == s.entryOf[s.exposed];
    forall k | 0 <= k < |s.headers|
      ensures HeaderFits(r.headers[k], r.entries) && Reaches(r.headers[k], r.entryOf, s.live)
    {
      assert HeaderFits(s.headers[k], s.entries) && Reaches(s.headers[k], s.entryOf, s.live);
    }
  }

  lemma ClearedFits<T>(s: State<T>)
    requires Indexed(s) && Produces(s) && Enabled(s, ClearValue)
    ensures Indexed(NextOfProducer(s, ClearValue)) && Produces(NextOfProducer(s, ClearValue))
  {
    ClearedIndex(s);
    hide Indexed, Slot;
  }

  lemma ClearValueKeeps<T>(s: State<T>)
    requires Inv(s) && Enabled(s, ClearValue)
    ensures Inv(NextOfProducer(s, ClearValue))
  {
    ClearedFits(s);
    hide Indexed, Produces, Consumes, Exclusive, Attended, Counts, Covers, Owned, Stores;
  }

  /** Whose block it becomes, and what the producer then carries. */
  function CarriedBy(taker: Owner, b: nat, carried: Value): Value {
    if taker.InHand? then Block(b) else carried
  }

  lemma OwnedTakesFree<T>(
    owner: map<nat, Owner>, live: map<nat, LiveBlock>, carried: Value, at: map<nat, Consumer<T>>, poolNext: nat,
    poolSize: nat, nextId: nat, b: nat, taker: Owner)
    requires Owned(owner, live, carried, at, poolNext, poolSize, nextId) && b in owner && owner[b].FreeList?
    requires taker.Others? || (taker.InHand? && carried.NoBlock?)
    ensures Owned(owner[b := taker], live, CarriedBy(taker, b, carried), at, poolNext, poolSize, nextId)
  {
  }

  lemma OwnedFetches<T>(
    owner: map<nat, Owner>, live: map<nat, LiveBlock>, carried: Value, at: map<nat, Consumer<T>>, poolNext: nat,
    poolSize: nat, nextId: nat, taker: Owner)
    requires Owned(owner, live, carried, at, poolNext, poolSize, nextId)
    requires taker.Others? || (taker.InHand? && carried.NoBlock?)
    ensures poolNext < poolSize ==>
              Owned(owner[poolNext := taker], live, CarriedBy(taker, poolNext, carried), at, poolNext + 1, poolSize, nextId)
    ensures poolNext >= poolSize ==> Owned(owner, live, carried, at, poolNext + 1, poolSize, nextId)
  {
  }

  lemma OwnedCreates<T>(
    owner: map<nat, Owner>, live: map<nat, LiveBlock>, carried: Value, at: map<nat, Consumer<T>>, poolNext: nat,
    poolSize: nat, nextId: nat, taker: Owner)
    requires Owned(owner, live, carried, at, poolNext, poolSize, nextId)
    requires taker.Others? || (taker.InHand? && carried.NoBlock?)
    ensures Owned(owner[nextId := taker], live, CarriedBy(taker, nextId, carried), at, poolNext, poolSize, nextId + 1)
  {
  }

  lemma RequisitionKeeps<T>(s: State<T>, a: Act<T>)
    requires Inv(s) && Enabled(s, a)
    requires a.FetchPool? || (a.TryFreeList? && a.got.Block?) || (a.Create? && a.ok)
    ensures Inv(NextOfProducer(s, a))
  {
    hide HeadersFit, AllFrozen, Keyed, LiveFits, Consumes, Exclusive, Attended, Counts, Covers, Owned, Stores;
    match a
    case FetchPool =>
      OwnedFetches(s.owner, s.live, NoBlock, s.at, s.poolNext, s.poolSize, s.nextId, InHand);
    case TryFreeList(got) =>
      OwnedTakesFree(s.owner, s.live, NoBlock, s.at, s.poolNext, s.poolSize, s.nextId, got.b, InHand);
    case Create(_) =>
      OwnedCreates(s.owner, s.live, NoBlock, s.at, s.poolNext, s.poolSize, s.nextId, InHand);
  }

  lemma OthersKeep<T>(s: State<T>, a: Act<T>)
    requires Inv(s) && Enabled(s, a) && (a.OtherTakesPool? || a.OtherTakesFree? || a.OtherCreates? || a.OtherReleases?)
    ensures Inv(NextOfOthers(s, a))
  {
    hide HeadersFit, AllFrozen, Keyed, LiveFits, Consumes, Exclusive, Attended, Counts, Covers, Owned, Stores;
    hide Positioned, Pending, Advances, Producer.Carried, Producer.Loaded;
    var carried := s.producer.Carried();
    match a
    case OtherTakesPool =>
      OwnedFetches(s.owner, s.live, carried, s.at, s.poolNext, s.poolSize, s.nextId, Others);
    case OtherTakesFree(b) =>
      OwnedTakesFree(s.owner, s.live, carried, s.at, s.poolNext, s.poolSize, s.nextId, b, Others);
    case OtherCreates =>
      OwnedCreates(s.owner, s.live, carried, s.at, s.poolNext, s.poolSize, s.nextId, Others);
    case OtherReleases(b) =>
      OwnedIsReleased(s.owner, s.live, carried, s.at, s.poolNext, s.poolSize, s.nextId, b);
  }

  lemma OwnedIsReleased<T>(
    owner: map<nat, Owner>, live: map<nat, LiveBlock>, carried: Value, at: map<nat, Consumer<T>>, poolNext: nat,
    poolSize: nat, nextId: nat, b: nat)
    requires Owned(owner, live, carried, at, poolNext, poolSize, nextId) && b in owner && owner[b].Others?
    ensures Owned(owner[b := Recycled(b, poolSize)], live, carried, at, poolNext, poolSize, nextId)
  {
  }

  // ---------- Elements ----------

  lemma StoresMore<T>(
    elems: seq<T>, live: map<nat, LiveBlock>, counted: set<nat>, cells: map<(nat, nat), T>, gone: map<nat, nat>,
    exposed: nat, x: T)
    requires Stores(elems, live, counted, cells, NoBlock, gone, exposed)
    requires |elems| / BLOCK_SIZE in live && forall j, k | j in live && k in live && live[j].b == live[k].b :: j == k
    ensures Stores(elems + [x], live, counted, cells[(live[|elems| / BLOCK_SIZE].b, |elems| % BLOCK_SIZE) := x], NoBlock,
                   gone, exposed)
  {
  }

  lemma LiveBlocksDiffer<T>(
    owner: map<nat, Owner>, live: map<nat, LiveBlock>, carried: Value, at: map<nat, Consumer<T>>, poolNext: nat,
    poolSize: nat, nextId: nat)
    requires Owned(owner, live, carried, at, poolNext, poolSize, nextId)
    ensures forall j, k | j in live && k in live && live[j].b == live[k].b :: j == k
    ensures forall j | j in live :: carried != Block(live[j].b)
  {
  }

  lemma ConsumersSeeMore<T>(
    at: map<nat, Consumer<T>>, headers: seq<Header>, live: map<nat, LiveBlock>, counted: set<nat>, head: nat,
    elems: seq<T>, x: T)
    requires Consumes(at, headers, live, counted, head, elems)
    ensures Consumes(at, headers, live, counted, head, elems + [x])
  {
    hide FullyCounted, Slot;
    forall tid | tid in at
      ensures ConsumerFits(at[tid], headers, live, counted, head, elems + [x])
    {
      assert ConsumerFits(at[tid], headers, live, counted, head, elems);
    }
  }

  /** The block an element goes into is still the producer's: nobody can have counted an index not yet published. */
  lemma TailBlockIsLive<T>(s: State<T>)
    requires Inv(s) && s.tail < BLOCK_SIZE * s.exposed
    ensures s.exposed > 0 && s.tail / BLOCK_SIZE == s.exposed - 1
    ensures s.exposed - 1 in s.live && s.live[s.exposed - 1].b == s.tailBlock
  {
    hide Indexed, Consumes, Exclusive, Attended, Counts, Owned, Stores, Positioned, Pending;
    assert s.exposed - 1 in s.live <==> s.exposed - 1 !in s.released;
    assert s.tail !in s.counted;
  }

  lemma FillTailBlockKeeps<T>(s: State<T>, x: T)
    requires Inv(s) && Enabled(s, Fill(x)) && s.producer.Between?
    ensures Inv(NextOfProducer(s, Fill(x)))
  {
    hide HeadersFit, AllFrozen, Keyed, LiveFits, Consumes, Exclusive, Attended, Counts, Covers, Owned, Stores;
    hide Positioned, Pending;
    TailBlockIsLive(s);
    ConsumersSeeMore(s.at, s.headers, s.live, s.counted, s.head, s.elems, x);
    LiveBlocksDiffer(s.owner, s.live, NoBlock, s.at, s.poolNext, s.poolSize, s.nextId);
    StoresMore(s.elems, s.live, s.counted, s.cells, s.gone, s.exposed, x);
  }

  lemma StoresFirst<T>(
    elems: seq<T>, live: map<nat, LiveBlock>, counted: set<nat>, cells: map<(nat, nat), T>, gone: map<nat, nat>,
    exposed: nat, b: nat, x: T)
    requires Stores(elems, live, counted, cells, NoBlock, gone, exposed) && |elems| == BLOCK_SIZE * exposed
    requires forall j | j in live :: j < exposed && live[j].b != b
    ensures Stores(elems + [x], live, counted, cells[(b, 0) := x], Block(b), gone[b := 0], exposed)
  {
  }

  lemma CountsBesides(live: map<nat, LiveBlock>, gone: map<nat, nat>, counted: set<nat>, b: nat, n: nat)
    requires Counts(live, gone, counted) && forall j | j in live :: live[j].b != b
    ensures Counts(live, gone[b := n], counted)
  {
    hide CountedIn;
  }

  lemma LiveAreExposed<T>(s: State<T>)
    requires Indexed(s)
    ensures forall j | j in s.live :: j < s.exposed
  {
  }

  lemma FillNewBlockKeeps<T>(s: State<T>, x: T)
    requires Inv(s) && Enabled(s, Fill(x)) && s.producer.Got?
    ensures Inv(NextOfProducer(s, Fill(x)))
  {
    LiveAreExposed(s);
    hide HeadersFit, AllFrozen, Keyed, LiveFits, Consumes, Exclusive, Attended, Counts, Covers, Owned, Stores;
    var b := s.producer.b;
    LiveBlocksDiffer(s.owner, s.live, Block(b), s.at, s.poolNext, s.poolSize, s.nextId);
    ConsumersSeeMore(s.at, s.headers, s.live, s.counted, s.head, s.elems, x);
    StoresFirst(s.elems, s.live, s.counted, s.cells, s.gone, s.exposed, b, x);
    CountsBesides(s.live, s.gone, s.counted, b, 0);
  }

  lemma PublishKeeps<T>(s: State<T>)
    requires Inv(s) && Enabled(s, Publish)
    ensures Inv(NextOfProducer(s, Publish))
  {
    hide HeadersFit, AllFrozen, Keyed, LiveFits, Consumes, Exclusive;
    hide Attended, Counts, Owned, Stores, Positioned, Pending;
  }

  lemma ReachesExposed(h: Header, entryOf: seq<nat>, live: map<nat, LiveBlock>, j: nat, l: LiveBlock)
    requires Reaches(h, entryOf, live)
    requires h.top < j || (h.top == j && h.index[Slot(h, j)] == entryOf[j])
    ensures Reaches(h, entryOf, live[j := l])
  {
  }

  lemma EntriesExposed(entries: seq<Entry>, entryOf: seq<nat>, live: map<nat, LiveBlock>, j: nat, l: LiveBlock)
    requires Keyed(entries, entryOf, live) && LiveFits(entries, entryOf, live, j)
    requires |entryOf| == j + 1 && l.e == entryOf[j] && l.e < |entries| && entries[l.e].key == BLOCK_SIZE * j
    ensures var entries' := entries[l.e := entries[l.e].(value := Block(l.b))];
            Keyed(entries', entryOf, live[j := l]) && LiveFits(entries', entryOf, live[j := l], j + 1)
  {
  }

  lemma HeadersSeeExposed<T>(s: State<T>)
    requires Indexed(s) && Produces(s) && Enabled(s, Expose)
    ensures var r := NextOfProducer(s, Expose);
            HeadersFit(r.headers, r.entries, r.entryOf, r.live) && AllFrozen(r.headers, r.exposed)
  {
    var r := NextOfProducer(s, Expose);
    hide Keyed, LiveFits, Advances;
    forall k | 0 <= k < |s.headers|
      ensures HeaderFits(r.headers[k], r.entries) && Reaches(r.headers[k], r.entryOf, r.live)
    {
      assert HeaderFits(s.headers[k], s.entries) && Reaches(s.headers[k], s.entryOf, s.live);
      assert k < |s.headers| - 1 ==> Frozen(s.headers[k], s.exposed);
      hide Reaches;
      ReachesExposed(s.headers[k], s.entryOf, s.live, s.exposed, r.live[s.exposed]);
    }
  }

  lemma ExposeFits<T>(s: State<T>)
    requires Indexed(s) && Produces(s) && Enabled(s, Expose)
    ensures Indexed(NextOfProducer(s, Expose)) && Produces(NextOfProducer(s, Expose))
  {
    HeadersSeeExposed(s);
    EntriesExposed(s.entries, s.entryOf, s.live, s.exposed, LiveBlock(s.producer.e, s.producer.b));
    hide HeadersFit, AllFrozen, Keyed, LiveFits, Slot;
  }

  lemma ConsumersSeeExposed<T>(
    at: map<nat, Consumer<T>>, headers: seq<Header>, live: map<nat, LiveBlock>, counted: set<nat>, head: nat,
    elems: seq<T>, j: nat, l: LiveBlock)
    requires Consumes(at, headers, live, counted, head, elems) && j !in live
    ensures Consumes(at, headers, live[j := l], counted, head, elems)
  {
    hide FullyCounted, Slot;
    forall tid | tid in at
      ensures ConsumerFits(at[tid], headers, live[j := l], counted, head, elems)
    {
      assert ConsumerFits(at[tid], headers, live, counted, head, elems);
    }
  }

  lemma ExposedCounts(
    live: map<nat, LiveBlock>, gone: map<nat, nat>, counted: set<nat>, released: set<nat>, exposed: nat, head: nat,
    tail: nat, l: LiveBlock)
    requires Counts(live, gone, counted) && Covers(live, counted, released, exposed, head, tail)
    requires tail == BLOCK_SIZE * exposed && l.b in gone && gone[l.b] == 0
    ensures Counts(live[exposed := l], gone, counted)
    ensures Covers(live[exposed := l], counted, released, exposed + 1, head, tail)
  {
    assert CountedIn(counted, exposed) == {};
    hide CountedIn, FullyCounted;
  }

  lemma AttendedExposed<T>(
    at: map<nat, Consumer<T>>, live: map<nat, LiveBlock>, counted: set<nat>, exposed: nat, l: LiveBlock)
    requires Attended(at, live, counted) && BLOCK_SIZE * exposed !in counted
    ensures Attended(at, live[exposed := l], counted)
  {
  }

  lemma OwnedIsExposed<T>(
    owner: map<nat, Owner>, live: map<nat, LiveBlock>, at: map<nat, Consumer<T>>, poolNext: nat,
    poolSize: nat, nextId: nat, j: nat, e: nat, b: nat)
    requires Owned(owner, live, Block(b), at, poolNext, poolSize, nextId) && j !in live
    ensures Owned(owner[b := Mine(j)], live[j := LiveBlock(e, b)], NoBlock, at, poolNext, poolSize, nextId)
  {
  }

  lemma StoresExposed<T>(
    elems: seq<T>, live: map<nat, LiveBlock>, counted: set<nat>, cells: map<(nat, nat), T>, gone: map<nat, nat>,
    exposed: nat, b: nat, e: nat)
    requires Stores(elems, live, counted, cells, Block(b), gone, exposed)
    requires |elems| == BLOCK_SIZE * exposed + 1 && exposed !in live
    ensures Stores(elems, live[exposed := LiveBlock(e, b)], counted, cells, NoBlock, gone, exposed + 1)
  {
  }

  lemma ExposeKeeps<T>(s: State<T>)
    requires Inv(s) && Enabled(s, Expose)
    ensures Inv(NextOfProducer(s, Expose))
  {
    LiveAreExposed(s);
    ExposeFits(s);
    hide Indexed, Consumes, Exclusive, Attended, Counts, Owned, Positioned, Pending;
    var p := s.producer;
    AttendedExposed(s.at, s.live, s.counted, s.exposed, LiveBlock(p.e, p.b));
    hide Covers;
    ExposedCounts(s.live, s.gone, s.counted, s.released, s.exposed, s.head, s.tail, LiveBlock(p.e, p.b));
    hide Stores;
    ConsumersSeeExposed(s.at, s.headers, s.live, s.counted, s.head, s.elems, s.exposed, LiveBlock(p.e, p.b));
    OwnedIsExposed(s.owner, s.live, s.at, s.poolNext, s.poolSize, s.nextId, s.exposed, p.e, p.b);
    StoresExposed(s.elems, s.live, s.counted, s.cells, s.gone, s.exposed, p.b, p.e);
  }

  // ---------- A consumer finds its element ----------

  function PlaceOf<T>(at: map<nat, Consumer<T>>, tid: nat): Consumer<T> {
    if tid in at then at[tid] else Free
  }

  lemma AttendedMoves<T>(
      at: map<nat, Consumer<T>>, live: map<nat, LiveBlock>, counted: set<nat>, tid: nat, p: Consumer<T>)
    requires Attended(at, live, counted) && !PlaceOf(at, tid).WasLast?
    ensures Attended(at[tid := p], live, counted)
  {
    hide FullyCounted;
    var at' := at[tid := p];
    forall m | m in live && FullyCounted(counted, m)
      ensures exists t :: t in at' && at'[t].WasLast? && at'[t].i / BLOCK_SIZE == m
    {
      var t :| t in at && at[t].WasLast? && at[t].i / BLOCK_SIZE == m;
      assert at'[t].WasLast?;
    }
  }

  lemma OwnedMoves<T>(
    owner: map<nat, Owner>, live: map<nat, LiveBlock>, carried: Value, at: map<nat, Consumer<T>>, poolNext: nat,
    poolSize: nat, nextId: nat, tid: nat, p: Consumer<T>)
    requires Owned(owner, live, carried, at, poolNext, poolSize, nextId)
    requires !PlaceOf(at, tid).Releasing? && !p.Releasing?
    ensures Owned(owner, live, carried, at[tid := p], poolNext, poolSize, nextId)
  {
  }

  /** A step that only moves a consumer, which goes on holding the same index. */
  lemma ConsumerMoves<T>(s: State<T>, tid: nat, p: Consumer<T>)
    requires Inv(s) && s.At(tid).Holds() && p.Holds() && p.i == s.At(tid).i
    requires ConsumerFits(p, s.headers, s.live, s.counted, s.head, s.elems)
    ensures Inv(s.Move(tid, p))
  {
    hide HeadersFit, AllFrozen, Keyed, LiveFits, Positioned, Pending, Advances, Attended, Counts, Covers, Owned, Stores;
    hide ConsumerFits;
    AttendedMoves(s.at, s.live, s.counted, tid, p);
    OwnedMoves(s.owner, s.live, s.producer.Carried(), s.at, s.poolNext, s.poolSize, s.nextId, tid, p);
  }

  lemma ConsumerIs<T>(s: State<T>, tid: nat)
    requires Inv(s) && tid in s.at
    ensures ConsumerFits(s.at[tid], s.headers, s.live, s.counted, s.head, s.elems)
  {
  }

  /** An index claimed and not yet counted is in a live block, at or before the last one exposed. */
  lemma HeldIsLive<T>(s: State<T>, tid: nat)
    requires Inv(s) && s.At(tid).Holds()
    ensures var i := s.At(tid).i;
            && i < s.head <= s.tail <= |s.elems| && i !in s.counted
            && i / BLOCK_SIZE < s.exposed && i / BLOCK_SIZE in s.live
  {
    ConsumerIs(s, tid);
    hide Indexed, Consumes, Exclusive, Attended, Counts, Owned, Stores, Positioned, Pending, Slot;
    var j := s.At(tid).i / BLOCK_SIZE;
    assert j in s.live <==> j !in s.released;
  }

  /** The tail slot of any header is that of a block inserted there, no earlier than those a consumer may look for. */
  lemma TailSlotOf<T>(s: State<T>, h: nat)
    requires Inv(s) && h < |s.headers|
    ensures var jt := if h == |s.headers| - 1 then TailBlockNo(s) else s.headers[h].top;
            && s.headers[h].capacity > 0 && s.headers[h].tail == Slot(s.headers[h], jt)
            && jt <= s.headers[h].top && (h == |s.headers| - 1 ==> s.exposed - 1 <= jt)
  {
    hide HeadersFit, Keyed, LiveFits, Consumes, Exclusive, Attended;
    hide Counts, Covers, Owned, Stores, Pending, Advances, Slot;
    assert h < |s.headers| - 1 ==> Frozen(s.headers[h], s.exposed);
  }

  lemma LoadIndexKeeps<T>(s: State<T>, tid: nat)
    requires Inv(s) && Enabled(s, LoadIndex(tid))
    ensures Inv(NextOfConsumer(s, LoadIndex(tid)))
  {
    hide Inv, FullyCounted, Slot, TailBlockNo;
    HeldIsLive(s, tid);
    ConsumerIs(s, tid);
    TailSlotOf(s, |s.headers| - 1);
    ConsumerMoves(s, tid, HasIndex(s.At(tid).i, |s.headers| - 1));
  }

  lemma LoadSlotKeeps<T>(s: State<T>, tid: nat)
    requires Inv(s) && Enabled(s, LoadSlot(tid))
    ensures Inv(NextOfConsumer(s, LoadSlot(tid)))
  {
    hide Inv, FullyCounted, Slot, TailBlockNo;
    HeldIsLive(s, tid);
    ConsumerIs(s, tid);
    TailSlotOf(s, s.At(tid).h);
    ConsumerMoves(s, tid, NextOfConsumer(s, LoadSlot(tid)).At(tid));
  }

  /** From the oldest live block on, the slot of a block in any header leads to the entry keyed for it. */
  lemma SlotLeadsToKey<T>(s: State<T>, h: nat, m: nat, j: nat)
    requires Indexed(s) && h < |s.headers| && m in s.live && m <= j <= s.headers[h].top
    ensures s.headers[h].capacity > 0 && |s.headers[h].index| == s.headers[h].capacity
    ensures j < |s.entryOf| && s.headers[h].index[Slot(s.headers[h], j)] == s.entryOf[j]
    ensures s.entryOf[j] < |s.entries| && s.entries[s.entryOf[j]].key == BLOCK_SIZE * j
  {
    assert Reaches(s.headers[h], s.entryOf, s.live);
    hide Slot, AllFrozen, LiveFits;
  }

  lemma IndexHolds<T>(s: State<T>)
    requires Inv(s)
    ensures Indexed(s)
  {
  }

  lemma LoadBaseKeeps<T>(s: State<T>, tid: nat)
    requires Inv(s) && Enabled(s, LoadBase(tid))
    ensures Inv(NextOfConsumer(s, LoadBase(tid)))
  {
    hide Inv, Indexed, FullyCounted, Slot;
    HeldIsLive(s, tid);
    ConsumerIs(s, tid);
    var q := s.At(tid);
    IndexHolds(s);
    SlotLeadsToKey(s, q.h, q.i / BLOCK_SIZE, q.jt);
    ConsumerMoves(s, tid, HasBase(q.i, q.h, q.t, BLOCK_SIZE * q.jt, q.jt));
  }

  /** The consumer's arithmetic finds the slot of its own block, whichever tail it read. */
  lemma FoundSlotIsTheBlocks(h: Header, i: nat, jt: nat)
    requires h.capacity > 0
    ensures FoundSlot(i, Slot(h, jt), BLOCK_SIZE * jt, h.capacity) == Slot(h, i / BLOCK_SIZE)
  {
    Shifted(jt - h.first, i / BLOCK_SIZE - jt, h.capacity);
    assert jt - h.first + (i / BLOCK_SIZE - jt) == i / BLOCK_SIZE - h.first;
  }

  /** The look-up of get_block_index_entry_for_index: the entry has the right key and holds the index's own block. */
  lemma LookupSucceeds<T>(s: State<T>, tid: nat)
    requires Inv(s) && s.At(tid).HasBase?
    ensures var q := s.At(tid);
            var j := q.i / BLOCK_SIZE;
            && q.h < |s.headers| && Usable(s.headers[q.h], s.entries) && q.t < s.headers[q.h].capacity
            && j in s.live
            && s.headers[q.h].index[FoundSlot(q.i, q.t, q.base, s.headers[q.h].capacity)] == s.live[j].e
            && s.live[j].e < |s.entries| && s.entries[s.live[j].e] == Entry(BLOCK_SIZE * j, Block(s.live[j].b))
  {
    HeldIsLive(s, tid);
    ConsumerIs(s, tid);
    hide AllFrozen, Keyed, Consumes, Exclusive, Attended, Counts, Covers, Owned, Stores, Produces, FoundSlot;
    var q := s.At(tid);
    assert HeaderFits(s.headers[q.h], s.entries);
    hide HeadersFit, HeaderFits;
    SlotLeadsToKey(s, q.h, q.i / BLOCK_SIZE, q.i / BLOCK_SIZE);
    FoundSlotIsTheBlocks(s.headers[q.h], q.i, q.jt);
  }

  lemma LoadValueKeeps<T>(s: State<T>, tid: nat)
    requires Inv(s) && Enabled(s, LoadValue(tid))
    ensures Inv(NextOfConsumer(s, LoadValue(tid)))
  {
    hide Inv, FullyCounted, Slot, FoundSlot;
    LookupSucceeds(s, tid);
    ConsumerIs(s, tid);
    var q := s.At(tid);
    var l := s.live[q.i / BLOCK_SIZE];
    ConsumerMoves(s, tid, HasBlock(q.i, l.e, l.b));
  }

  lemma MoveOutFindsTheElement<T>(s: State<T>, tid: nat)
    requires Inv(s) && s.At(tid).HasBlock?
    ensures var q := s.At(tid);
            && (q.b, q.i % BLOCK_SIZE) in s.cells && q.i < |s.elems|
            && s.cells[(q.b, q.i % BLOCK_SIZE)] == s.elems[q.i]
  {
    HeldIsLive(s, tid);
    ConsumerIs(s, tid);
    hide Indexed, Consumes, Exclusive, Attended, Counts, Covers, Owned, Produces, Slot;
  }

  lemma MoveOutKeeps<T>(s: State<T>, tid: nat)
    requires Inv(s) && Enabled(s, MoveOut(tid))
    ensures Inv(NextOfConsumer(s, MoveOut(tid)))
  {
    hide Inv, FullyCounted, Slot;
    MoveOutFindsTheElement(s, tid);
    ConsumerIs(s, tid);
    var q := s.At(tid);
    ConsumerMoves(s, tid, Moved(q.i, q.e, q.b, s.elems[q.i]));
  }

  lemma ClaimKeeps<T>(s: State<T>, tid: nat)
    requires Inv(s) && Enabled(s, Claim(tid))
    ensures Inv(NextOfConsumer(s, Claim(tid)))
  {
    hide HeadersFit, AllFrozen, Keyed, LiveFits, Counts, Owned;
    hide Stores, Positioned, Pending, Advances, Slot, FullyCounted;
    hide Attended;
    AttendedMoves(s.at, s.live, s.counted, tid, Claimed(s.head));
    OwnedMoves(s.owner, s.live, s.producer.Carried(), s.at, s.poolNext, s.poolSize, s.nextId, tid, Claimed(s.head));
    forall i | i in s.at
      ensures ConsumerFits(s.at[i], s.headers, s.live, s.counted, s.head, s.elems)
    {
    }
  }

  // ---------- The last consumer of a block takes it out ----------

  function Indices(start: nat, n: nat): (r: set<nat>)
    ensures |r| == n && forall i :: i in r <==> start <= i < start + n
  {
    if n == 0 then {} else Indices(start, n - 1) + {start + n - 1}
  }

  lemma {:induction false} SubsetOfSameSize(a: set<nat>, b: set<nat>)
    requires a <= b && |a| == |b|
    ensures a == b
  {
    if a != b {
      var x :| x in b && x !in a;
      assert a <= b - {x};
      SubsetIsSmaller(a, b - {x});
    }
  }

  lemma {:induction false} SubsetIsSmaller(a: set<nat>, b: set<nat>)
    requires a <= b
    ensures |a| <= |b|
    decreases |a|
  {
    if a != {} {
      var x :| x in a;
      SubsetIsSmaller(a - {x}, b - {x});
    }
  }

  /** The count reaches BLOCK_SIZE exactly when every index of the block has been counted. */
  lemma FullCountIffFull(counted: set<nat>, j: nat)
    ensures |CountedIn(counted, j)| == BLOCK_SIZE <==> FullyCounted(counted, j)
  {
    hide Indices;
    var all := Indices(BLOCK_SIZE * j, BLOCK_SIZE);
    if |CountedIn(counted, j)| == BLOCK_SIZE {
      SubsetOfSameSize(CountedIn(counted, j), all);
      forall i | BLOCK_SIZE * j <= i < BLOCK_SIZE * (j + 1)
        ensures i in counted
      {
        assert i in all;
      }
    }
    if FullyCounted(counted, j) {
      assert CountedIn(counted, j) == all;
    }
  }

  lemma CountedInGrows(counted: set<nat>, i: nat, j: nat)
    requires i !in counted
    ensures |CountedIn(counted + {i}, j)| == |CountedIn(counted, j)| + if i / BLOCK_SIZE == j then 1 else 0
  {
    if i / BLOCK_SIZE == j {
      assert CountedIn(counted + {i}, j) == CountedIn(counted, j) + {i};
    } else {
      assert CountedIn(counted + {i}, j) == CountedIn(counted, j);
    }
  }

  lemma CountsOneMore(live: map<nat, LiveBlock>, gone: map<nat, nat>, counted: set<nat>, i: nat)
    requires Counts(live, gone, counted) && i !in counted && i / BLOCK_SIZE in live
    requires forall j, k | j in live && k in live && live[j].b == live[k].b :: j == k
    ensures var b := live[i / BLOCK_SIZE].b;
            && b in gone && Counts(live, gone[b := gone[b] + 1], counted + {i})
            && (gone[b] == BLOCK_SIZE - 1 <==> FullyCounted(counted + {i}, i / BLOCK_SIZE))
  {
    forall m | m in live
      ensures |CountedIn(counted + {i}, m)| == |CountedIn(counted, m)| + if i / BLOCK_SIZE == m then 1 else 0
    {
      CountedInGrows(counted, i, m);
    }
    FullCountIffFull(counted + {i}, i / BLOCK_SIZE);
    hide CountedIn, FullyCounted;
  }

  /** Counting one index leaves the other consumers what they hold. */
  lemma ConsumersSeeCount<T>(
    at: map<nat, Consumer<T>>, headers: seq<Header>, live: map<nat, LiveBlock>, counted: set<nat>, head: nat,
    elems: seq<T>, tid: nat, p: Consumer<T>)
    requires Consumes(at, headers, live, counted, head, elems) && Exclusive(at) && tid in at && at[tid].Moved?
    requires p.Free? || (p == WasLast(at[tid].i, at[tid].e, at[tid].b)
                         && FullyCounted(counted + {at[tid].i}, at[tid].i / BLOCK_SIZE))
    ensures Consumes(at[tid := p], headers, live, counted + {at[tid].i}, head, elems) && Exclusive(at[tid := p])
  {
    hide Slot;
    var i := at[tid].i;
    assert ConsumerFits(at[tid], headers, live, counted, head, elems);
    forall t | t in at && t != tid
      ensures ConsumerFits(at[t], headers, live, counted + {i}, head, elems)
      ensures p.WasLast? && at[t].WasLast? ==> at[t].i / BLOCK_SIZE != i / BLOCK_SIZE
    {
      assert ConsumerFits(at[t], headers, live, counted, head, elems);
    }
  }

  lemma AttendedCounts<T>(
    at: map<nat, Consumer<T>>, live: map<nat, LiveBlock>, counted: set<nat>, tid: nat, p: Consumer<T>)
    requires Attended(at, live, counted) && tid in at && at[tid].Moved?
    requires FullyCounted(counted + {at[tid].i}, at[tid].i / BLOCK_SIZE) ==> p.WasLast? && p.i == at[tid].i
    ensures Attended(at[tid := p], live, counted + {at[tid].i})
  {
    var i, at' := at[tid].i, at[tid := p];
    forall m | m in live && FullyCounted(counted + {i}, m)
      ensures exists t :: t in at' && at'[t].WasLast? && at'[t].i / BLOCK_SIZE == m
    {
      if FullyCounted(counted, m) {
        var t :| t in at && at[t].WasLast? && at[t].i / BLOCK_SIZE == m;
        assert at'[t].WasLast?;
      } else {
        assert m == i / BLOCK_SIZE by {
          if m != i / BLOCK_SIZE {
            forall x | BLOCK_SIZE * m <= x < BLOCK_SIZE * (m + 1)
              ensures x in counted
            {
              assert x in counted + {i} && x / BLOCK_SIZE == m;
            }
          }
        }
        assert at'[tid].WasLast?;
      }
    }
  }

  lemma CoversCounts<T>(
    elems: seq<T>, live: map<nat, LiveBlock>, gone: map<nat, nat>, counted: set<nat>, released: set<nat>, exposed: nat,
    head: nat, tail: nat, cells: map<(nat, nat), T>, loaded: Value, i: nat, b: nat, n: nat)
    requires Covers(live, counted, released, exposed, head, tail) && i < head && loaded != Block(b)
    requires Stores(elems, live, counted, cells, loaded, gone, exposed)
    ensures Covers(live, counted + {i}, released, exposed, head, tail)
    ensures Stores(elems, live, counted + {i}, cells, loaded, gone[b := n], exposed)
  {
  }

  lemma CarriedIsNotLive<T>(s: State<T>)
    requires Inv(s)
    ensures forall j, k | j in s.live && k in s.live && s.live[j].b == s.live[k].b :: j == k
    ensures forall j | j in s.live :: s.producer.Loaded() != Block(s.live[j].b)
  {
    hide Indexed, Produces, Consumes, Exclusive, Attended, Counts, Covers, Owned, Stores;
    LiveBlocksDiffer(s.owner, s.live, s.producer.Carried(), s.at, s.poolNext, s.poolSize, s.nextId);
  }

  lemma CountKeeps<T>(s: State<T>, tid: nat)
    requires Inv(s) && Enabled(s, Count(tid))
    ensures Inv(NextOfConsumer(s, Count(tid)))
  {
    hide HeadersFit, AllFrozen, Keyed, LiveFits, Positioned, Pending;
    hide Advances, Counts, Consumes, Exclusive, Attended, Owned, Slot;
    hide FullyCounted, Covers, Stores, Producer.Loaded, Producer.Carried;
    var q, r := s.At(tid), NextOfConsumer(s, Count(tid));
    HeldIsLive(s, tid);
    CarriedIsNotLive(s);
    assert s.live[q.i / BLOCK_SIZE].b == q.b by {
      ConsumerIs(s, tid);
    }
    CountsOneMore(s.live, s.gone, s.counted, q.i);
    ConsumersSeeCount(s.at, s.headers, s.live, s.counted, s.head, s.elems, tid, r.At(tid));
    AttendedCounts(s.at, s.live, s.counted, tid, r.At(tid));
    OwnedMoves(s.owner, s.live, s.producer.Carried(), s.at, s.poolNext, s.poolSize, s.nextId, tid, r.At(tid));
    CoversCounts(s.elems, s.live, s.gone, s.counted, s.released, s.exposed, s.head, s.tail, s.cells,
                 s.producer.Loaded(), q.i, q.b, s.gone[q.b] + 1);
  }

  // ---------- and gives it back ----------

  lemma ReachesForgets(h: Header, entryOf: seq<nat>, live: map<nat, LiveBlock>, j: nat)
    requires Reaches(h, entryOf, live)
    ensures Reaches(h, entryOf, live - {j})
  {
  }

  lemma EntriesForget(entries: seq<Entry>, entryOf: seq<nat>, live: map<nat, LiveBlock>, exposed: nat, j: nat)
    requires Keyed(entries, entryOf, live) && LiveFits(entries, entryOf, live, exposed) && j in live
    ensures var e := live[j].e;
            && e < |entries| && entries[e].key == BLOCK_SIZE * j
            && var entries' := entries[e := entries[e].(value := NoBlock)];
               Keyed(entries', entryOf, live - {j}) && LiveFits(entries', entryOf, live - {j}, exposed)
  {
  }

  lemma HeadersForget(
      headers: seq<Header>, entries: seq<Entry>, entries': seq<Entry>, entryOf: seq<nat>, live: map<nat, LiveBlock>,
      j: nat)
    requires HeadersFit(headers, entries, entryOf, live) && |entries'| == |entries|
    ensures HeadersFit(headers, entries', entryOf, live - {j})
  {
    forall k | 0 <= k < |headers|
      ensures HeaderFits(headers[k], entries') && Reaches(headers[k], entryOf, live - {j})
    {
      assert HeaderFits(headers[k], entries) && Reaches(headers[k], entryOf, live);
      hide Reaches;
      ReachesForgets(headers[k], entryOf, live, j);
    }
  }

  lemma PendingForgets(p: Producer, last: Header, entries: seq<Entry>, entryOf: seq<nat>, exposed: nat, e: nat)
    requires Pending(p, last, entries, entryOf, exposed) && e < |entries|
    ensures Pending(p, last, entries[e := entries[e].(value := NoBlock)], entryOf, exposed)
  {
  }

  lemma LastConsumer<T>(s: State<T>, tid: nat)
    requires Inv(s) && s.At(tid).WasLast?
    ensures var q := s.At(tid);
            var j := q.i / BLOCK_SIZE;
            j in s.live && s.live[j] == LiveBlock(q.e, q.b) && j < s.exposed && FullyCounted(s.counted, j)
    ensures Indexed(s) && Produces(s)
  {
    ConsumerIs(s, tid);
    LiveAreExposed(s);
    hide Indexed, Produces, Consumes, Exclusive, Attended, Counts, Covers, Owned, Stores, FullyCounted, Slot;
  }

  lemma ForgetFits<T>(s: State<T>, j: nat)
    requires Indexed(s) && Produces(s) && j in s.live && s.live[j].e < |s.entries|
    ensures var e := s.live[j].e;
            var r := s.(entries := s.entries[e := s.entries[e].(value := NoBlock)], live := s.live - {j});
            Indexed(r) && Produces(r)
  {
    hide HeadersFit, AllFrozen, Keyed, LiveFits, Positioned, Pending;
    var e := s.live[j].e;
    EntriesForget(s.entries, s.entryOf, s.live, s.exposed, j);
    HeadersForget(s.headers, s.entries, s.entries[e := s.entries[e].(value := NoBlock)], s.entryOf, s.live, j);
    PendingForgets(s.producer, s.Last(), s.entries, s.entryOf, s.exposed, e);
  }

  lemma ConsumersForget<T>(
    at: map<nat, Consumer<T>>, headers: seq<Header>, live: map<nat, LiveBlock>, counted: set<nat>, head: nat,
    elems: seq<T>, tid: nat, b: nat)
    requires Consumes(at, headers, live, counted, head, elems) && Exclusive(at) && tid in at && at[tid].WasLast?
    ensures Consumes(at[tid := Releasing(b)], headers, live - {at[tid].i / BLOCK_SIZE}, counted, head, elems)
    ensures Exclusive(at[tid := Releasing(b)])
  {
    hide Slot;
    var j := at[tid].i / BLOCK_SIZE;
    assert ConsumerFits(at[tid], headers, live, counted, head, elems);
    forall t | t in at && t != tid
      ensures ConsumerFits(at[t], headers, live - {j}, counted, head, elems)
    {
      assert ConsumerFits(at[t], headers, live, counted, head, elems);
    }
  }

  lemma AttendedForgets<T>(at: map<nat, Consumer<T>>, live: map<nat, LiveBlock>, counted: set<nat>, tid: nat, b: nat)
    requires Attended(at, live, counted) && tid in at && at[tid].WasLast?
    ensures Attended(at[tid := Releasing(b)], live - {at[tid].i / BLOCK_SIZE}, counted)
  {
    hide FullyCounted;
    var at' := at[tid := Releasing(b)];
    forall m | m in live && m != at[tid].i / BLOCK_SIZE && FullyCounted(counted, m)
      ensures exists t :: t in at' && at'[t].WasLast? && at'[t].i / BLOCK_SIZE == m
    {
      var t :| t in at && at[t].WasLast? && at[t].i / BLOCK_SIZE == m;
      assert at'[t].WasLast?;
    }
  }

  lemma CountsForgets<T>(
    elems: seq<T>, live: map<nat, LiveBlock>, gone: map<nat, nat>, counted: set<nat>, released: set<nat>, exposed: nat,
    head: nat, tail: nat, cells: map<(nat, nat), T>, loaded: Value, j: nat)
    requires Counts(live, gone, counted) && Covers(live, counted, released, exposed, head, tail)
    requires Stores(elems, live, counted, cells, loaded, gone, exposed)
    requires j < exposed && FullyCounted(counted, j)
    ensures Counts(live - {j}, gone, counted) && Covers(live - {j}, counted, released + {j}, exposed, head, tail)
    ensures Stores(elems, live - {j}, counted, cells, loaded, gone, exposed)
  {
    hide FullyCounted, CountedIn;
  }

  lemma OwnedIsForgotten<T>(
    owner: map<nat, Owner>, live: map<nat, LiveBlock>, carried: Value, at: map<nat, Consumer<T>>, poolNext: nat,
    poolSize: nat, nextId: nat, tid: nat, j: nat)
    requires Owned(owner, live, carried, at, poolNext, poolSize, nextId)
    requires j in live && !PlaceOf(at, tid).Releasing?
    ensures Owned(owner[live[j].b := Released(tid)], live - {j}, carried, at[tid := Releasing(live[j].b)], poolNext,
                  poolSize, nextId)
  {
  }

  /** The state with block j taken out of the index by the thread that counted its last element. */
  function Forgotten<T>(s: State<T>, tid: nat, j: nat): State<T>
    requires j in s.live && s.live[j].e < |s.entries|
  {
    var e, b := s.live[j].e, s.live[j].b;
    s.(entries := s.entries[e := s.entries[e].(value := NoBlock)], live := s.live - {j}, released := s.released + {j},
       owner := s.owner[b := Released(tid)], at := s.at[tid := Releasing(b)])
  }

  lemma ForgetForgets<T>(s: State<T>, tid: nat, j: nat)
    requires Enabled(s, Forget(tid)) && j == s.At(tid).i / BLOCK_SIZE
    requires j in s.live && s.live[j] == LiveBlock(s.At(tid).e, s.At(tid).b)
    ensures s.live[j].e < |s.entries| && NextOfConsumer(s, Forget(tid)) == Forgotten(s, tid, j)
  {
  }

  /** The index and the producer do not look at the consumers, the owners or what was released. */
  lemma SameIndex<T>(s: State<T>, r: State<T>)
    requires Indexed(s) && Produces(s)
    requires r == s.(at := r.at, owner := r.owner, released := r.released)
    ensures Indexed(r) && Produces(r)
  {
    hide HeadersFit, AllFrozen, Keyed, LiveFits, Positioned, Pending, Advances;
  }

  lemma ForgottenIndex<T>(s: State<T>, tid: nat, j: nat)
    requires Indexed(s) && Produces(s) && j in s.live && s.live[j].e < |s.entries|
    ensures Indexed(Forgotten(s, tid, j)) && Produces(Forgotten(s, tid, j))
  {
    hide Indexed, Produces;
    ForgetFits(s, j);
    var e := s.live[j].e;
    SameIndex(s.(entries := s.entries[e := s.entries[e].(value := NoBlock)], live := s.live - {j}), Forgotten(s, tid, j));
  }

  lemma ForgottenKeeps<T>(s: State<T>, tid: nat, j: nat)
    requires Inv(s) && tid in s.at && s.at[tid].WasLast? && j == s.at[tid].i / BLOCK_SIZE
    requires j in s.live && s.live[j] == LiveBlock(s.at[tid].e, s.at[tid].b) && s.live[j].e < |s.entries|
    requires j < s.exposed && FullyCounted(s.counted, j)
    ensures Inv(Forgotten(s, tid, j))
  {
    hide Indexed, Produces, Consumes, Exclusive, Attended, Counts, Covers, Owned, Stores, FullyCounted;
    hide Producer.Loaded, Producer.Carried;
    ForgottenIndex(s, tid, j);
    ConsumersForget(s.at, s.headers, s.live, s.counted, s.head, s.elems, tid, s.live[j].b);
    AttendedForgets(s.at, s.live, s.counted, tid, s.live[j].b);
    CountsForgets(s.elems, s.live, s.gone, s.counted, s.released, s.exposed, s.head, s.tail, s.cells,
                  s.producer.Loaded(), j);
    OwnedIsForgotten(s.owner, s.live, s.producer.Carried(), s.at, s.poolNext, s.poolSize, s.nextId, tid, j);
  }

  lemma ForgetKeeps<T>(s: State<T>, tid: nat)
    requires Inv(s) && Enabled(s, Forget(tid))
    ensures Inv(NextOfConsumer(s, Forget(tid)))
  {
    hide Inv, NextOfConsumer, Indexed, Produces, FullyCounted, Forgotten;
    LastConsumer(s, tid);
    var j := s.At(tid).i / BLOCK_SIZE;
    ForgetForgets(s, tid, j);
    ForgottenKeeps(s, tid, j);
  }

  lemma OwnedIsRecycled<T>(
    owner: map<nat, Owner>, live: map<nat, LiveBlock>, carried: Value, at: map<nat, Consumer<T>>, poolNext: nat,
    poolSize: nat, nextId: nat, tid: nat)
    requires Owned(owner, live, carried, at, poolNext, poolSize, nextId) && PlaceOf(at, tid).Releasing?
    ensures var b := at[tid].b;
            Owned(owner[b := Recycled(b, poolSize)], live, carried, at[tid := Free], poolNext, poolSize, nextId)
  {
  }

  lemma ReleaseKeeps<T>(s: State<T>, tid: nat)
    requires Inv(s) && Enabled(s, Release(tid))
    ensures Inv(NextOfConsumer(s, Release(tid)))
  {
    hide HeadersFit, AllFrozen, Keyed, LiveFits, Positioned, Pending, Advances, Attended, Counts, Covers, Owned, Stores;
    hide ConsumerFits;
    AttendedMoves(s.at, s.live, s.counted, tid, Free);
    OwnedIsRecycled(s.owner, s.live, s.producer.Carried(), s.at, s.poolNext, s.poolSize, s.nextId, tid);
    FreeFits<T>(s.headers, s.live, s.counted, s.head, s.elems);
  }

  lemma FreeFits<T>(headers: seq<Header>, live: map<nat, LiveBlock>, counted: set<nat>, head: nat, elems: seq<T>)
    ensures ConsumerFits<T>(Free, headers, live, counted, head, elems)
  {
  }
}