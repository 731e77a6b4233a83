/**
 * The blocks of one producer stream and the index that finds them, as a state machine: the producer, any number of
 * consumers that hold claimed indices, and other producers that share the block pool. One step per atomic operation
 * that another thread can see (ImplicitProducer::enqueue and dequeue, insert_block_index_entry, new_block_index,
 * get_block_index_index_for_index, requisition_block, add_block_to_free_list).
 */
module BlockIndex {

  const BLOCK_SIZE := 32
  const INITIAL_CAPACITY := 32
  const INVALID_BLOCK_BASE := 1

  datatype Value = NoBlock | Block(b: nat)

  datatype Entry = Entry(key: nat, value: Value)

  /**
   * capacity, tail and index are the code's fields; index holds entry identities, since headers share entries.
   * first and top are history: the block number that slot 0 stands for, and the last block inserted.
   */
  datatype Header = Header(capacity: nat, tail: nat, index: seq<nat>, first: int, top: int)

  /** The slot of block j in a header. */
  function Slot(h: Header, j: int): (s: nat)
    requires h.capacity > 0
    ensures s < h.capacity
  {
    (j - h.first) % h.capacity
  }

  /** Where the producer is in an enqueue that starts a block; e is the entry it will use, b the block it holds. */
  datatype Producer =
    | Between
    | NoRoom
    | FoundFree(e: nat)
    | KeyStored(e: nat)
    | Inserted(e: nat)
    | PoolSeen(e: nat)
    | PoolEmpty(e: nat)
    | FreeListEmpty(e: nat)
    | NoMemory(e: nat)
    | Rewound(e: nat)
    | Got(e: nat, b: nat)
    | Filled(e: nat, b: nat)
  {
    /** Its entry is keyed for the next block and the tail slot points at it. */
    predicate AtTail() {
      Inserted? || PoolSeen? || PoolEmpty? || FreeListEmpty? || NoMemory? || Got? || Filled?
    }

    predicate Keyed() {
      AtTail() || KeyStored? || Rewound?
    }

    /** The block it has taken and not yet put in the index. */
    function Carried(): Value {
      if Got? || Filled? then Block(b) else NoBlock
    }

    /** The same, once the first element is in it. */
    function Loaded(): Value {
      if Filled? then Block(b) else NoBlock
    }
  }

  /** Where a consumer is with its claimed index i; jt, the block its tail slot stood for, is history. */
  datatype Consumer<T> =
    | Free
    | Claimed(i: nat)
    | HasIndex(i: nat, h: nat)
    | HasSlot(i: nat, h: nat, t: nat, jt: nat)
    | HasBase(i: nat, h: nat, t: nat, base: nat, jt: nat)
    | HasBlock(i: nat, e: nat, b: nat)
    | Moved(i: nat, e: nat, b: nat, x: T)
    | WasLast(i: nat, e: nat, b: nat)
    | Releasing(b: nat)
  {
    /** It holds an index whose element it has not yet counted as gone. */
    predicate Holds() {
      Claimed? || HasIndex? || HasSlot? || HasBase? || HasBlock? || Moved?
    }
  }

  /** Who holds a block. */
  datatype Owner = Pool | FreeList | Mine(j: nat) | InHand | Released(tid: nat) | Others | Destroyed

  datatype LiveBlock = LiveBlock(e: nat, b: nat)

  /**
   * headers: all block index headers, the last one current; entries: the heap of entries; cells: element storage;
   * gone: elementsCompletelyDequeued of each block; poolNext and poolSize: the initial pool.
   * entryOf (the entry each block was inserted at), live (blocks in the index), exposed (blocks ever put there),
   * counted (indices counted as gone), released (blocks taken out) and owner are history.
   */
  datatype State<T> = State(
    headers: seq<Header>,
    entries: seq<Entry>,
    tail: nat,
    head: nat,
    tailBlock: nat,
    elems: seq<T>,
    cells: map<(nat, nat), T>,
    gone: map<nat, nat>,
    poolNext: nat,
    poolSize: nat,
    nextId: nat,
    producer: Producer,
    at: map<nat, Consumer<T>>,
    entryOf: seq<nat>,
    live: map<nat, LiveBlock>,
    exposed: nat,
    counted: set<nat>,
    released: set<nat>,
    owner: map<nat, Owner>)
  {
    function At(tid: nat): Consumer<T> {
      if tid in at then at[tid] else Free
    }

    function Move(tid: nat, p: Consumer<T>): State<T> {
      this.(at := at[tid := p])
    }

    function Last(): Header
      requires headers != []
    {
      headers[|headers| - 1]
    }
  }

  datatype Act<T> =
    | Probe
    | NewIndex(ok: bool, junk: seq<Value>)
    | StoreKey
    | StoreTail
    | LoadPool
    | FetchPool
    | TryFreeList(got: Value)
    | Create(ok: bool)
    | Rewind
    | ClearValue
    | Fill(x: T)
    | Expose
    | Publish
    | Claim(tid: nat)
    | LoadIndex(tid: nat)
    | LoadSlot(tid: nat)
    | LoadBase(tid: nat)
    | LoadValue(tid: nat)
    | MoveOut(tid: nat)
    | Count(tid: nat)
    | Forget(tid: nat)
    | Release(tid: nat)
    | OtherTakesPool
    | OtherTakesFree(b: nat)
    | OtherCreates
    | OtherReleases(b: nat)

  /** The block at an entry, when there is one. */
  function BlockIn(v: Value): nat {
    if v.Block? then v.b else 0
  }

  /** The slot the consumer computes: tail + (index - tailBase) / BLOCK_SIZE, round the ring. */
  function FoundSlot(i: nat, t: nat, base: nat, capacity: nat): nat
    requires capacity > 0
  {
    (t + (i / BLOCK_SIZE - base / BLOCK_SIZE)) % capacity
  }

  /** A header whose fields can be used as the code uses them. */
  ghost predicate Usable(h: Header, entries: seq<Entry>) {
    && h.capacity > 0 && |h.index| == h.capacity && h.tail < h.capacity
    && (forall s | 0 <= s < h.capacity :: h.index[s] < |entries|)
  }

  ghost predicate Enabled<T>(s: State<T>, a: Act<T>) {
    var p := s.producer;
    match a
    case Probe =>
      p.Between? && |s.elems| == s.tail && s.tail % BLOCK_SIZE == 0 && s.headers != [] && Usable(s.Last(), s.entries)
    case NewIndex(_, junk) =>
      p.NoRoom? && s.headers != [] && Usable(s.Last(), s.entries) && |junk| == s.Last().capacity
    case StoreKey => p.FoundFree? && s.headers != [] && p.e < |s.entries|
    case StoreTail => p.KeyStored? && s.headers != [] && Usable(s.Last(), s.entries)
    case LoadPool => p.Inserted?
    case FetchPool => p.PoolSeen?
    case TryFreeList(got) => p.PoolEmpty? && (got.Block? ==> got.b in s.owner && s.owner[got.b].FreeList?)
    case Create(_) => p.FreeListEmpty?
    case Rewind => p.NoMemory? && s.headers != [] && Usable(s.Last(), s.entries)
    case ClearValue => p.Rewound? && p.e < |s.entries|
    case Fill(_) => p.Got? || (p.Between? && |s.elems| == s.tail && s.tail % BLOCK_SIZE != 0)
    case Expose => p.Filled? && p.e < |s.entries|
    case Publish => p.Between? && |s.elems| == s.tail + 1
    case Claim(tid) => s.At(tid).Free? && s.head < s.tail
    case LoadIndex(tid) => s.At(tid).Claimed? && s.headers != []
    case LoadSlot(tid) => s.At(tid).HasIndex? && s.At(tid).h < |s.headers|
    case LoadBase(tid) =>
      var q := s.At(tid);
      q.HasSlot? && q.h < |s.headers| && Usable(s.headers[q.h], s.entries) && q.t < s.headers[q.h].capacity
    case LoadValue(tid) =>
      var q := s.At(tid);
      q.HasBase? && q.h < |s.headers| && Usable(s.headers[q.h], s.entries)
    case MoveOut(tid) => var q := s.At(tid); q.HasBlock? && (q.b, q.i % BLOCK_SIZE) in s.cells
    case Count(tid) => s.At(tid).Moved? && s.At(tid).b in s.gone
    case Forget(tid) => s.At(tid).WasLast? && s.At(tid).e < |s.entries|
    case Release(tid) => s.At(tid).Releasing?
    case OtherTakesPool => true
    case OtherTakesFree(b) => b in s.owner && s.owner[b].FreeList?
    case OtherCreates => true
    case OtherReleases(b) => b in s.owner && s.owner[b].Others?
  }

  /** The block the tail slot of the current header stands for. */
  function TailBlockNo<T>(s: State<T>): int {
    if s.producer.AtTail() then s.exposed else s.exposed - 1
  }

  /** new_block_index: the old slots in ring order from the oldest, then as many fresh ones. */
  function Grown(h: Header, spare: nat): Header
    requires h.capacity > 0 && |h.index| == h.capacity
  {
    var index := seq(2 * h.capacity, s requires 0 <= s < 2 * h.capacity =>
                       if s < h.capacity then h.index[(h.tail + 1 + s) % h.capacity] else spare + (s - h.capacity));
    Header(2 * h.capacity, h.capacity - 1, index, h.top + 1 - h.capacity, h.top)
  }

  /** What add_block_to_free_list does with a block: only blocks of the initial pool are recycled. */
  function Recycled(b: nat, poolSize: nat): Owner {
    if b < poolSize then FreeList else Destroyed
  }

  function FetchedPool<T>(s: State<T>, taker: Owner): State<T> {
    var r := s.(poolNext := s.poolNext + 1);
    if s.poolNext < s.poolSize then r.(owner := s.owner[s.poolNext := taker]) else r
  }

  function Created<T>(s: State<T>, taker: Owner): State<T> {
    s.(nextId := s.nextId + 1, owner := s.owner[s.nextId := taker])
  }

  ghost function NextOfProducer<T>(s: State<T>, a: Act<T>): State<T>
    requires Enabled(s, a)
    requires a.Probe? || a.NewIndex? || a.StoreKey? || a.StoreTail? || a.LoadPool? || a.FetchPool? || a.TryFreeList?
             || a.Create? || a.Rewind? || a.ClearValue? || a.Fill? || a.Expose? || a.Publish?
  {
    var p := s.producer;
    match a
    case Probe =>
      var h := s.Last();
      var e := h.index[(h.tail + 1) % h.capacity];
      if s.entries[e].key == INVALID_BLOCK_BASE || s.entries[e].value.NoBlock?
      then s.(producer := FoundFree(e)) else s.(producer := NoRoom)
    case NewIndex(ok, junk) =>
      if !ok then s.(producer := Between)
      else
        var h := Grown(s.Last(), |s.entries|);
        s.(headers := s.headers + [h],
           entries := s.entries + seq(|junk|, i requires 0 <= i < |junk| => Entry(INVALID_BLOCK_BASE, junk[i])),
           producer := FoundFree(h.index[s.Last().capacity]))
    case StoreKey =>
      var h := s.Last();
      s.(entries := s.entries[p.e := Entry(s.tail, s.entries[p.e].value)],
         producer := KeyStored(p.e),
         entryOf := if |s.entryOf| == s.exposed then s.entryOf + [p.e] else s.entryOf,
         headers := s.headers[|s.headers| - 1 := h.(top := s.exposed)])
    case StoreTail =>
      var h := s.Last();
      s.(headers := s.headers[|s.headers| - 1 := h.(tail := (h.tail + 1) % h.capacity)], producer := Inserted(p.e))
    case LoadPool => s.(producer := if s.poolNext >= s.poolSize then PoolEmpty(p.e) else PoolSeen(p.e))
    case FetchPool =>
      FetchedPool(s, InHand).(producer := if s.poolNext < s.poolSize then Got(p.e, s.poolNext) else PoolEmpty(p.e))
    case TryFreeList(got) =>
      if got.Block? then s.(owner := s.owner[got.b := InHand], producer := Got(p.e, got.b))
      else s.(producer := FreeListEmpty(p.e))
    case Create(ok) =>
      if ok then Created(s, InHand).(producer := Got(p.e, s.nextId)) else s.(producer := NoMemory(p.e))
    case Rewind =>
      var h := s.Last();
      s.(headers := s.headers[|s.headers| - 1 := h.(tail := (h.tail - 1) % h.capacity)], producer := Rewound(p.e))
    case ClearValue => s.(entries := s.entries[p.e := s.entries[p.e].(value := NoBlock)], producer := Between)
    case Fill(x) =>
      if p.Got?
      then s.(gone := s.gone[p.b := 0], cells := s.cells[(p.b, 0) := x], elems := s.elems + [x],
              producer := Filled(p.e, p.b))
      else s.(cells := s.cells[(s.tailBlock, s.tail % BLOCK_SIZE) := x], elems := s.elems + [x])
    case Expose =>
      s.(entries := s.entries[p.e := s.entries[p.e].(value := Block(p.b))], tailBlock := p.b, producer := Between,
         live := s.live[s.exposed := LiveBlock(p.e, p.b)], exposed := s.exposed + 1,
         owner := s.owner[p.b := Mine(s.exposed)])
    case Publish => s.(tail := s.tail + 1)
  }

  ghost function NextOfConsumer<T>(s: State<T>, a: Act<T>): State<T>
    requires Enabled(s, a)
    requires a.Claim? || a.LoadIndex? || a.LoadSlot? || a.LoadBase? || a.LoadValue? || a.MoveOut? || a.Count?
             || a.Forget? || a.Release?
  {
    var q := s.At(a.tid);
    match a
    case Claim(tid) => s.Move(tid, Claimed(s.head)).(head := s.head + 1)
    case LoadIndex(tid) => s.Move(tid, HasIndex(q.i, |s.headers| - 1))
    case LoadSlot(tid) =>
      var jt := if q.h == |s.headers| - 1 then TailBlockNo(s) else s.headers[q.h].top;
      s.Move(tid, HasSlot(q.i, q.h, s.headers[q.h].tail, if jt < 0 then 0 else jt))
    case LoadBase(tid) => s.Move(tid, HasBase(q.i, q.h, q.t, s.entries[s.headers[q.h].index[q.t]].key, q.jt))
    case LoadValue(tid) =>
      var h := s.headers[q.h];
      var e := h.index[FoundSlot(q.i, q.t, q.base, h.capacity)];
      s.Move(tid, HasBlock(q.i, e, BlockIn(s.entries[e].value)))
    case MoveOut(tid) => s.Move(tid, Moved(q.i, q.e, q.b, s.cells[(q.b, q.i % BLOCK_SIZE)]))
    case Count(tid) =>
      var r := s.(gone := s.gone[q.b := s.gone[q.b] + 1], counted := s.counted + {q.i});
      r.Move(tid, if s.gone[q.b] == BLOCK_SIZE - 1 then WasLast(q.i, q.e, q.b) else Free)
    case Forget(tid) =>
      var j := q.i / BLOCK_SIZE;
      s.Move(tid, Releasing(q.b))
       .(entries := s.entries[q.e := s.entries[q.e].(value := NoBlock)], live := s.live - {j},
         released := s.released + {j}, owner := s.owner[q.b := Released(tid)])
    case Release(tid) => s.Move(tid, Free).(owner := s.owner[q.b := Recycled(q.b, s.poolSize)])
  }

  ghost function NextOfOthers<T>(s: State<T>, a: Act<T>): State<T>
    requires Enabled(s, a) && (a.OtherTakesPool? || a.OtherTakesFree? || a.OtherCreates? || a.OtherReleases?)
  {
    match a
    case OtherTakesPool => FetchedPool(s, Others)
    case OtherTakesFree(b) => s.(owner := s.owner[b := Others])
    case OtherCreates => Created(s, Others)
    case OtherReleases(b) => s.(owner := s.owner[b := Recycled(b, s.poolSize)])
  }

  ghost function Next<T>(s: State<T>, a: Act<T>): State<T>
    requires Enabled(s, a)
  {
    match a
    case Claim(_) | LoadIndex(_) | LoadSlot(_) | LoadBase(_) | LoadValue(_) | MoveOut(_) | Count(_) | Forget(_)
       | Release(_) => NextOfConsumer(s, a)
    case OtherTakesPool | OtherTakesFree(_) | OtherCreates | OtherReleases(_) => NextOfOthers(s, a)
    case Probe | NewIndex(_, _) | StoreKey | StoreTail | LoadPool | FetchPool | TryFreeList(_) | Create(_) | Rewind
       | ClearValue | Fill(_) | Expose | Publish => NextOfProducer(s, a)
  }
}
