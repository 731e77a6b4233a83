/** The queue's counters are 64-bit words that wrap around: where the word arithmetic agrees with unbounded indices. */
module WrapAround {
  import opened DequeueProtocol
  import opened Ring

  const WORD := 0x1_0000_0000_0000_0000
  const HALF := 0x8000_0000_0000_0000
  const BLOCK_SIZE := 32

  function Wrap(n: int): (w: nat)
    ensures w < WORD
  {
    n % WORD
  }

  lemma WrapDifference(x: int, y: int)
    ensures Wrap(Wrap(x) - Wrap(y)) == Wrap(x - y)
  {
  }

  lemma WrapSum(x: int, y: int)
    ensures Wrap(Wrap(x) + y) == Wrap(x + y)
  {
  }

  lemma WrapKeepsAlignment(x: nat)
    ensures Wrap(x) % BLOCK_SIZE == x % BLOCK_SIZE
  {
  }

  /** circular_less_than on 64-bit words. */
  predicate CircularLess(a: nat, b: nat) {
    Wrap(a - b) > HALF
  }

  /** The exact range in which it means less-than: the true difference must fit in half a word. */
  lemma CircularLessIsLessIff(x: nat, y: nat)
    requires -WORD < x - y < WORD
    ensures (CircularLess(Wrap(x), Wrap(y)) <==> x < y) <==> y - x < HALF && x - y <= HALF
  {
    WrapDifference(x, y);
  }

  /** size_approx on words, with the head possibly read after it has passed the tail that was read. */
  lemma SizeApproxIsTheDifference(tail: nat, head: nat)
    requires -HALF < tail - head < HALF
    ensures (if CircularLess(Wrap(head), Wrap(tail)) then Wrap(Wrap(tail) - Wrap(head)) else 0)
         == if head < tail then tail - head else 0
  {
    CircularLessIsLessIff(head, tail);
  }

  // ---------- The protocol on words ----------

  /** The counters and the dequeuers' locals, as words. */
  datatype Words = Words(built: bool, tail: nat, head: nat, opt: nat, over: nat, at: map<nat, Place>)
  {
    function At(tid: nat): Place {
      if tid in at then at[tid] else Idle
    }
  }

  function WrapPlace(p: Place): Place {
    match p
    case Idle => Idle
    case SawTail(t) => SawTail(Wrap(t))
    case SawOver(t, o) => SawOver(Wrap(t), Wrap(o))
    case Ready(o) => Ready(Wrap(o))
    case Drew(o, m) => Drew(Wrap(o), Wrap(m))
    case MayClaim(m) => MayClaim(Wrap(m))
    case MustUndo(m) => MustUndo(Wrap(m))
    case Reading(k) => Reading(Wrap(k))
  }

  function WrapPlaces(at: map<nat, Place>): map<nat, Place> {
    map tid | tid in at :: WrapPlace(at[tid])
  }

  function Wrapped<T>(s: Stream<T>): Words {
    Words(|s.elems| > s.tail, Wrap(s.tail), Wrap(s.head), Wrap(s.opt), Wrap(s.over), WrapPlaces(s.at))
  }

  /** One step of the code as it computes, on words; an enqueue that finds no room does nothing. */
  ghost function WordStep<T>(w: Words, a: Act<T>): Words {
    match a
    case Construct(_) =>
      if w.tail % BLOCK_SIZE == 0 && !CircularLess(w.head, Wrap(w.tail + BLOCK_SIZE)) then w else w.(built := true)
    case Publish => w.(built := false, tail := Wrap(w.tail + 1))
    case LoadTail(tid) => w.(at := w.at[tid := SawTail(w.tail)])
    case LoadOver(tid) => if w.At(tid).SawTail? then w.(at := w.at[tid := SawOver(w.At(tid).tail, w.over)]) else w
    case LoadOptimistic(tid) =>
      var p := w.At(tid);
      if !p.SawOver? then w
      else w.(at := w.at[tid := if CircularLess(Wrap(w.opt - p.over), p.tail) then Ready(p.over) else Idle])
    case Draw(tid) =>
      if w.At(tid).Ready?
      then w.(opt := Wrap(w.opt + 1), at := w.at[tid := Drew(w.At(tid).over, w.opt)]) else w
    case ReloadTail(tid) =>
      var p := w.At(tid);
      if !p.Drew? then w
      else w.(at := w.at[tid := if CircularLess(Wrap(p.m - p.over), w.tail) then MayClaim(p.m) else MustUndo(p.m)])
    case Claim(tid) => w.(head := Wrap(w.head + 1), at := w.at[tid := Reading(w.head)])
    case Undo(tid) => w.(over := Wrap(w.over + 1), at := w.at[tid := Idle])
    case Take(tid) => w.(at := w.at[tid := Idle])
  }

  predicate Close(x: int, y: int) {
    -HALF < x - y < HALF
  }

  /**
   * The live differences fit in half a word: the queue is shorter than that, and no dequeuer sleeps through
   * half a word of tickets or elements between its loads and its tests.
   */
  ghost predicate Live<T>(s: Stream<T>) {
    && s.tail + BLOCK_SIZE - s.head < HALF
    && (forall tid | tid in s.at && s.at[tid].SawOver? :: Close(s.opt - s.at[tid].over, s.at[tid].tail))
    && (forall tid | tid in s.at && s.at[tid].Drew? :: Close(s.at[tid].m - s.at[tid].over, s.tail))
  }

  lemma WrapPlacesUpdate(at: map<nat, Place>, tid: nat, p: Place)
    ensures WrapPlaces(at[tid := p]) == WrapPlaces(at)[tid := WrapPlace(p)]
  {
  }

  lemma AtWrapped<T>(s: Stream<T>, tid: nat)
    ensures Wrapped(s).At(tid) == WrapPlace(s.At(tid))
  {
  }

  /** A test of the code, on words and on unbounded indices. */
  lemma TestAgrees(count: nat, over: nat, tail: nat)
    requires over <= count && Close(count - over, tail)
    ensures CircularLess(Wrap(Wrap(count) - Wrap(over)), Wrap(tail)) <==> count - over < tail
  {
    WrapDifference(count, over);
    CircularLessIsLessIff(count - over, tail);
    hide Wrap, CircularLess;
  }

  lemma RoomTestAgrees<T>(s: Stream<T>)
    requires Inv(s) && Live(s)
    ensures CircularLess(Wrap(s.head), Wrap(Wrap(s.tail) + BLOCK_SIZE))
  {
    hide Wrap, CircularLess;
    WinnersFit(s.tickets, s.tail);
    WrapSum(s.tail, BLOCK_SIZE);
    CircularLessIsLessIff(s.head, s.tail + BLOCK_SIZE);
  }

  /** The code's own room test refuses an enqueue exactly where the queue would grow past half a word. */
  lemma EnqueueIsRefusedIff<T>(s: Stream<T>, x: T)
    requires Inv(s) && |s.elems| == s.tail && s.tail + BLOCK_SIZE - s.head < WORD
    ensures WordStep(Wrapped(s), Construct(x)) == Wrapped(s)
            <==> s.tail % BLOCK_SIZE == 0 && s.tail + BLOCK_SIZE - s.head >= HALF
  {
    WinnersFit(s.tickets, s.tail);
    hide Inv, CircularLess, Wrap;
    WrapSum(s.tail, BLOCK_SIZE);
    CircularLessIsLessIff(s.head, s.tail + BLOCK_SIZE);
    WrapKeepsAlignment(s.tail);
  }

  lemma EnqueueSimulates<T>(s: Stream<T>, a: Act<T>)
    requires Inv(s) && Live(s) && Enabled(s, a) && (a.Construct? || a.Publish?)
    ensures WordStep(Wrapped(s), a) == Wrapped(Next(s, a))
  {
    hide Live, Roomy, Served, PlacesHold, Counted, OneHolder, CircularLess, WrapPlaces, Wrap;
    RoomTestAgrees(s);
    WrapSum(s.tail, 1);
  }

  /** Neither test subtracts below zero, and its operands are close. */
  lemma TestedAreClose<T>(s: Stream<T>, a: Act<T>)
    requires Inv(s) && Live(s) && Enabled(s, a) && (a.LoadOptimistic? || a.ReloadTail?)
    ensures var p := s.At(a.tid);
            var count, tail := if p.SawOver? then s.opt else p.m, if p.SawOver? then p.tail else s.tail;
            p.over <= count && Close(count - p.over, tail)
  {
    hide Count, Roomy, Served, OneHolder;
    var p := s.At(a.tid);
    assert a.tid in s.at && Holdable(p, s.tail, s.over, s.tickets);
    assert s.over <= s.opt == |s.tickets|;
  }

  lemma OptimisticSimulates<T>(s: Stream<T>, a: Act<T>)
    requires Inv(s) && Live(s) && Enabled(s, a) && a.LoadOptimistic?
    ensures WordStep(Wrapped(s), a) == Wrapped(Next(s, a))
  {
    hide Inv, Live, Wrap, CircularLess, WrapPlaces;
    var p := s.At(a.tid);
    TestedAreClose(s, a);
    TestAgrees(s.opt, p.over, p.tail);
    AtWrapped(s, a.tid);
    WrapPlacesUpdate(s.at, a.tid, Next(s, a).At(a.tid));
  }

  lemma ReloadSimulates<T>(s: Stream<T>, a: Act<T>)
    requires Inv(s) && Live(s) && Enabled(s, a) && a.ReloadTail?
    ensures WordStep(Wrapped(s), a) == Wrapped(Next(s, a))
  {
    hide Inv, Live, Wrap, CircularLess, WrapPlaces;
    var p := s.At(a.tid);
    TestedAreClose(s, a);
    TestAgrees(p.m, p.over, s.tail);
    AtWrapped(s, a.tid);
    WrapPlacesUpdate(s.at, a.tid, Next(s, a).At(a.tid));
  }

  lemma CountSimulates<T>(s: Stream<T>, a: Act<T>)
    requires Enabled(s, a)
    requires a.LoadTail? || a.LoadOver? || a.Draw? || a.Claim? || a.Undo? || a.Take?
    ensures WordStep(Wrapped(s), a) == Wrapped(Next(s, a))
  {
    hide WrapPlaces, Wrap, CircularLess;
    AtWrapped(s, a.tid);
    WrapPlacesUpdate(s.at, a.tid, Next(s, a).At(a.tid));
    WrapSum(s.opt, 1);
    WrapSum(s.head, 1);
    WrapSum(s.over, 1);
  }

  /** While the live differences fit, every step on words is the step on unbounded indices, wrapped. */
  lemma WordsSimulate<T>(s: Stream<T>, a: Act<T>)
    requires Inv(s) && Live(s) && Enabled(s, a)
    ensures WordStep(Wrapped(s), a) == Wrapped(Next(s, a))
  {
    hide Inv, Live, Enabled, Next, WordStep, Wrapped;
    match a
    case Construct(_) | Publish => EnqueueSimulates(s, a);
    case LoadOptimistic(_) => OptimisticSimulates(s, a);
    case ReloadTail(_) => ReloadSimulates(s, a);
    case LoadTail(_) | LoadOver(_) | Draw(_) | Claim(_) | Undo(_) | Take(_) => CountSimulates(s, a);
  }

  ghost function WordsAfter<T>(acts: seq<Act<T>>): Words {
    if acts == [] then Words(false, 0, 0, 0, 0, map[])
    else WordStep(WordsAfter(acts[..|acts| - 1]), acts[|acts| - 1])
  }

  ghost predicate AlwaysLive<T>(acts: seq<Act<T>>)
    requires Runs(acts)
  {
    Live(After(acts)) && (acts != [] ==> AlwaysLive(acts[..|acts| - 1]))
  }

  /**
   * Hence whole runs agree, through any number of wrap-arounds: the code's words are the unbounded counters mod
   * 2^64.
   */
  lemma {:induction false} RunsOnWordsAgree<T>(acts: seq<Act<T>>)
    requires Runs(acts) && AlwaysLive(acts)
    ensures WordsAfter(acts) == Wrapped(After(acts))
  {
    hide Inv, Live, Enabled, Next, WordStep;
    if acts == [] {
      assert WrapPlaces(map[]) == map[];
    } else {
      hide Wrapped;
      var before := acts[..|acts| - 1];
      RunsOnWordsAgree(before);
      EveryRunKeepsInv(before);
      WordsSimulate(After(before), acts[|acts| - 1]);
    }
  }

  // ---------- Finding a block ----------

  /** index & ~(BLOCK_SIZE - 1). */
  function BlockStart(index: nat): nat {
    index - index % BLOCK_SIZE
  }

  lemma BlockStartWraps(index: nat)
    ensures BlockStart(Wrap(index)) == Wrap(BlockStart(index))
  {
    var w := Wrap(index);
    WrapKeepsAlignment(index);
    RemainderIsUnique(BlockStart(index), WORD, index / WORD, BlockStart(w));
  }

  /** The word read as a signed number. */
  function Signed(w: nat): int {
    if w < HALF then w else w - WORD
  }

  /** Division that truncates toward zero, as C++ divides signed numbers. */
  function Truncated(x: int, y: nat): int
    requires y > 0
  {
    if x >= 0 then x / y else -((-x) / y)
  }

  /** get_block_index_index_for_index: the slot of a block, counted from the index's tail slot, on words. */
  function SlotOf(index: nat, tailBase: nat, tailSlot: nat, capacity: nat): nat
    requires capacity > 0
  {
    var offset := Wrap(Truncated(Signed(Wrap(index - tailBase)), BLOCK_SIZE));
    Wrap(tailSlot + offset) % capacity
  }

  /** A capacity that divides the word length sees no difference between a number and its word. */
  lemma WrapKeepsRemainders(x: int, capacity: nat, times: nat)
    requires capacity > 0 && times * capacity == WORD
    ensures Wrap(x) % capacity == x % capacity
  {
    var q := x / WORD;
    assert q * WORD == (q * times) * capacity;
    MultiplesVanish(Wrap(x), capacity, q * times);
  }

  lemma SignedUndoesWrap(x: int)
    requires -HALF < x < HALF
    ensures Signed(Wrap(x)) == x
  {
  }

  /**
   * The signed division finds the slot the unbounded indices name: blocks before the tail are found backwards
   * round the ring, also when the tail's index has wrapped and the block's has not.
   */
  lemma SlotOfAgrees(index: nat, tailBlock: nat, tailSlot: nat, capacity: nat, times: nat)
    requires capacity > 0 && times * capacity == WORD && tailSlot < capacity
    requires Close(BlockStart(index), tailBlock * BLOCK_SIZE)
    ensures SlotOf(BlockStart(Wrap(index)), Wrap(tailBlock * BLOCK_SIZE), tailSlot, capacity)
         == (tailSlot + index / BLOCK_SIZE - tailBlock) % capacity
  {
    var blocks := index / BLOCK_SIZE - tailBlock;
    BlockStartWraps(index);
    WrapDifference(BlockStart(index), tailBlock * BLOCK_SIZE);
    SignedUndoesWrap(blocks * BLOCK_SIZE);
    assert Truncated(blocks * BLOCK_SIZE, BLOCK_SIZE) == blocks;
    assert Wrap(tailSlot + Wrap(blocks)) == Wrap(tailSlot + blocks) by {
      WrapSum(blocks, tailSlot);
    }
    hide Wrap;
    WrapKeepsRemainders(tailSlot + blocks, capacity, times);
  }
}
