/**
 * The parts of the queue put together: the ticket protocol, the block index and the compare-and-swap free list run
 * side by side, a claim taken through the one and a block got and given back through the other. Each thread goes by
 * what it knows itself; that the parts never refuse it is proved.
 */
module JointQueue {
  import D = DequeueProtocol
  import B = BlockIndex
  import S = BlockIndexSafety
  import T = BlockIndexTheorems
  import F = FreeList

  datatype Joint<X> = Joint(stream: D.Stream<X>, blocks: B.State<X>, free: F.State)

  /** A step of one part, or one step that two parts see; who is the thread number in the free list. */
  datatype Act<X> =
    | Ticket(d: D.Act<X>)
    | Claim(tid: nat)
    | Take(tid: nat)
    | Fill(x: X)
    | Publish
    | Inside(step: B.Act<X>)
    | GiveBack(tid: nat, who: nat)
    | OthersGiveBack(b: nat, who: nat)
    | Reuse(who: nat)
    | OthersReuse(who: nat)
    | ListStep(f: F.Act)

  datatype Option<A> = None | Some(value: A)

  predicate OfTickets<X>(d: D.Act<X>) {
    d.LoadTail? || d.LoadOver? || d.LoadOptimistic? || d.Draw? || d.ReloadTail? || d.Undo?
  }

  /** The block machine's steps that no other part sees; only blocks of the initial pool go to the free list. */
  predicate OfBlocks<X>(s: B.State<X>, b: B.Act<X>) {
    && !b.Claim? && !b.MoveOut? && !b.Fill? && !b.Publish? && !b.OtherTakesFree?
    && (b.TryFreeList? ==> b.got.NoBlock?)
    && (b.Release? ==> s.At(b.tid).Releasing? && s.At(b.tid).b >= s.poolSize)
    && (b.OtherReleases? ==> b.b >= s.poolSize)
  }

  predicate IdleInList(s: F.State, who: nat) {
    who < F.MAX_THREADS && s.At(who).Idle?
  }

  predicate HasPopped(s: F.State, who: nat) {
    who < F.MAX_THREADS && s.At(who).Popped?
  }

  /** What the thread that acts knows itself: where it stands, never what the other parts must have seen to. */
  ghost predicate Willing<X>(s: Joint<X>, a: Act<X>) {
    match a
    case Ticket(d) => OfTickets(d) && D.Enabled(s.stream, d) && (d.LoadTail? ==> s.blocks.At(d.tid).Free?)
    case Claim(tid) => s.stream.At(tid).MayClaim?
    case Take(tid) => s.blocks.At(tid).HasBlock?
    case Fill(x) => B.Enabled(s.blocks, B.Fill(x))
    case Publish => B.Enabled(s.blocks, B.Publish)
    case Inside(step) => OfBlocks(s.blocks, step) && B.Enabled(s.blocks, step)
    case GiveBack(tid, who) =>
      s.blocks.At(tid).Releasing? && s.blocks.At(tid).b < s.blocks.poolSize && IdleInList(s.free, who)
    case OthersGiveBack(b, who) =>
      b in s.blocks.owner && s.blocks.owner[b].Others? && b < s.blocks.poolSize && IdleInList(s.free, who)
    case Reuse(who) => s.blocks.producer.PoolEmpty? && HasPopped(s.free, who)
    case OthersReuse(who) => HasPopped(s.free, who)
    case ListStep(f) => !f.Add? && !f.DropTwo? && F.Enabled(s.free, f)
  }

  function StreamAct<X>(s: Joint<X>, a: Act<X>): Option<D.Act<X>> {
    match a
    case Ticket(d) => Some(d)
    case Claim(tid) => Some(D.Claim(tid))
    case Take(tid) => Some(D.Take(tid))
    case Fill(x) => Some(D.Construct(x))
    case Publish => Some(D.Publish)
    case _ => None
  }

  ghost function BlocksAct<X>(s: Joint<X>, a: Act<X>): Option<B.Act<X>>
    requires Willing(s, a)
  {
    match a
    case Claim(tid) => Some(B.Claim(tid))
    case Take(tid) => Some(B.MoveOut(tid))
    case Fill(x) => Some(B.Fill(x))
    case Publish => Some(B.Publish)
    case Inside(step) => Some(step)
    case GiveBack(tid, _) => Some(B.Release(tid))
    case OthersGiveBack(b, _) => Some(B.OtherReleases(b))
    case Reuse(who) => Some(B.TryFreeList(B.Block(s.free.At(who).n)))
    case OthersReuse(who) => Some(B.OtherTakesFree(s.free.At(who).n))
    case _ => None
  }

  ghost function FreeAct<X>(s: Joint<X>, a: Act<X>): Option<F.Act>
    requires Willing(s, a)
  {
    match a
    case GiveBack(tid, who) => Some(F.Add(who, s.blocks.At(tid).b))
    case OthersGiveBack(b, who) => Some(F.Add(who, b))
    case Reuse(who) => Some(F.DropTwo(who))
    case OthersReuse(who) => Some(F.DropTwo(who))
    case ListStep(f) => Some(f)
    case _ => None
  }

  /** Every part can take its half of the step: its own guards hold. */
  ghost predicate Agreed<X>(s: Joint<X>, a: Act<X>)
    requires Willing(s, a)
  {
    && (StreamAct(s, a).Some? ==> D.Enabled(s.stream, StreamAct(s, a).value))
    && (BlocksAct(s, a).Some? ==> B.Enabled(s.blocks, BlocksAct(s, a).value))
    && (FreeAct(s, a).Some? ==> F.Enabled(s.free, FreeAct(s, a).value))
  }

  /** The parts step together; were one to refuse, nothing would happen. */
  ghost function Next<X>(s: Joint<X>, a: Act<X>): Joint<X>
    requires Willing(s, a)
  {
    if !Agreed(s, a) then s
    else
      Joint(if StreamAct(s, a).Some? then D.Next(s.stream, StreamAct(s, a).value) else s.stream,
            if BlocksAct(s, a).Some? then B.Next(s.blocks, BlocksAct(s, a).value) else s.blocks,
            if FreeAct(s, a).Some? then F.Next(s.free, FreeAct(s, a).value) else s.free)
  }

  // ---------- What ties the parts ----------

  ghost predicate SameElements<X>(s: Joint<X>) {
    s.stream.elems == s.blocks.elems && s.stream.tail == s.blocks.tail && s.stream.head == s.blocks.head
  }

  /** The consumer has claimed an index and not yet moved its element out. */
  predicate Fetching<X>(q: B.Consumer<X>) {
    q.Claimed? || q.HasIndex? || q.HasSlot? || q.HasBase? || q.HasBlock?
  }

  predicate SamePlace<X>(p: D.Place, q: B.Consumer<X>) {
    && (p.Reading? ==> Fetching(q) && q.i == p.k)
    && (Fetching(q) ==> p == D.Reading(q.i))
    && (!q.Free? && !Fetching(q) ==> p.Idle?)
  }

  ghost predicate SamePlaces<X>(stream: D.Stream<X>, blocks: B.State<X>) {
    forall tid: nat :: SamePlace(stream.At(tid), blocks.At(tid))
  }

  function FreeBlocks(owner: map<nat, B.Owner>): set<nat> {
    set b | b in owner && owner[b].FreeList?
  }

  /** The nodes of the free list are the blocks of the initial pool, and those in its system are the blocks it owns. */
  ghost predicate SameNodes<X>(blocks: B.State<X>, free: F.State) {
    && (forall b: nat :: b in free.status <==> b < blocks.poolSize)
    && F.InSystem(free.status) == FreeBlocks(blocks.owner)
  }

  /** An element moved out is the one the ticket protocol has delivered for that index. */
  ghost predicate Delivers<X>(stream: D.Stream<X>, blocks: B.State<X>) {
    && (forall tid | tid in blocks.at && blocks.at[tid].Moved? :: blocks.at[tid].i in stream.delivered)
    && (forall i | i in blocks.counted :: i in stream.delivered)
  }

  ghost predicate Inv<X>(s: Joint<X>) {
    && D.Inv(s.stream) && S.Inv(s.blocks) && F.Inv(s.free)
    && SameElements(s) && SamePlaces(s.stream, s.blocks) && SameNodes(s.blocks, s.free)
    && Delivers(s.stream, s.blocks)
  }

  // ---------- No part refuses ----------

  lemma TicketInRange<X>(s: D.Stream<X>, tid: nat)
    requires D.Inv(s)
    ensures var p := s.At(tid); p.Drew? || p.MayClaim? || p.MustUndo? ==> p.m < |s.tickets|
  {
    hide D.Roomy, D.OneHolder, D.Counted, D.Served, D.InFlight;
    assert tid in s.at ==> D.Holdable(s.at[tid], s.tail, s.over, s.tickets);
  }

  lemma ClaimAgreed<X>(s: Joint<X>, tid: nat)
    requires Inv(s) && Willing(s, Claim(tid))
    ensures Agreed(s, Claim(tid))
  {
    hide D.Inv, S.Inv, F.Inv, SameNodes, Delivers;
    assert SamePlace(s.stream.At(tid), s.blocks.At(tid));
    TicketInRange(s.stream, tid);
    D.ClaimKeepsInv(s.stream, tid);
  }

  lemma TakeAgreed<X>(s: Joint<X>, tid: nat)
    requires Inv(s) && Willing(s, Take(tid))
    ensures Agreed(s, Take(tid))
  {
    hide D.Inv, S.Inv, F.Inv, SameNodes, Delivers;
    assert SamePlace(s.stream.At(tid), s.blocks.At(tid));
    S.MoveOutFindsTheElement(s.blocks, tid);
  }

  lemma FillAgreed<X>(s: Joint<X>, x: X)
    requires Inv(s) && Willing(s, Fill(x))
    ensures Agreed(s, Fill(x))
  {
    hide D.Inv, F.Inv, SameNodes, Delivers, SamePlaces;
    hide S.Indexed, S.Consumes, S.Exclusive, S.Attended, S.Counts, S.Covers, S.Owned, S.Stores, S.Positioned, S.Pending;
  }

  lemma OwnerIsKnown<X>(s: B.State<X>, tid: nat)
    requires S.Inv(s) && s.At(tid).Releasing?
    ensures s.At(tid).b in s.owner && s.owner[s.At(tid).b].Released?
  {
    hide S.Indexed, S.Produces, S.Consumes, S.Exclusive, S.Attended, S.Counts, S.Covers, S.Stores;
  }

  lemma OutIfNotFree<X>(s: Joint<X>, b: nat)
    requires Inv(s) && b < s.blocks.poolSize && b in s.blocks.owner && !s.blocks.owner[b].FreeList?
    ensures F.Known(s.free, b) && s.free.status[b].Out?
  {
    hide D.Inv, S.Inv, SameElements, SamePlaces, Delivers, F.Linked, F.Tied, F.Balanced;
    assert b !in FreeBlocks(s.blocks.owner);
    assert b in s.free.status;
    assert b in s.free.status.Keys;
  }

  lemma GiveBackAgreed<X>(s: Joint<X>, a: Act<X>)
    requires Inv(s) && Willing(s, a) && (a.GiveBack? || a.OthersGiveBack?)
    ensures Agreed(s, a)
  {
    hide D.Inv, S.Inv, F.Inv, SameElements, SamePlaces, SameNodes, Delivers;
    if a.GiveBack? {
      OwnerIsKnown(s.blocks, a.tid);
      OutIfNotFree(s, s.blocks.At(a.tid).b);
    } else {
      OutIfNotFree(s, a.b);
    }
  }

  lemma PoppedIsFree<X>(s: Joint<X>, who: nat)
    requires Inv(s) && HasPopped(s.free, who)
    ensures var n := s.free.At(who).n;
            F.Known(s.free, n) && n in s.blocks.owner && s.blocks.owner[n].FreeList? && n < s.blocks.poolSize
  {
    hide D.Inv, S.Inv, SameElements, SamePlaces, Delivers;
    F.FitsHere(s.free, who);
    hide F.Linked, F.Tied, F.Balanced;
    var n := s.free.At(who).n;
    assert n in F.InSystem(s.free.status);
    assert n in s.free.status.Keys && n in FreeBlocks(s.blocks.owner);
  }

  lemma ReuseAgreed<X>(s: Joint<X>, a: Act<X>)
    requires Inv(s) && Willing(s, a) && (a.Reuse? || a.OthersReuse?)
    ensures Agreed(s, a)
  {
    hide D.Inv, S.Inv, F.Inv, SameElements, SamePlaces, SameNodes, Delivers;
    PoppedIsFree(s, a.who);
  }

  lemma PublishAgreed<X>(s: Joint<X>)
    requires Inv(s) && Willing(s, Publish)
    ensures Agreed(s, Publish)
  {
    hide D.Inv, S.Inv, F.Inv, SamePlaces, SameNodes, Delivers;
  }

  lemma OnePartAgreed<X>(s: Joint<X>, a: Act<X>)
    requires Willing(s, a) && (a.Ticket? || a.Inside? || a.ListStep?)
    ensures Agreed(s, a)
  {
    hide D.Enabled, B.Enabled, F.Enabled, OfBlocks, OfTickets;
  }

  /** Whatever a thread is willing to do by what it knows itself, every part can do. */
  lemma NoPartRefuses<X>(s: Joint<X>, a: Act<X>)
    requires Inv(s) && Willing(s, a)
    ensures Agreed(s, a)
  {
    hide Inv, Willing, Agreed;
    match a
    case Claim(tid) => ClaimAgreed(s, tid);
    case Take(tid) => TakeAgreed(s, tid);
    case Fill(x) => FillAgreed(s, x);
    case Publish => PublishAgreed(s);
    case GiveBack(_, _) => GiveBackAgreed(s, a);
    case OthersGiveBack(_, _) => GiveBackAgreed(s, a);
    case Reuse(_) => ReuseAgreed(s, a);
    case OthersReuse(_) => ReuseAgreed(s, a);
    case Ticket(_) => OnePartAgreed(s, a);
    case Inside(_) => OnePartAgreed(s, a);
    case ListStep(_) => OnePartAgreed(s, a);
  }

  // ---------- Each step keeps the ties ----------

  /** The block machine's step has done what the ticket protocol sees of it, and no more. */
  ghost predicate Framed<X>(s: B.State<X>, a: B.Act<X>, r: B.State<X>)
    requires B.Enabled(s, a)
  {
    && r.poolSize == s.poolSize
    && r.elems == (if a.Fill? then s.elems + [a.x] else s.elems)
    && r.tail == (if a.Publish? then s.tail + 1 else s.tail)
    && r.head == (if a.Claim? then s.head + 1 else s.head)
    && r.counted == (if a.Count? then s.counted + {s.At(a.tid).i} else s.counted)
  }

  predicate OfConsumer<X>(a: B.Act<X>) {
    a.Claim? || a.LoadIndex? || a.LoadSlot? || a.LoadBase? || a.LoadValue? || a.MoveOut? || a.Count? || a.Forget?
    || a.Release?
  }

  predicate OfOthers<X>(a: B.Act<X>) {
    a.OtherTakesPool? || a.OtherTakesFree? || a.OtherCreates? || a.OtherReleases?
  }

  predicate OfIndex<X>(a: B.Act<X>) {
    a.Probe? || a.NewIndex? || a.StoreKey? || a.StoreTail? || a.Rewind? || a.ClearValue?
  }

  lemma ProbeFrame<X>(s: B.State<X>, a: B.Act<X>)
    requires B.Enabled(s, a) && a.Probe?
    ensures Framed(s, a, B.NextOfProducer(s, a)) && B.NextOfProducer(s, a).at == s.at
    ensures B.NextOfProducer(s, a).owner == s.owner
  {
    hide B.Usable;
  }

  lemma GrowthFrame<X>(s: B.State<X>, a: B.Act<X>)
    requires B.Enabled(s, a) && a.NewIndex?
    ensures Framed(s, a, B.NextOfProducer(s, a)) && B.NextOfProducer(s, a).at == s.at
    ensures B.NextOfProducer(s, a).owner == s.owner
  {
    hide B.Grown;
  }

  lemma SlotFrame<X>(s: B.State<X>, a: B.Act<X>)
    requires B.Enabled(s, a) && (a.StoreKey? || a.StoreTail? || a.Rewind? || a.ClearValue?)
    ensures Framed(s, a, B.NextOfProducer(s, a)) && B.NextOfProducer(s, a).at == s.at
    ensures B.NextOfProducer(s, a).owner == s.owner
  {
    hide B.Usable, B.Grown, B.Slot;
  }

  lemma IndexFrame<X>(s: B.State<X>, a: B.Act<X>)
    requires B.Enabled(s, a) && OfIndex(a)
    ensures Framed(s, a, B.NextOfProducer(s, a)) && B.NextOfProducer(s, a).at == s.at
    ensures B.NextOfProducer(s, a).owner == s.owner
  {
    hide Framed, B.NextOfProducer, B.Enabled;
    if a.Probe? {
      ProbeFrame(s, a);
    } else if a.NewIndex? {
      GrowthFrame(s, a);
    } else {
      SlotFrame(s, a);
    }
  }

  predicate OfPool<X>(a: B.Act<X>) {
    a.LoadPool? || a.FetchPool? || a.TryFreeList? || a.Create?
  }

  lemma PoolOnly<X>(s: B.State<X>, taker: B.Owner)
    ensures var r := B.FetchedPool(s, taker); r == s.(poolNext := r.poolNext, owner := r.owner)
    ensures var r := B.Created(s, taker); r == s.(nextId := r.nextId, owner := r.owner)
  {
  }

  lemma PoolFrame<X>(s: B.State<X>, a: B.Act<X>)
    requires B.Enabled(s, a) && OfPool(a)
    ensures Framed(s, a, B.NextOfProducer(s, a)) && B.NextOfProducer(s, a).at == s.at
  {
    hide B.Enabled, B.FetchedPool, B.Created;
    PoolOnly(s, B.InHand);
  }

  lemma CellFrame<X>(s: B.State<X>, a: B.Act<X>)
    requires B.Enabled(s, a) && (a.Fill? || a.Expose? || a.Publish?)
    ensures Framed(s, a, B.NextOfProducer(s, a)) && B.NextOfProducer(s, a).at == s.at
  {
    hide B.Enabled;
  }

  lemma ConsumerFrame<X>(s: B.State<X>, a: B.Act<X>)
    requires B.Enabled(s, a) && OfConsumer(a)
    ensures Framed(s, a, B.NextOfConsumer(s, a))
  {
    hide B.FoundSlot, B.Usable, B.BlockIn, B.TailBlockNo;
  }

  lemma OthersFrame<X>(s: B.State<X>, a: B.Act<X>)
    requires B.Enabled(s, a) && OfOthers(a)
    ensures Framed(s, a, B.NextOfOthers(s, a)) && B.NextOfOthers(s, a).at == s.at
  {
    hide B.Enabled, B.FetchedPool, B.Created, B.Recycled;
    PoolOnly(s, B.Others);
  }

  lemma BlocksFrame<X>(s: B.State<X>, a: B.Act<X>)
    requires B.Enabled(s, a)
    ensures Framed(s, a, B.Next(s, a)) && (!OfConsumer(a) ==> B.Next(s, a).at == s.at)
  {
    hide B.Enabled, B.NextOfProducer, B.NextOfConsumer, B.NextOfOthers, Framed;
    if OfConsumer(a) {
      ConsumerFrame(s, a);
    } else if OfOthers(a) {
      OthersFrame(s, a);
    } else if OfIndex(a) {
      IndexFrame(s, a);
    } else if OfPool(a) {
      PoolFrame(s, a);
    } else {
      CellFrame(s, a);
    }
  }

  /** A consumer's step inside the block machine: it goes on fetching the same index, or has nothing to do with one. */
  lemma ConsumerGoesOn<X>(s: B.State<X>, a: B.Act<X>)
    requires B.Enabled(s, a) && OfBlocks(s, a)
    requires a.LoadIndex? || a.LoadSlot? || a.LoadBase? || a.LoadValue? || a.Count? || a.Forget? || a.Release?
    ensures var q, q' := s.At(a.tid), B.Next(s, a).At(a.tid);
            && B.Next(s, a).at == s.at[a.tid := q']
            && (if a.Count? || a.Forget? || a.Release? then !q.Free? && !Fetching(q) && !Fetching(q') && !q'.Moved?
                else Fetching(q) && Fetching(q') && q'.i == q.i)
            && (a.Count? ==> q.Moved?)
  {
    hide B.FoundSlot, B.Usable, B.BlockIn, B.TailBlockNo;
  }

  lemma BlocksMove<X>(s: Joint<X>, a: B.Act<X>)
    requires SamePlaces(s.stream, s.blocks) && Delivers(s.stream, s.blocks) && B.Enabled(s.blocks, a)
    requires !a.Claim? && !a.MoveOut?
    requires a.Release? || OfBlocks(s.blocks, a) || a.Fill? || a.Publish? || a.TryFreeList? || a.OtherTakesFree?
             || a.OtherReleases?
    ensures SamePlaces(s.stream, B.Next(s.blocks, a)) && Delivers(s.stream, B.Next(s.blocks, a))
  {
    hide B.Enabled, B.Next;
    BlocksFrame(s.blocks, a);
    var r := B.Next(s.blocks, a);
    if a.LoadIndex? || a.LoadSlot? || a.LoadBase? || a.LoadValue? || a.Count? || a.Forget? {
      ConsumerGoesOn(s.blocks, a);
      assert SamePlace(s.stream.At(a.tid), s.blocks.At(a.tid));
      assert forall tid: nat | tid != a.tid :: r.At(tid) == s.blocks.At(tid);
    } else if a.Release? {
      Released(s.blocks, a.tid);
      assert SamePlace(s.stream.At(a.tid), s.blocks.At(a.tid));
      assert forall tid: nat | tid != a.tid :: r.At(tid) == s.blocks.At(tid);
    } else {
      assert forall tid: nat :: r.At(tid) == s.blocks.At(tid);
    }
  }

  lemma Released<X>(s: B.State<X>, tid: nat)
    requires B.Enabled(s, B.Release(tid))
    ensures s.At(tid).Releasing? && B.Next(s, B.Release(tid)).at == s.at[tid := B.Free]
  {
  }

  // ---------- Nodes ----------

  lemma OneOwner(owner: map<nat, B.Owner>, b: nat, o: B.Owner)
    ensures FreeBlocks(owner[b := o]) == if o.FreeList? then FreeBlocks(owner) + {b} else FreeBlocks(owner) - {b}
    ensures b in FreeBlocks(owner) <==> b in owner && owner[b].FreeList?
  {
  }

  lemma ForgottenWasMine<X>(s: B.State<X>, tid: nat)
    requires S.Inv(s) && s.At(tid).WasLast?
    ensures s.At(tid).b in s.owner && s.owner[s.At(tid).b].Mine?
  {
    S.ConsumerIs(s, tid);
    hide S.Indexed, S.Produces, S.Consumes, S.Exclusive, S.Attended, S.Counts, S.Covers, S.Stores, S.FullyCounted;
  }

  /** What the step does to the blocks that the free list has. */
  function MovedFree<X>(s: B.State<X>, a: B.Act<X>, free: set<nat>): set<nat> {
    if a.TryFreeList? && a.got.Block? then free - {a.got.b}
    else if a.OtherTakesFree? then free - {a.b}
    else if a.Release? && s.At(a.tid).Releasing? && s.At(a.tid).b < s.poolSize then free + {s.At(a.tid).b}
    else if a.OtherReleases? && a.b < s.poolSize then free + {a.b} else free
  }

  lemma OthersMoveFree<X>(s: B.State<X>, a: B.Act<X>)
    requires S.Inv(s) && B.Enabled(s, a) && OfOthers(a)
    ensures FreeBlocks(B.NextOfOthers(s, a).owner) == MovedFree(s, a, FreeBlocks(s.owner))
  {
    hide S.Indexed, S.Produces, S.Consumes, S.Exclusive, S.Attended, S.Counts, S.Covers, S.Stores, FreeBlocks;
    match a
    case OtherTakesFree(b) => OneOwner(s.owner, b, B.Others);
    case OtherReleases(b) => OneOwner(s.owner, b, B.Recycled(b, s.poolSize));
    case OtherTakesPool => OneOwner(s.owner, s.poolNext, B.Others);
    case OtherCreates => OneOwner(s.owner, s.nextId, B.Others);
  }

  lemma ConsumersMoveFree<X>(s: B.State<X>, a: B.Act<X>)
    requires S.Inv(s) && B.Enabled(s, a) && OfConsumer(a)
    ensures FreeBlocks(B.NextOfConsumer(s, a).owner) == MovedFree(s, a, FreeBlocks(s.owner))
  {
    hide S.Inv, FreeBlocks, B.FoundSlot, B.Usable, B.BlockIn, B.TailBlockNo;
    match a
    case Release(tid) =>
      OwnerIsKnown(s, tid);
      OneOwner(s.owner, s.At(tid).b, B.Recycled(s.At(tid).b, s.poolSize));
    case Forget(tid) =>
      ForgottenWasMine(s, tid);
      OneOwner(s.owner, s.At(tid).b, B.Released(tid));
    case _ => OwnersStay(s, a);
  }

  lemma OwnersStay<X>(s: B.State<X>, a: B.Act<X>)
    requires B.Enabled(s, a) && OfConsumer(a) && !a.Release? && !a.Forget?
    ensures B.NextOfConsumer(s, a).owner == s.owner
  {
    hide B.Enabled, B.FoundSlot, B.Usable, B.BlockIn, B.TailBlockNo;
  }

  lemma ProducerMovesFree<X>(s: B.State<X>, a: B.Act<X>)
    requires S.Inv(s) && B.Enabled(s, a) && !OfConsumer(a) && !OfOthers(a) && !OfIndex(a)
    ensures FreeBlocks(B.NextOfProducer(s, a).owner) == MovedFree(s, a, FreeBlocks(s.owner))
  {
    hide S.Indexed, S.Produces, S.Consumes, S.Exclusive, S.Attended, S.Counts, S.Covers, S.Stores, FreeBlocks;
    match a
    case TryFreeList(got) => OneOwner(s.owner, B.BlockIn(got), B.InHand);
    case FetchPool => OneOwner(s.owner, s.poolNext, B.InHand);
    case Create(_) => OneOwner(s.owner, s.nextId, B.InHand);
    case Expose => OneOwner(s.owner, s.producer.b, B.Mine(s.exposed));
    case LoadPool | Fill(_) | Publish =>
  }

  lemma FreeBlocksMove<X>(s: B.State<X>, a: B.Act<X>)
    requires S.Inv(s) && B.Enabled(s, a)
    ensures FreeBlocks(B.Next(s, a).owner) == MovedFree(s, a, FreeBlocks(s.owner))
  {
    hide S.Inv, B.Enabled, B.NextOfProducer, B.NextOfConsumer, B.NextOfOthers, FreeBlocks;
    if OfConsumer(a) {
      ConsumersMoveFree(s, a);
    } else if OfOthers(a) {
      OthersMoveFree(s, a);
    } else if OfIndex(a) {
      IndexFrame(s, a);
    } else {
      ProducerMovesFree(s, a);
    }
  }

  lemma NodesMove<X>(s: Joint<X>, b: B.Act<X>, f: F.Act)
    requires Inv(s) && B.Enabled(s.blocks, b) && F.Enabled(s.free, f)
    requires MovedFree(s.blocks, b, FreeBlocks(s.blocks.owner))
          == if f.Add? then FreeBlocks(s.blocks.owner) + {f.n}
             else if f.DropTwo? then FreeBlocks(s.blocks.owner) - {s.free.At(f.tid).n} else FreeBlocks(s.blocks.owner)
    ensures SameNodes(B.Next(s.blocks, b), F.Next(s.free, f))
  {
    hide D.Inv, S.Inv, F.Inv, B.Next, F.Next, B.Enabled, F.Enabled, SameElements, SamePlaces, Delivers, FreeBlocks;
    hide F.InSystem, MovedFree;
    FreeBlocksMove(s.blocks, b);
    F.MembershipMoves(s.free, f);
    BlocksFrame(s.blocks, b);
    assert forall n: nat :: n in F.Next(s.free, f).status <==> n in s.free.status.Keys;
  }

  lemma BlocksAloneKeepNodes<X>(s: Joint<X>, b: B.Act<X>)
    requires Inv(s) && B.Enabled(s.blocks, b)
    requires MovedFree(s.blocks, b, FreeBlocks(s.blocks.owner)) == FreeBlocks(s.blocks.owner)
    ensures SameNodes(B.Next(s.blocks, b), s.free)
  {
    hide D.Inv, S.Inv, F.Inv, B.Next, B.Enabled, SameElements, SamePlaces, Delivers, FreeBlocks, F.InSystem, MovedFree;
    FreeBlocksMove(s.blocks, b);
    BlocksFrame(s.blocks, b);
  }

  lemma ListAloneKeepsNodes<X>(s: Joint<X>, f: F.Act)
    requires Inv(s) && F.Enabled(s.free, f) && !f.Add? && !f.DropTwo?
    ensures SameNodes(s.blocks, F.Next(s.free, f))
  {
    hide D.Inv, S.Inv, F.Inv, F.Next, F.Enabled, SameElements, SamePlaces, Delivers, FreeBlocks, F.InSystem;
    F.MembershipMoves(s.free, f);
    assert forall n: nat :: n in F.Next(s.free, f).status <==> n in s.free.status.Keys;
  }

  // ---------- Each step keeps the joint invariant ----------

  lemma TicketFrame<X>(s: D.Stream<X>, d: D.Act<X>)
    requires D.Enabled(s, d) && OfTickets(d)
    ensures var r := D.Next(s, d);
            && r.elems == s.elems && r.tail == s.tail && r.head == s.head && r.delivered == s.delivered
            && r.at == s.at[d.tid := r.At(d.tid)] && !r.At(d.tid).Reading? && !s.At(d.tid).Reading?
            && (s.At(d.tid).Idle? ==> d.LoadTail?)
  {
  }

  lemma TicketKeeps<X>(s: Joint<X>, d: D.Act<X>)
    requires Inv(s) && Willing(s, Ticket(d))
    ensures Inv(s.(stream := D.Next(s.stream, d)))
  {
    hide D.Inv, S.Inv, F.Inv, SameNodes, D.Next, D.Enabled;
    D.KeepsInv(s.stream, d);
    TicketFrame(s.stream, d);
    assert SamePlace(s.stream.At(d.tid), s.blocks.At(d.tid));
    var r := D.Next(s.stream, d);
    assert forall tid: nat | tid != d.tid :: r.At(tid) == s.stream.At(tid);
  }

  lemma ClaimKeeps<X>(s: Joint<X>, tid: nat)
    requires Inv(s) && Willing(s, Claim(tid)) && Agreed(s, Claim(tid))
    ensures Inv(Next(s, Claim(tid)))
  {
    hide D.Inv, S.Inv, F.Inv, SameNodes;
    D.KeepsInv(s.stream, D.Claim(tid));
    T.KeepsInv(s.blocks, B.Claim(tid));
    var r := Next(s, Claim(tid));
    assert r.blocks == s.blocks.Move(tid, B.Claimed(s.blocks.head)).(head := s.blocks.head + 1);
    assert r.stream.at == s.stream.at[tid := D.Reading(s.stream.head)];
    assert forall i: nat | i != tid ::
        r.stream.At(i) == s.stream.At(i) && r.blocks.At(i) == s.blocks.At(i) && SamePlace(s.stream.At(i), s.blocks.At(i));
    BlocksAloneKeepNodes(s, B.Claim(tid));
  }

  lemma TakeKeeps<X>(s: Joint<X>, tid: nat)
    requires Inv(s) && Willing(s, Take(tid)) && Agreed(s, Take(tid))
    ensures Inv(Next(s, Take(tid)))
  {
    hide D.Inv, S.Inv, F.Inv, SameNodes;
    D.KeepsInv(s.stream, D.Take(tid));
    T.KeepsInv(s.blocks, B.MoveOut(tid));
    assert SamePlace(s.stream.At(tid), s.blocks.At(tid));
    var r := Next(s, Take(tid));
    var q := s.blocks.At(tid);
    assert r.blocks == s.blocks.Move(tid, B.Moved(q.i, q.e, q.b, s.blocks.cells[(q.b, q.i % B.BLOCK_SIZE)]));
    assert r.stream
        == s.stream.(delivered := s.stream.delivered[q.i := s.stream.elems[q.i]], at := s.stream.at[tid := D.Idle]);
    assert forall i: nat | i != tid ::
        r.stream.At(i) == s.stream.At(i) && r.blocks.At(i) == s.blocks.At(i) && SamePlace(s.stream.At(i), s.blocks.At(i));
    BlocksAloneKeepNodes(s, B.MoveOut(tid));
  }

  lemma EnqueueFrame<X>(s: D.Stream<X>, d: D.Act<X>)
    requires D.Enabled(s, d) && (d.Construct? || d.Publish?)
    ensures var r := D.Next(s, d);
            && r.at == s.at && r.delivered == s.delivered && r.head == s.head
            && r.elems == (if d.Construct? then s.elems + [d.x] else s.elems)
            && r.tail == (if d.Publish? then s.tail + 1 else s.tail)
  {
  }

  lemma EnqueueKeeps<X>(s: Joint<X>, d: D.Act<X>, b: B.Act<X>)
    requires Inv(s) && D.Enabled(s.stream, d) && B.Enabled(s.blocks, b)
    requires (d.Publish? && b.Publish?) || (d.Construct? && b == B.Fill(d.x))
    ensures Inv(Joint(D.Next(s.stream, d), B.Next(s.blocks, b), s.free))
  {
    hide D.Inv, S.Inv, F.Inv, SameNodes, D.Next, B.Next, D.Enabled, B.Enabled;
    D.KeepsInv(s.stream, d);
    T.KeepsInv(s.blocks, b);
    EnqueueFrame(s.stream, d);
    BlocksFrame(s.blocks, b);
    BlocksMove(s, b);
    BlocksAloneKeepNodes(s, b);
    var r, c := D.Next(s.stream, d), B.Next(s.blocks, b);
    assert forall tid: nat :: r.At(tid) == s.stream.At(tid) && SamePlace(s.stream.At(tid), c.At(tid));
  }

  lemma BlocksAlone<X>(s: Joint<X>, b: B.Act<X>)
    requires Inv(s) && OfBlocks(s.blocks, b) && B.Enabled(s.blocks, b)
    ensures Inv(s.(blocks := B.Next(s.blocks, b)))
  {
    hide D.Inv, S.Inv, F.Inv, SameNodes, SamePlaces, Delivers, B.Next, B.Enabled;
    T.KeepsInv(s.blocks, b);
    BlocksFrame(s.blocks, b);
    BlocksMove(s, b);
    BlocksAloneKeepNodes(s, b);
  }

  lemma ListAlone<X>(s: Joint<X>, f: F.Act)
    requires Inv(s) && F.Enabled(s.free, f) && !f.Add? && !f.DropTwo?
    ensures Inv(s.(free := F.Next(s.free, f)))
  {
    hide D.Inv, S.Inv, F.Inv, SameNodes, SamePlaces, Delivers, F.Next, F.Enabled;
    F.KeepsInv(s.free, f);
    ListAloneKeepsNodes(s, f);
  }

  lemma BlockChangesHands<X>(s: Joint<X>, b: B.Act<X>, f: F.Act)
    requires Inv(s) && B.Enabled(s.blocks, b) && F.Enabled(s.free, f)
    requires b.Release? || b.OtherReleases? || b.TryFreeList? || b.OtherTakesFree?
    requires MovedFree(s.blocks, b, FreeBlocks(s.blocks.owner))
          == if f.Add? then FreeBlocks(s.blocks.owner) + {f.n}
             else if f.DropTwo? then FreeBlocks(s.blocks.owner) - {s.free.At(f.tid).n} else FreeBlocks(s.blocks.owner)
    ensures Inv(Joint(s.stream, B.Next(s.blocks, b), F.Next(s.free, f)))
  {
    hide D.Inv, S.Inv, F.Inv, SameNodes, SamePlaces, Delivers, B.Next, B.Enabled, F.Next, F.Enabled, MovedFree;
    hide FreeBlocks;
    T.KeepsInv(s.blocks, b);
    F.KeepsInv(s.free, f);
    BlocksFrame(s.blocks, b);
    BlocksMove(s, b);
    NodesMove(s, b, f);
  }

  lemma HandsKeep<X>(s: Joint<X>, a: Act<X>)
    requires Inv(s) && Willing(s, a) && Agreed(s, a)
    requires a.GiveBack? || a.OthersGiveBack? || a.Reuse? || a.OthersReuse?
    ensures Inv(Next(s, a))
  {
    hide Inv, B.Next, F.Next, FreeBlocks, B.Enabled, F.Enabled;
    BlockChangesHands(s, BlocksAct(s, a).value, FreeAct(s, a).value);
  }

  lemma KeepsInv<X>(s: Joint<X>, a: Act<X>)
    requires Inv(s) && Willing(s, a)
    ensures Agreed(s, a) && Inv(Next(s, a))
  {
    hide Inv, Willing, Agreed, Next;
    NoPartRefuses(s, a);
    if a.GiveBack? || a.OthersGiveBack? || a.Reuse? || a.OthersReuse? {
      HandsKeep(s, a);
    } else if a.Claim? {
      ClaimKeeps(s, a.tid);
    } else if a.Take? {
      TakeKeeps(s, a.tid);
    } else {
      SimpleKeeps(s, a);
    }
  }

  lemma SimpleKeeps<X>(s: Joint<X>, a: Act<X>)
    requires Inv(s) && Willing(s, a) && Agreed(s, a)
    requires a.Ticket? || a.Fill? || a.Publish? || a.Inside? || a.ListStep?
    ensures Inv(Next(s, a))
  {
    hide Inv, D.Next, B.Next, F.Next, D.Enabled, B.Enabled, F.Enabled, OfBlocks, OfTickets;
    match a
    case Ticket(d) => TicketKeeps(s, d);
    case Fill(x) => EnqueueKeeps(s, D.Construct(x), B.Fill(x));
    case Publish => EnqueueKeeps(s, D.Publish, B.Publish);
    case Inside(step) => BlocksAlone(s, step);
    case ListStep(f) => ListAlone(s, f);
  }

  // ---------- Runs ----------

  /** A new stream, a new block index, and the pool and its free list in any state that fits together. */
  ghost predicate Start<X>(s: Joint<X>) {
    s.stream == D.Fresh() && T.Start(s.blocks) && F.Inv(s.free) && SameNodes(s.blocks, s.free)
  }

  ghost function After<X>(s: Joint<X>, acts: seq<Act<X>>): Joint<X>
    requires Runs(s, acts)
    decreases |acts|, 2
  {
    if acts == [] then s else Next(After(s, acts[..|acts| - 1]), acts[|acts| - 1])
  }

  ghost predicate Runs<X>(s: Joint<X>, acts: seq<Act<X>>)
    decreases |acts|, 1
  {
    acts == [] || (Runs(s, acts[..|acts| - 1]) && Willing(After(s, acts[..|acts| - 1]), acts[|acts| - 1]))
  }

  lemma StartSatisfiesInv<X>(s: Joint<X>)
    requires Start(s)
    ensures Inv(s)
  {
    T.StartSatisfiesInv(s.blocks);
    D.FreshSatisfiesInv<X>();
    hide D.Inv, S.Inv, F.Inv, SameNodes;
  }

  lemma {:induction false} EveryRunKeepsInv<X>(s: Joint<X>, acts: seq<Act<X>>)
    requires Start(s) && Runs(s, acts)
    ensures Inv(After(s, acts))
    decreases |acts|
  {
    hide Inv, Next, Willing, Start, Agreed;
    if acts == [] {
      StartSatisfiesInv(s);
    } else {
      EveryRunKeepsInv(s, acts[..|acts| - 1]);
      KeepsInv(After(s, acts[..|acts| - 1]), acts[|acts| - 1]);
    }
  }

  /**
   * In every interleaving the parts fit: a ticket that may claim finds the head below the tail in the block machine, a
   * block given back is one the free list has not got, and one it hands out is one the stream may use.
   */
  lemma NoPartEverRefuses<X>(s: Joint<X>, acts: seq<Act<X>>, a: Act<X>)
    requires Start(s) && Runs(s, acts) && Willing(After(s, acts), a)
    ensures Agreed(After(s, acts), a)
  {
    hide Inv, Runs, After, Start, Willing, Agreed;
    EveryRunKeepsInv(s, acts);
    NoPartRefuses(After(s, acts), a);
  }

  /**
   * Every dequeue delivers: the index claimed through the tickets is looked up in the block index, and what is moved
   * out of the block is the element enqueued at it, for the first and only time.
   */
  lemma EveryDequeueDelivers<X>(s: Joint<X>, acts: seq<Act<X>>, tid: nat)
    requires Start(s) && Runs(s, acts) && Willing(After(s, acts), Take(tid))
    ensures var r, r' := After(s, acts), Next(After(s, acts), Take(tid));
            var i := r.blocks.At(tid).i;
            && r.stream.At(tid) == D.Reading(i) && i < r.stream.head && i < |r.stream.elems|
            && i !in r.stream.delivered && r'.stream.delivered == r.stream.delivered[i := r.stream.elems[i]]
            && r'.blocks.At(tid).Moved? && r'.blocks.At(tid).i == i && r'.blocks.At(tid).x == r.stream.elems[i]
  {
    hide Runs, After, Start, Next, Inv;
    EveryRunKeepsInv(s, acts);
    TakeDelivers(After(s, acts), tid);
  }

  lemma TakeDelivers<X>(r: Joint<X>, tid: nat)
    requires Inv(r) && Willing(r, Take(tid))
    ensures var r', i := Next(r, Take(tid)), r.blocks.At(tid).i;
            && r.stream.At(tid) == D.Reading(i) && i < r.stream.head && i < |r.stream.elems|
            && i !in r.stream.delivered && r'.stream.delivered == r.stream.delivered[i := r.stream.elems[i]]
            && r'.blocks.At(tid).Moved? && r'.blocks.At(tid).i == i && r'.blocks.At(tid).x == r.stream.elems[i]
  {
    hide D.Inv, S.Inv, F.Inv, SameNodes, Delivers;
    NoPartRefuses(r, Take(tid));
    S.MoveOutFindsTheElement(r.blocks, tid);
    assert SamePlace(r.stream.At(tid), r.blocks.At(tid));
    ReaderServes(r.stream, tid);
  }

  lemma ReaderServes<X>(s: D.Stream<X>, tid: nat)
    requires D.Inv(s) && s.At(tid).Reading?
    ensures s.At(tid).k < s.head <= |s.elems| && s.At(tid).k !in s.delivered
  {
    hide D.Roomy, D.PlacesHold, D.OneHolder, D.Counted, D.InFlight;
  }

  /** What a consumer has moved out, and what it has counted as gone, has been delivered for its index. */
  lemma MovedIsDelivered<X>(s: Joint<X>, acts: seq<Act<X>>, tid: nat)
    requires Start(s) && Runs(s, acts) && After(s, acts).blocks.At(tid).Moved?
    ensures var r := After(s, acts);
            var q := r.blocks.At(tid);
            q.i in r.stream.delivered && r.stream.delivered[q.i] == q.x
  {
    hide Runs, After, Start, SamePlaces, SameNodes, F.Inv;
    EveryRunKeepsInv(s, acts);
    MovedMatches(After(s, acts), tid);
  }

  lemma MovedMatches<X>(r: Joint<X>, tid: nat)
    requires Inv(r) && r.blocks.At(tid).Moved?
    ensures var q := r.blocks.At(tid); q.i in r.stream.delivered && r.stream.delivered[q.i] == q.x
  {
    hide S.Indexed, S.Produces, S.Exclusive, S.Attended, S.Counts, S.Covers, S.Owned, S.Stores, S.FullyCounted, F.Inv;
    hide D.Roomy, D.PlacesHold, D.OneHolder, D.Counted, D.InFlight, SamePlaces, SameNodes;
    S.ConsumerIs(r.blocks, tid);
  }

  /** What the enqueuing side asserts of head and tail, and what it counts on, come from the tickets. */
  lemma HeadNeverPassesTail<X>(s: Joint<X>, acts: seq<Act<X>>)
    requires Start(s) && Runs(s, acts)
    ensures var r := After(s, acts);
            && r.blocks.head == r.stream.head <= r.stream.tail == r.blocks.tail
            && r.stream.opt == r.stream.head + r.stream.over + |D.InFlight(r.stream.at)|
  {
    hide Runs, After, Start, SamePlaces, SameNodes, F.Inv, S.Inv, Delivers, D.InFlight;
    EveryRunKeepsInv(s, acts);
    D.WinnersFit(After(s, acts).stream.tickets, After(s, acts).stream.tail);
  }

  /** Each part, on its own, has made a run of its own machine: all that is proved of its runs holds here. */
  lemma {:induction false} PartsRun<X>(s: Joint<X>, acts: seq<Act<X>>)
    returns (ds: seq<D.Act<X>>, bs: seq<B.Act<X>>, fs: seq<F.Act>)
    requires Start(s) && Runs(s, acts)
    ensures D.Runs(ds) && D.After(ds) == After(s, acts).stream
    ensures T.Runs(s.blocks, bs) && T.After(s.blocks, bs) == After(s, acts).blocks
    ensures F.Runs(s.free, fs) && F.After(s.free, fs) == After(s, acts).free
    decreases |acts|
  {
    hide Inv, Willing, Agreed, D.Enabled, B.Enabled, F.Enabled, D.Next, B.Next, F.Next, Next, StreamAct, BlocksAct, FreeAct;
    if acts == [] {
      ds, bs, fs := [], [], [];
      assert s.stream == D.Fresh();
    } else {
      hide Start;
      var before := acts[..|acts| - 1];
      ds, bs, fs := PartsRun(s, before);
      EveryRunKeepsInv(s, before);
      var r, a := After(s, before), acts[|acts| - 1];
      NoPartRefuses(r, a);
      PartsStep(r, a);
      if StreamAct(r, a).Some? {
        assert (ds + [StreamAct(r, a).value])[..|ds|] == ds;
        ds := ds + [StreamAct(r, a).value];
      }
      if BlocksAct(r, a).Some? {
        assert (bs + [BlocksAct(r, a).value])[..|bs|] == bs;
        bs := bs + [BlocksAct(r, a).value];
      }
      if FreeAct(r, a).Some? {
        assert (fs + [FreeAct(r, a).value])[..|fs|] == fs;
        fs := fs + [FreeAct(r, a).value];
      }
    }
  }

  lemma PartsStep<X>(s: Joint<X>, a: Act<X>)
    requires Willing(s, a) && Agreed(s, a)
    ensures StreamAct(s, a).Some? ==> D.Enabled(s.stream, StreamAct(s, a).value)
    ensures BlocksAct(s, a).Some? ==> B.Enabled(s.blocks, BlocksAct(s, a).value)
    ensures FreeAct(s, a).Some? ==> F.Enabled(s.free, FreeAct(s, a).value)
    ensures Next(s, a).stream
         == if StreamAct(s, a).Some? then D.Next(s.stream, StreamAct(s, a).value) else s.stream
    ensures Next(s, a).blocks
         == if BlocksAct(s, a).Some? then B.Next(s.blocks, BlocksAct(s, a).value) else s.blocks
    ensures Next(s, a).free == if FreeAct(s, a).Some? then F.Next(s.free, FreeAct(s, a).value) else s.free
  {
    hide Willing, D.Enabled, B.Enabled, F.Enabled, D.Next, B.Next, F.Next, StreamAct, BlocksAct, FreeAct;
  }
}
