/**
 * The hand-over from the lock-free queue to the books: with the core thread as the only consumer and handlers still
 * enqueuing, a queue that looks non-empty gives up an order (server/order_queue.cpp, server/core.cpp, and
 * size_approx, try_dequeue and dequeue of the queue).
 */
module HandOver {
  import opened Orders
  import opened Sums
  import opened PriorityQueue
  import opened Matching
  import opened Core

  /** One producer's stream as its consumer sees it; the tail is the number of elements published. */
  datatype Stream = Stream(elems: seq<Order>, head: nat, opt: nat, over: nat)
  {
    function Tail(): nat {
      |elems|
    }

    predicate HasElement() {
      head < Tail()
    }

    function Gone(): seq<Order> {
      if head <= Tail() then elems[..head] else elems
    }

    /** The elements published and not yet dequeued. */
    function Size(): int {
      Tail() - head
    }

    function Advanced(): Stream {
      this.(head := head + 1, opt := opt + 1)
    }
  }

  /** What pop leaves in its argument when there is nothing to dequeue: a default-constructed order. */
  const DEFAULT_ORDER := Order(Buy, 0.0, 0, 0, 0, 0, "")

  /** Between two steps of the sole consumer, enqueuers may only publish more and new producers only join at the end. */
  predicate Grown(a: seq<Stream>, b: seq<Stream>) {
    && |a| <= |b|
    && (forall k | 0 <= k < |a| ::
          a[k].elems <= b[k].elems && b[k].head == a[k].head && b[k].opt == a[k].opt && b[k].over == a[k].over)
    && (forall k | |a| <= k < |b| :: b[k].head == b[k].opt == b[k].over == 0)
  }

  /** As Grown, but for one element taken from stream k. */
  predicate Took(a: seq<Stream>, b: seq<Stream>, k: nat) {
    && |a| <= |b| && k < |b| && 0 < b[k].head <= b[k].Tail()
    && (forall i | 0 <= i < |a| :: a[i].elems <= b[i].elems && b[i].head == a[i].head + (if i == k then 1 else 0))
    && (forall i | |a| <= i < |b| :: b[i].head == if i == k then 1 else 0)
  }

  lemma GrownThenTook(a: seq<Stream>, b: seq<Stream>, c: seq<Stream>, k: nat)
    requires Grown(a, b) && Took(b, c, k)
    ensures Took(a, c, k)
  {
  }

  /** drawn: the stream from which the consumer holds a ticket it has not settled, or -1. */
  ghost predicate Fits(streams: seq<Stream>, side: Side, drawn: int) {
    forall k | 0 <= k < |streams| ::
      && streams[k].head <= streams[k].Tail()
      && streams[k].opt == streams[k].head + streams[k].over + (if k == drawn then 1 else 0)
      && (forall o | o in streams[k].elems :: o.side == side)
  }

  /** Elements published and not yet dequeued. */
  function Waiting(streams: seq<Stream>): int {
    if streams == [] then 0
    else
      var last := streams[|streams| - 1];
      Waiting(streams[..|streams| - 1]) + last.Tail() - last.head
  }

  /** Everything dequeued so far: of each stream, its first `head` elements. */
  function Consumed(streams: seq<Stream>): multiset<Order>
  {
    if streams == [] then multiset{}
    else Consumed(streams[..|streams| - 1]) + multiset(streams[|streams| - 1].Gone())
  }

  ghost predicate AnyElement(streams: seq<Stream>) {
    exists k :: 0 <= k < |streams| && streams[k].HasElement()
  }

  // ---------- Growing changes neither what was taken nor what can be ----------

  lemma GrownTwice(a: seq<Stream>, b: seq<Stream>, c: seq<Stream>)
    requires Grown(a, b) && Grown(b, c)
    ensures Grown(a, c)
  {
  }

  lemma GoneStays(a: Stream, b: Stream)
    requires a.head <= a.Tail() && a.elems <= b.elems && b.head == a.head
    ensures b.Gone() == a.Gone()
  {
  }

  lemma {:induction false} GrownConsumesNothing(a: seq<Stream>, b: seq<Stream>)
    requires Grown(a, b) && forall k | 0 <= k < |a| :: a[k].head <= a[k].Tail()
    ensures Consumed(b) == Consumed(a)
    decreases |b|
  {
    hide Stream.Gone;
    if |b| > 0 {
      var n := |b| - 1;
      if |a| == |b| {
        GrownConsumesNothing(a[..n], b[..n]);
        GoneStays(a[n], b[n]);
      } else {
        GrownConsumesNothing(a, b[..n]);
        assert b[n].Gone() == [] by {
          NothingGone(b[n]);
        }
      }
    }
  }

  lemma NothingGone(s: Stream)
    requires s.head == 0
    ensures s.Gone() == []
  {
  }

  lemma AdvancedTakesOne(s: Stream)
    requires s.HasElement()
    ensures s.Advanced().Gone() == s.Gone() + [s.elems[s.head]]
    ensures multiset(s.Advanced().Gone()) == More(multiset(s.Gone()), s.elems[s.head])
  {
  }

  lemma MoreOfSum(m: multiset<Order>, n: multiset<Order>, x: Order)
    ensures m + More(n, x) == More(m + n, x) && More(m, x) + n == More(m + n, x)
  {
  }

  lemma {:induction false} TakingConsumesOne(a: seq<Stream>, k: nat)
    requires k < |a| && a[k].HasElement()
    ensures var b := a[k := a[k].Advanced()];
            Consumed(b) == More(Consumed(a), a[k].elems[a[k].head]) && Waiting(b) == Waiting(a) - 1
    decreases |a|
  {
    hide Stream.Gone, More;
    var b := a[k := a[k].Advanced()];
    var n := |a| - 1;
    var x := a[k].elems[a[k].head];
    if k == n {
      assert b[..n] == a[..n];
      AdvancedTakesOne(a[n]);
      MoreOfSum(Consumed(a[..n]), multiset(a[n].Gone()), x);
    } else {
      assert b[..n] == a[..n][k := b[k]];
      TakingConsumesOne(a[..n], k);
      MoreOfSum(Consumed(a[..n]), multiset(a[n].Gone()), x);
    }
  }

  lemma {:induction false} OptDoesNotCount(a: seq<Stream>, k: nat, opt: nat)
    requires k < |a|
    ensures Waiting(a[k := a[k].(opt := opt)]) == Waiting(a) && Consumed(a[k := a[k].(opt := opt)]) == Consumed(a)
    decreases |a|
  {
    var b := a[k := a[k].(opt := opt)];
    var n := |a| - 1;
    if k == n {
      assert b[..n] == a[..n];
    } else {
      assert b[..n] == a[..n][k := b[k]];
      OptDoesNotCount(a[..n], k, opt);
    }
  }

  lemma HeadCounts(a: seq<Stream>, k: nat)
    requires k < |a| && a[k].HasElement()
    ensures var b := a[k := a[k].(head := a[k].head + 1)];
            Consumed(b) == More(Consumed(a), a[k].elems[a[k].head]) && Waiting(b) == Waiting(a) - 1
  {
    TakingConsumesOne(a, k);
    var c := a[k := a[k].Advanced()];
    OptDoesNotCount(c, k, a[k].opt);
    assert c[k := c[k].(opt := a[k].opt)] == a[k := a[k].(head := a[k].head + 1)];
  }

  lemma TakenGrows(taken: seq<Order>, o: Order)
    ensures multiset(taken + [o]) == More(multiset(taken), o)
  {
  }

  /** Whatever has been dequeued was published: a default-constructed order cannot slip in. */
  lemma {:induction false} DequeuedWasPublished(a: seq<Stream>, o: Order)
    requires o in Consumed(a)
    ensures exists k :: 0 <= k < |a| && o in a[k].elems
    decreases |a|
  {
    var n := |a| - 1;
    if o in a[n].Gone() {
      assert o in a[n].elems;
    } else {
      assert o in Consumed(a[..n]);
      DequeuedWasPublished(a[..n], o);
      var k :| 0 <= k < |a[..n]| && o in a[..n][k].elems;
      assert o in a[k].elems;
    }
  }

  lemma GrownHasAsMany(a: seq<Stream>, b: seq<Stream>)
    requires Grown(a, b)
    ensures |a| <= |b|
  {
  }

  lemma {:induction false} PublishingAddsOne(a: seq<Stream>, k: nat, o: Order)
    requires k < |a|
    ensures Waiting(a[k := a[k].(elems := a[k].elems + [o])]) == Waiting(a) + 1
    decreases |a|
  {
    var b := a[k := a[k].(elems := a[k].elems + [o])];
    var n := |a| - 1;
    if k == n {
      assert b[..n] == a[..n];
    } else {
      assert b[..n] == a[..n][k := b[k]];
      PublishingAddsOne(a[..n], k, o);
    }
  }

  lemma {:induction false} WaitingIsPositive(a: seq<Stream>, k: nat)
    requires k < |a| && forall i | 0 <= i < |a| :: a[i].head <= a[i].Tail()
    ensures Waiting(a) >= a[k].Tail() - a[k].head
    decreases |a|
  {
    var n := |a| - 1;
    if k < n {
      WaitingIsPositive(a[..n], k);
    } else if n > 0 {
      WaitingIsPositive(a[..n], 0);
    }
  }

  lemma NewStreamHolds(a: seq<Stream>, side: Side, drawn: int)
    requires Fits(a, side, drawn) && drawn < |a|
    ensures var b := a + [Stream([], 0, 0, 0)];
            Fits(b, side, drawn) && Grown(a, b) && Waiting(b) == Waiting(a) && Consumed(b) == Consumed(a)
  {
    hide Consumed, Waiting;
    var b := a + [Stream([], 0, 0, 0)];
    assert Grown(a, b);
    GrownConsumesNothing(a, b);
    NewStreamWaitsForNothing(a);
  }

  lemma NewStreamWaitsForNothing(a: seq<Stream>)
    ensures Waiting(a + [Stream([], 0, 0, 0)]) == Waiting(a)
  {
    assert (a + [Stream([], 0, 0, 0)])[..|a|] == a;
  }

  lemma PublishedHolds(a: seq<Stream>, side: Side, drawn: int, k: nat, o: Order)
    requires Fits(a, side, drawn) && k < |a| && o.side == side
    ensures var b := a[k := a[k].(elems := a[k].elems + [o])];
            Fits(b, side, drawn) && Grown(a, b) && Waiting(b) == Waiting(a) + 1 && Consumed(b) == Consumed(a)
  {
    hide Waiting, Consumed;
    PublishingAddsOne(a, k, o);
    GrownConsumesNothing(a, a[k := a[k].(elems := a[k].elems + [o])]);
  }

  lemma GrownStaysFull(a: seq<Stream>, b: seq<Stream>, k: nat)
    requires Grown(a, b) && k < |a| && a[k].HasElement()
    ensures b[k].HasElement()
  {
  }

  lemma GrownAt(a: seq<Stream>, b: seq<Stream>, k: nat)
    requires Grown(a, b) && k < |a|
    ensures |a| <= |b| && a[k].Tail() <= b[k].Tail()
    ensures b[k].head == a[k].head && b[k].opt == a[k].opt && b[k].over == a[k].over
  {
  }

  /** The first test of dequeue, for a sole consumer: it passes exactly when the tail read was past the head. */
  lemma TestMeans(was: Stream, a: seq<Stream>, side: Side, drawn: int, k: nat, tail: nat)
    requires Fits(a, side, drawn) && k < |a| && drawn != k && was.head == a[k].head
    requires was.Tail() <= tail <= a[k].Tail()
    ensures a[k].opt - a[k].over == a[k].head && (a[k].head < tail ==> a[k].HasElement())
    ensures was.HasElement() ==> a[k].head < tail
  {
  }

  lemma DrawnHasElement(a: seq<Stream>, k: nat, opt: nat)
    requires k < |a| && a[k].HasElement()
    ensures a[k := a[k].(opt := opt)][k].HasElement()
  {
  }

  lemma TookAfterDraw(a: seq<Stream>, b: seq<Stream>, k: nat, opt: nat, c: seq<Stream>)
    requires Grown(a, b) && k < |a| <= |b| && Took(b[k := b[k].(opt := opt)], c, k)
    ensures Took(a, c, k) && |a| <= |c|
  {
  }

  lemma GrownStaysAny(a: seq<Stream>, b: seq<Stream>)
    requires Grown(a, b) && AnyElement(a)
    ensures AnyElement(b)
  {
    var k :| 0 <= k < |a| && a[k].HasElement();
    GrownStaysFull(a, b, k);
  }

  // ---------- Which stream is tried ----------

  /** The number of non-empty streams from k on: those of the newest producers. */
  function NonEmptyFrom(a: seq<Stream>, k: nat): nat
    decreases |a| - k
  {
    if k >= |a| then 0 else (if a[k].HasElement() then 1 else 0) + NonEmptyFrom(a, k + 1)
  }

  /** One of the three newest streams that are not empty. */
  predicate Candidate(a: seq<Stream>, k: nat) {
    k < |a| && a[k].HasElement() && NonEmptyFrom(a, k + 1) < 3
  }

  /** The fullest of them, the newest of those if several are equally full. */
  ghost predicate Fullest(a: seq<Stream>, best: nat) {
    && Candidate(a, best)
    && (forall k: nat | Candidate(a, k) :: a[k].Size() < a[best].Size() || (a[k].Size() == a[best].Size() && k <= best))
  }

  /** The scan's choice among the streams from k on. */
  ghost predicate FullestFrom(a: seq<Stream>, k: nat, best: nat) {
    && k <= best < |a| && a[best].HasElement()
    && (forall i | k <= i < |a| && a[i].HasElement() ::
          a[i].Size() < a[best].Size() || (a[i].Size() == a[best].Size() && i <= best))
  }

  lemma {:induction false} FewerFurtherOn(a: seq<Stream>, k: nat, i: nat)
    requires k <= i
    ensures NonEmptyFrom(a, i) <= NonEmptyFrom(a, k)
    decreases i - k
  {
    if k < i {
      FewerFurtherOn(a, k + 1, i);
    }
  }

  lemma ScanFindsFullest(a: seq<Stream>, k: nat, best: nat)
    requires k <= |a| && FullestFrom(a, k, best) && NonEmptyFrom(a, k) <= 3 && (k == 0 || NonEmptyFrom(a, k) == 3)
    ensures Fullest(a, best)
  {
    hide Stream.HasElement, Stream.Size;
    FewerFurtherOn(a, k, best);
    forall i: nat | Candidate(a, i)
      ensures i >= k
    {
      if i < k {
        FewerFurtherOn(a, i + 1, k);
      }
    }
  }

  /** One more stream is looked at. */
  lemma ScanOn(a: seq<Stream>, k: nat, best: nat, size: nat)
    requires k < |a| && size == (if a[k].HasElement() then a[k].Size() else 0)
    requires NonEmptyFrom(a, k + 1) > 0 ==> FullestFrom(a, k + 1, best)
    ensures NonEmptyFrom(a, k) == NonEmptyFrom(a, k + 1) + if size > 0 then 1 else 0
    ensures NonEmptyFrom(a, k + 1) > 0 && size <= a[best].Size() ==> FullestFrom(a, k, best)
    ensures NonEmptyFrom(a, k + 1) > 0 && size > a[best].Size() ==> FullestFrom(a, k, k)
    ensures NonEmptyFrom(a, k + 1) == 0 && size > 0 ==> FullestFrom(a, k, k)
  {
    if NonEmptyFrom(a, k + 1) == 0 {
      NoneFurtherOn(a, k + 1);
    }
  }

  lemma NoneBeyond(a: seq<Stream>)
    ensures NonEmptyFrom(a, |a|) == 0
  {
  }

  lemma LooksEmptyIff(s: Stream, size: nat)
    requires size == s.Size()
    ensures size == if s.HasElement() then s.Size() else 0
  {
  }

  lemma {:induction false} NoneFurtherOn(a: seq<Stream>, k: nat)
    requires NonEmptyFrom(a, k) == 0
    ensures forall i | k <= i < |a| :: !a[i].HasElement()
    decreases |a| - k
  {
    if k < |a| {
      NoneFurtherOn(a, k + 1);
    }
  }

  // ---------- The queue ----------

  /**
   * The queue of one side. `supply` bounds what the handlers will still publish while the core thread runs;
   * `taken` is every order dequeued, in order, and `drawn` the stream of a ticket not yet settled.
   */
  class OrderQueue {
    const side: Side
    var streams: seq<Stream>
    var supply: nat
    ghost var taken: seq<Order>
    ghost var drawn: int

    ghost predicate Valid()
      reads this
    {
      Fits(streams, side, drawn) && multiset(taken) == Consumed(streams)
    }

    constructor (side: Side, supply: nat)
      ensures Valid() && drawn == -1 && this.side == side && this.supply == supply && streams == [] && taken == []
    {
      this.side := side;
      this.supply := supply;
      streams := [];
      taken := [];
      drawn := -1;
    }

    /** push: a handler enqueues on its own stream, which is new if this is its first order. */
    method Push(producer: nat, order: Order)
      requires Valid() && producer <= |streams| && order.side == side && drawn < |streams|
      modifies this`streams
      ensures Valid() && Grown(old(streams), streams)
      ensures Waiting(streams) == old(Waiting(streams)) + 1
      ensures |streams| == if producer < |old(streams)| then |old(streams)| else producer + 1
      ensures streams[producer].elems == (if producer < |old(streams)| then old(streams)[producer].elems else []) + [order]
      ensures forall k | 0 <= k < |old(streams)| && k != producer :: streams[k] == old(streams)[k]
    {
      hide Consumed, Waiting;
      if producer == |streams| {
        NewStreamHolds(streams, side, drawn);
        streams := streams + [Stream([], 0, 0, 0)];
      }
      PublishedHolds(streams, side, drawn, producer, order);
      var s := streams[producer];
      streams := streams[producer := s.(elems := s.elems + [order])];
    }

    /** Whatever the handlers do between two steps of the core thread. */
    method Interfere()
      requires Valid() && drawn < |streams|
      modifies this`streams, this`supply
      ensures Valid() && Grown(old(streams), streams)
      ensures supply + Waiting(streams) == old(supply + Waiting(streams))
      ensures old(supply) == 0 ==> supply == 0 && streams == old(streams)
    {
      var n :| 0 <= n <= supply;
      for i := 0 to n
        invariant i == 0 ==> streams == old(streams)
        invariant Valid() && Grown(old(streams), streams) && supply == old(supply) - i
        invariant supply + Waiting(streams) == old(supply + Waiting(streams))
      {
        var order: Order := *;
        var producer: nat :| producer <= |streams|;
        ghost var before := streams;
        Push(producer, order.(side := side));
        supply := supply - 1;
        GrownTwice(old(streams), before, streams);
      }
    }

    /** size_approx of one stream: the tail is read before the head. */
    method StreamSize(k: nat) returns (size: nat)
      requires Valid() && k < |streams| && drawn < |streams|
      modifies this`streams, this`supply
      ensures Valid() && Grown(old(streams), streams)
      ensures supply + Waiting(streams) == old(supply + Waiting(streams))
      ensures size > 0 ==> streams[k].HasElement()
      ensures old(streams)[k].HasElement() ==> size > 0
      ensures old(streams)[k].Size() <= size <= streams[k].Size()
      ensures old(supply) == 0 ==> supply == 0 && streams == old(streams)
    {
      Interfere();
      var tail := streams[k].Tail();
      ghost var before := streams;
      Interfere();
      GrownTwice(old(streams), before, streams);
      var head := streams[k].head;
      size := if head < tail then tail - head else 0;
    }

    /** is_empty: size_approx, over the streams known when it starts, newest first. */
    method IsEmpty() returns (empty: bool)
      requires Valid() && drawn == -1
      modifies this`streams, this`supply
      ensures Valid() && Grown(old(streams), streams)
      ensures supply + Waiting(streams) == old(supply + Waiting(streams))
      ensures !empty ==> AnyElement(streams)
      ensures empty ==> !AnyElement(old(streams))
    {
      hide Fits, Consumed, Waiting, Grown, Stream.HasElement;
      Interfere();
      GrownHasAsMany(old(streams), streams);
      var size: nat, k := 0, |streams|;
      while k > 0
        invariant Valid() && 0 <= k <= |streams| && Grown(old(streams), streams)
        invariant supply + Waiting(streams) == old(supply + Waiting(streams))
        invariant size > 0 ==> AnyElement(streams)
        invariant size == 0 ==> forall i | k <= i < |old(streams)| :: !old(streams)[i].HasElement()
      {
        k := k - 1;
        ghost var before := streams;
        var more := StreamSize(k);
        GrownHasAsMany(before, streams);
        if size > 0 {
          GrownStaysAny(before, streams);
        }
        if k < |old(streams)| && old(streams)[k].HasElement() {
          GrownStaysFull(old(streams), before, k);
        }
        GrownTwice(old(streams), before, streams);
        size := size + more;
      }
      empty := size == 0;
    }

    /** fetch_add on the optimistic count: a ticket is drawn from stream k. */
    method DrawTicket(k: nat) returns (ticket: nat)
      requires Valid() && drawn == -1 && k < |streams|
      modifies this`streams, this`drawn
      ensures Valid() && drawn == k && ticket == old(streams)[k].opt
      ensures streams == old(streams)[k := old(streams)[k].(opt := ticket + 1)]
      ensures Waiting(streams) == old(Waiting(streams))
    {
      var s := streams[k];
      ticket := s.opt;
      streams := streams[k := s.(opt := ticket + 1)];
      drawn := k;
      OptDoesNotCount(old(streams), k, ticket + 1);
    }

    /** fetch_add on the head, and the element at the index it returns: the ticket is settled. */
    method ClaimHead(k: nat) returns (item: Order)
      requires Valid() && 0 <= k == drawn < |streams| && streams[k].HasElement()
      modifies this`streams, this`taken, this`drawn
      ensures Valid() && drawn == -1
      ensures item == old(streams)[k].elems[old(streams)[k].head] && item.side == side && taken == old(taken) + [item]
      ensures streams == old(streams)[k := old(streams)[k].(head := old(streams)[k].head + 1)]
      ensures Waiting(streams) == old(Waiting(streams)) - 1
    {
      hide Consumed, Waiting, More;
      HeadCounts(streams, k);
      var s := streams[k];
      item := s.elems[s.head];
      TakenGrows(taken, item);
      streams := streams[k := s.(head := s.head + 1)];
      taken := taken + [item];
      drawn := -1;
    }

    /**
     * The second half of dequeue, once a ticket is drawn. For a sole consumer the ticket less the overcommit is its own
     * head, so the ticket is good: the branch that takes it back is not reached.
     */
    method SettleTicket(k: nat, ticket: nat, over: nat) returns (item: Order)
      requires Valid() && k == drawn < |streams| && streams[k].HasElement()
      requires ticket + 1 == streams[k].opt && over == streams[k].over
      modifies this`streams, this`supply, this`taken, this`drawn
      ensures Valid() && drawn == -1
      ensures Took(old(streams), streams, k) && item == streams[k].elems[streams[k].head - 1]
      ensures item.side == side && taken == old(taken) + [item]
      ensures supply + Waiting(streams) == old(supply + Waiting(streams)) - 1
    {
      hide Consumed, Waiting;
      Interfere();
      var tail := streams[k].Tail();
      if ticket - over < tail {
        Interfere();
        item := ClaimHead(k);
      } else {
        assert false;
      }
    }

    /** dequeue of one stream. */
    method Dequeue(k: nat) returns (ok: bool, item: Order)
      requires Valid() && drawn == -1 && k < |streams|
      modifies this`streams, this`supply, this`taken, this`drawn
      ensures Valid() && drawn == -1 && |old(streams)| <= |streams|
      ensures old(streams)[k].HasElement() ==> ok
      ensures ok ==> Took(old(streams), streams, k) && item == streams[k].elems[streams[k].head - 1]
      ensures ok ==> item.side == side && taken == old(taken) + [item]
      ensures !ok ==> Grown(old(streams), streams) && taken == old(taken)
      ensures supply + Waiting(streams) == old(supply + Waiting(streams)) - if ok then 1 else 0
    {
      hide Consumed, Waiting, Fits, Grown, Took, Stream.HasElement;
      ok, item := false, DEFAULT_ORDER;
      Interfere();
      GrownAt(old(streams), streams, k);
      var tail := streams[k].Tail();
      ghost var before := streams;
      Interfere();
      GrownAt(before, streams, k);
      GrownTwice(old(streams), before, streams);
      var over := streams[k].over;
      before := streams;
      Interfere();
      GrownAt(before, streams, k);
      GrownTwice(old(streams), before, streams);
      TestMeans(old(streams)[k], streams, side, drawn, k, tail);
      if streams[k].opt - over < tail {
        before := streams;
        Interfere();
        GrownAt(before, streams, k);
        GrownStaysFull(before, streams, k);
        GrownTwice(old(streams), before, streams);
        before := streams;
        var ticket := DrawTicket(k);
        DrawnHasElement(before, k, ticket + 1);
        item := SettleTicket(k, ticket, over);
        TookAfterDraw(old(streams), before, k, ticket + 1, streams);
        ok := true;
      }
    }

    /**
     * try_dequeue: the fullest of the first three streams that look non-empty, which is the fullest of the newest three
     * when no handler publishes meanwhile. A sole consumer that found one gets its element, so the scan of all streams
     * that follows a failed dequeue is not reached.
     */
    method TryDequeue() returns (ok: bool, item: Order, ghost from: nat)
      requires Valid() && drawn == -1
      modifies this`streams, this`supply, this`taken, this`drawn
      ensures Valid() && drawn == -1
      ensures AnyElement(old(streams)) ==> ok
      ensures ok ==> Took(old(streams), streams, from) && item == streams[from].elems[streams[from].head - 1]
      ensures ok ==> item.side == side && taken == old(taken) + [item]
      ensures !ok ==> Grown(old(streams), streams) && taken == old(taken)
      ensures old(supply) == 0 && ok ==> Fullest(old(streams), from)
      ensures supply + Waiting(streams) == old(supply + Waiting(streams)) - if ok then 1 else 0
    {
      hide Fits, Consumed, Waiting, Grown, Took, Stream.HasElement, Stream.Size, NonEmptyFrom, FullestFrom, Fullest;
      ghost var quiet := supply == 0;
      ok, item, from := false, DEFAULT_ORDER, 0;
      Interfere();
      GrownHasAsMany(old(streams), streams);
      var nonEmptyCount, best, bestSize: nat, k := 0, 0, 0, |streams|;
      NoneBeyond(streams);
      while nonEmptyCount < 3 && k > 0
        invariant Valid() && drawn == -1 && 0 <= k <= |streams| && Grown(old(streams), streams) && nonEmptyCount >= 0
        invariant supply + Waiting(streams) == old(supply + Waiting(streams)) && taken == old(taken)
        invariant nonEmptyCount > 0 ==> bestSize > 0 && 0 <= best < |streams| && streams[best].HasElement()
        invariant nonEmptyCount == 0 ==> bestSize == 0
        invariant nonEmptyCount == 0 ==> forall i | k <= i < |old(streams)| :: !old(streams)[i].HasElement()
        invariant quiet ==> supply == 0 && streams == old(streams)
        invariant quiet ==> nonEmptyCount == NonEmptyFrom(streams, k) && nonEmptyCount <= 3
        invariant quiet && nonEmptyCount > 0 ==> FullestFrom(streams, k, best) && bestSize == streams[best].Size()
        decreases k
      {
        k := k - 1;
        ghost var before := streams;
        var size := StreamSize(k);
        GrownHasAsMany(before, streams);
        if nonEmptyCount > 0 {
          GrownStaysFull(before, streams, best);
        }
        if k < |old(streams)| && old(streams)[k].HasElement() {
          GrownStaysFull(old(streams), before, k);
        }
        GrownTwice(old(streams), before, streams);
        if quiet {
          LooksEmptyIff(streams[k], size);
          ScanOn(streams, k, best, size);
        }
        if size > 0 {
          if size > bestSize {
            bestSize, best := size, k;
          }
          nonEmptyCount := nonEmptyCount + 1;
        }
      }
      if nonEmptyCount > 0 {
        if quiet {
          ScanFindsFullest(streams, k, best);
        }
        ghost var before := streams;
        ok, item := Dequeue(best);
        from := best;
        GrownThenTook(old(streams), before, streams, best);
      }
    }

    /** pop: whatever try_dequeue leaves in its argument. */
    method Pop() returns (order: Order, ok: bool, ghost from: nat)
      requires Valid() && drawn == -1
      modifies this`streams, this`supply, this`taken, this`drawn
      ensures Valid() && drawn == -1
      ensures AnyElement(old(streams)) ==> ok
      ensures ok ==> Took(old(streams), streams, from) && order == streams[from].elems[streams[from].head - 1]
      ensures ok ==> order.side == side && taken == old(taken) + [order]
      ensures !ok ==> Grown(old(streams), streams) && taken == old(taken)
      ensures old(supply) == 0 && ok ==> Fullest(old(streams), from)
      ensures supply + Waiting(streams) == old(supply + Waiting(streams)) - if ok then 1 else 0
    {
      hide Fits, Consumed, Waiting, Grown, Took, Fullest;
      ok, order, from := TryDequeue();
    }
  }

  // ---------- The books take what the queues give ----------

  /** The book with a sequence of orders added. */
  function AddAll(book: multiset<Order>, orders: seq<Order>): multiset<Order> {
    if orders == [] then book else More(AddAll(book, orders[..|orders| - 1]), orders[|orders| - 1])
  }

  lemma AddAllMore(book: multiset<Order>, orders: seq<Order>, o: Order)
    ensures AddAll(book, orders + [o]) == More(AddAll(book, orders), o)
  {
    assert (orders + [o])[..|orders|] == orders;
  }

  /** Everything published in `was` has been dequeued. */
  ghost predicate Drained(was: seq<Stream>, now: seq<Stream>) {
    |was| <= |now| && forall k | 0 <= k < |was| :: was[k].elems <= now[k].elems && was[k].Tail() <= now[k].head
  }

  /** Streams only grow and heads only advance. */
  ghost predicate Onwards(a: seq<Stream>, b: seq<Stream>) {
    |a| <= |b| && forall k | 0 <= k < |a| :: a[k].elems <= b[k].elems && a[k].head <= b[k].head
  }

  lemma OnwardsTwice(a: seq<Stream>, b: seq<Stream>, c: seq<Stream>)
    requires Onwards(a, b) && (Grown(b, c) || exists k: nat :: Took(b, c, k))
    ensures Onwards(a, c)
  {
  }

  lemma EmptyIsDrained(a: seq<Stream>, b: seq<Stream>, c: seq<Stream>)
    requires Onwards(a, b) && !AnyElement(b) && Grown(b, c)
    ensures Drained(a, c)
  {
    forall k | 0 <= k < |a|
      ensures a[k].Tail() <= c[k].head
    {
      assert !b[k].HasElement();
    }
  }

  lemma SomethingWaits(a: seq<Stream>, side: Side, drawn: int)
    requires Fits(a, side, drawn) && AnyElement(a)
    ensures Waiting(a) > 0
  {
    var k :| 0 <= k < |a| && a[k].HasElement();
    WaitingIsPositive(a, k);
  }

  /** The books with the orders added on one side. */
  function Absorbed(b: Books, side: Side, orders: seq<Order>): Books {
    if side.Buy? then b.(buys := AddAll(b.buys, orders)) else b.(sells := AddAll(b.sells, orders))
  }

  lemma AbsorbedNothing(b: Books, side: Side)
    ensures Absorbed(b, side, []) == b
  {
  }

  lemma AbsorbedMore(b: Books, side: Side, orders: seq<Order>, o: Order)
    requires o.side == side
    ensures Absorbed(b, side, orders + [o]) == WithOne(Absorbed(b, side, orders), o)
  {
    hide AddAll, More;
    AddAllMore(b.Of(side), orders, o);
  }

  function WithOne(b: Books, o: Order): Books {
    if o.side.Buy? then b.(buys := More(b.buys, o)) else b.(sells := More(b.sells, o))
  }

  /** The comparators are orders on the prices of both books. */
  ghost predicate LawfulBooks(b: Books) {
    Lawful(Buy, b.buys) && Lawful(Sell, b.sells)
  }

  lemma LawfulBefore(b: Books, o: Order)
    requires LawfulBooks(WithOne(b, o))
    ensures LawfulBooks(b)
  {
    hide Lawful;
    LawfulIsHereditary(o.side, b.Of(o.side), WithOne(b, o).Of(o.side));
  }

  /** One order into its book; a heap that was sound stays so while the comparators are orders. */
  method PlaceOne(engine: Engine, order: Order)
    requires engine.Valid()
    modifies engine.buyBook, engine.sellBook
    ensures engine.View() == WithOne(old(engine.View()), order)
    ensures LawfulBooks(engine.View()) ==> LawfulBooks(old(engine.View()))
    ensures old(engine.Sound()) && LawfulBooks(engine.View()) ==> engine.Sound()
  {
    hide More, OrderBook.Sound, Lawful;
    ghost var books := engine.View();
    engine.PlaceOrder(order);
    if LawfulBooks(engine.View()) {
      LawfulBefore(books, order);
    }
  }

  /** What is still to be published or dequeued. */
  function Left(queue: OrderQueue): int
    reads queue
  {
    queue.supply + Waiting(queue.streams)
  }

  /** One pop of a queue that has an element, whose order goes on its book. */
  method AbsorbOne(engine: Engine, queue: OrderQueue, ghost start: seq<Stream>) returns (ghost order: Order)
    requires engine.Valid() && queue.Valid() && queue.drawn == -1
    requires AnyElement(queue.streams) && Onwards(start, queue.streams)
    modifies queue, engine.buyBook, engine.sellBook
    ensures queue.Valid() && queue.drawn == -1 && Onwards(start, queue.streams)
    ensures queue.taken == old(queue.taken) + [order] && order.side == queue.side
    ensures Left(queue) < old(Left(queue)) && old(Left(queue)) > 0
    ensures engine.View() == WithOne(old(engine.View()), order)
    ensures LawfulBooks(engine.View()) ==> LawfulBooks(old(engine.View()))
    ensures old(engine.Sound()) && LawfulBooks(engine.View()) ==> engine.Sound()
  {
    hide Fits, Consumed, Waiting, Grown, Took, Fullest, AnyElement, Onwards, LawfulBooks, OrderBook.Sound, WithOne;
    SomethingWaits(queue.streams, queue.side, queue.drawn);
    ghost var before := queue.streams;
    var popped, ok, from := queue.Pop();
    OnwardsTwice(start, before, queue.streams);
    PlaceOne(engine, popped);
    order := popped;
  }

  /**
   * One loop of complement_order_books. The answer of pop is ignored, soundly: a queue that did not look empty gives
   * up an order. The queue's side of the book gains exactly the orders dequeued, and all that had been published
   * when the call began is among them.
   */
  method AbsorbQueue(engine: Engine, queue: OrderQueue)
    requires engine.Valid() && queue.Valid() && queue.drawn == -1
    modifies queue, engine.buyBook, engine.sellBook
    ensures queue.Valid() && queue.drawn == -1 && Drained(old(queue.streams), queue.streams)
    ensures old(queue.taken) <= queue.taken
    ensures forall o | o in queue.taken[|old(queue.taken)|..] :: o.side == queue.side
    ensures engine.View() == Absorbed(old(engine.View()), queue.side, queue.taken[|old(queue.taken)|..])
    ensures old(engine.Sound()) && LawfulBooks(engine.View()) ==> engine.Sound()
  {
    hide Fits, Consumed, Waiting, Grown, Took, AnyElement, Stream.HasElement, Absorbed, LawfulBooks, OrderBook.Sound;
    hide WithOne;
    ghost var start, n, books, sound := queue.streams, |queue.taken|, engine.View(), engine.Sound();
    assert Onwards(start, start);
    hide Onwards, Drained;
    AbsorbedNothing(books, queue.side);
    assert queue.taken[n..] == [];
    var empty := queue.IsEmpty();
    assert queue.taken[n..] == [];
    OnwardsTwice(start, start, queue.streams);
    if empty {
      EmptyIsDrained(start, start, queue.streams);
    }
    while !empty
      invariant queue.Valid() && queue.drawn == -1 && Onwards(start, queue.streams)
      invariant empty ==> Drained(start, queue.streams)
      invariant !empty ==> AnyElement(queue.streams)
      invariant n <= |queue.taken| && queue.taken[..n] == old(queue.taken)
      invariant forall o | o in queue.taken[n..] :: o.side == queue.side
      invariant engine.View() == Absorbed(books, queue.side, queue.taken[n..])
      invariant sound && LawfulBooks(engine.View()) ==> engine.Sound()
      decreases Left(queue), !empty
    {
      ghost var gained := queue.taken[n..];
      ghost var order := AbsorbOne(engine, queue, start);
      AbsorbedMore(books, queue.side, gained, order);
      assert queue.taken[n..] == gained + [order];
      ghost var before := queue.streams;
      empty := queue.IsEmpty();
      if empty {
        EmptyIsDrained(start, before, queue.streams);
      }
      OnwardsTwice(start, before, queue.streams);
    }
  }

  /** complement_order_books: the buy queue into the buy book, then the sell queue into the sell book. */
  method ComplementOrderBooks(engine: Engine, buys: OrderQueue, sells: OrderQueue)
    requires engine.Valid() && buys.Valid() && sells.Valid() && buys.drawn == sells.drawn == -1
    requires buys.side == Buy && sells.side == Sell
    modifies buys, sells, engine.buyBook, engine.sellBook
    ensures buys.Valid() && sells.Valid()
    ensures Drained(old(buys.streams), buys.streams) && Drained(old(sells.streams), sells.streams)
    ensures old(buys.taken) <= buys.taken && old(sells.taken) <= sells.taken
    ensures engine.View() == Books(AddAll(old(engine.View()).buys, buys.taken[|old(buys.taken)|..]),
                                   AddAll(old(engine.View()).sells, sells.taken[|old(sells.taken)|..]))
    ensures forall o | o in buys.taken[|old(buys.taken)|..] :: o.side == Buy
    ensures forall o | o in sells.taken[|old(sells.taken)|..] :: o.side == Sell
    ensures old(engine.Sound()) && LawfulBooks(engine.View()) ==> engine.Sound()
  {
    hide OrderQueue.Valid, Drained, AddAll, OrderBook.Sound, LawfulBooks;
    AbsorbQueue(engine, buys);
    ghost var books := engine.View();
    AbsorbQueue(engine, sells);
    if LawfulBooks(engine.View()) {
      LawfulIfMore(books, sells.taken[|old(sells.taken)|..]);
    }
  }

  lemma LawfulIfMore(b: Books, sells: seq<Order>)
    requires LawfulBooks(Absorbed(b, Sell, sells))
    ensures LawfulBooks(b)
  {
    hide Lawful;
    AddAllGrows(b.sells, sells);
    LawfulIsHereditary(Sell, b.sells, AddAll(b.sells, sells));
  }

  lemma {:induction false} AddAllGrows(book: multiset<Order>, orders: seq<Order>)
    ensures book <= AddAll(book, orders)
  {
    if orders != [] {
      AddAllGrows(book, orders[..|orders| - 1]);
    }
  }
}
