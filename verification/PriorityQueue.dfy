/**
 * The two order books as binary heaps: std::priority_queue over a vector (server/core.hpp), and
 * Core::remove_from_queue.
 */
module PriorityQueue {
  import opened Orders
  import opened Sums

  function Parent(i: int): int {
    (i - 1) / 2
  }

  ghost predicate IsHeap(side: Side, h: seq<Order>) {
    forall i | 0 < i < |h| :: !Behind(side, h[Parent(i)], h[i])
  }

  ghost predicate Lawful(side: Side, m: multiset<Order>) {
    StrictWeakOrder(side, Prices(m))
  }

  lemma NotBehindIsTransitive(side: Side, m: multiset<Order>, x: Order, y: Order, z: Order)
    requires Lawful(side, m) && x in m && y in m && z in m
    requires !Behind(side, x, y) && !Behind(side, y, z)
    ensures !Behind(side, x, z)
  {
    assert x.price in Prices(m) && y.price in Prices(m) && z.price in Prices(m);
    assert ObeysOrderLaws(side, y, x, z) && ObeysOrderLaws(side, x, z, y) && ObeysOrderLaws(side, x, y, z);
  }

  lemma BehindExcludesReverse(side: Side, m: multiset<Order>, x: Order, y: Order)
    requires Lawful(side, m) && x in m && y in m && Behind(side, x, y)
    ensures !Behind(side, y, x)
  {
    assert x.price in Prices(m) && y.price in Prices(m);
    assert ObeysOrderLaws(side, x, y, x);
  }

  lemma LawfulIsHereditary(side: Side, small: multiset<Order>, big: multiset<Order>)
    requires Lawful(side, big) && small <= big
    ensures Lawful(side, small)
  {
    assert forall p | p in Prices(small) :: p in Prices(big);
  }

  /** The root of a lawful heap is a best order. */
  lemma {:induction false} RootIsBest(side: Side, h: seq<Order>, i: nat)
    requires i < |h| && IsHeap(side, h) && Lawful(side, multiset(h))
    ensures !Behind(side, h[0], h[i])
  {
    if i == 0 {
      assert h[0] in multiset(h) && h[0].price in Prices(multiset(h));
      assert ObeysOrderLaws(side, h[0], h[0], h[0]);
    } else {
      RootIsBest(side, h, Parent(i));
      NotBehindIsTransitive(side, multiset(h), h[0], h[Parent(i)], h[i]);
    }
  }

  function Swapped(h: seq<Order>, i: nat, j: nat): (r: seq<Order>)
    requires i < |h| && j < |h|
    ensures multiset(r) == multiset(h)
  {
    h[i := h[j]][j := h[i]]
  }

  /** Every edge is in order but the one above i, and i's children are not ahead of i's parent. */
  ghost predicate HeapButAbove(side: Side, h: seq<Order>, i: nat) {
    && (forall j | 0 < j < |h| && j != i :: !Behind(side, h[Parent(j)], h[j]))
    && (forall j | 0 < j < |h| && Parent(j) == i && i > 0 :: !Behind(side, h[Parent(i)], h[j]))
  }

  /** Every edge is in order but those below i, and i's children are not ahead of i's parent. */
  ghost predicate HeapButBelow(side: Side, h: seq<Order>, i: nat) {
    && (forall j | 0 < j < |h| && Parent(j) != i :: !Behind(side, h[Parent(j)], h[j]))
    && (forall j | 0 < j < |h| && Parent(j) == i && i > 0 :: !Behind(side, h[Parent(i)], h[j]))
  }

  lemma SiftUpStep(side: Side, h: seq<Order>, i: nat)
    requires 0 < i < |h| && HeapButAbove(side, h, i) && Lawful(side, multiset(h))
    requires Behind(side, h[Parent(i)], h[i])
    ensures HeapButAbove(side, Swapped(h, Parent(i), i), Parent(i))
  {
    var p := Parent(i);
    var h' := Swapped(h, p, i);
    var m := multiset(h);
    BehindExcludesReverse(side, m, h[p], h[i]);
    forall j | 0 < j < |h'| && j != p
      ensures !Behind(side, h'[Parent(j)], h'[j])
    {
      if Parent(j) == p && j != i {
        NotBehindIsTransitive(side, m, h[i], h[p], h[j]);
      }
    }
    forall j | 0 < j < |h'| && Parent(j) == p && p > 0
      ensures !Behind(side, h'[Parent(p)], h'[j])
    {
      if j != i {
        NotBehindIsTransitive(side, m, h[Parent(p)], h[p], h[j]);
      }
    }
  }

  lemma SiftDownStep(side: Side, h: seq<Order>, i: nat, c: nat)
    requires i < c < |h| && Parent(c) == i && HeapButBelow(side, h, i) && Lawful(side, multiset(h))
    requires Behind(side, h[i], h[c])
    requires forall j | 0 < j < |h| && Parent(j) == i :: !Behind(side, h[c], h[j])
    ensures HeapButBelow(side, Swapped(h, i, c), c)
  {
    var h' := Swapped(h, i, c);
    BehindExcludesReverse(side, multiset(h), h[i], h[c]);
    forall j | 0 < j < |h'| && Parent(j) != c
      ensures !Behind(side, h'[Parent(j)], h'[j])
    {
      if j == i {
        assert !Behind(side, h[Parent(i)], h[c]);
      }
    }
  }

  lemma BetterChildLeads(side: Side, h: seq<Order>, i: nat, c: nat)
    requires Lawful(side, multiset(h)) && 2 * i + 1 < |h| && c == BetterChild(side, h, i)
    ensures forall j | 0 < j < |h| && Parent(j) == i :: !Behind(side, h[c], h[j])
  {
    forall j | 0 < j < |h| && Parent(j) == i
      ensures !Behind(side, h[c], h[j])
    {
      if j != c && c == 2 * i + 2 {
        BehindExcludesReverse(side, multiset(h), h[j], h[c]);
      }
    }
  }

  lemma SettledChildren(side: Side, h: seq<Order>, i: nat, c: nat)
    requires Lawful(side, multiset(h)) && HeapButBelow(side, h, i) && c < |h|
    requires i < |h| && !Behind(side, h[i], h[c])
    requires forall j | 0 < j < |h| && Parent(j) == i :: !Behind(side, h[c], h[j])
    ensures IsHeap(side, h)
  {
    forall j | 0 < j < |h|
      ensures !Behind(side, h[Parent(j)], h[j])
    {
      if Parent(j) == i {
        NotBehindIsTransitive(side, multiset(h), h[i], h[c], h[j]);
      }
    }
  }

  /** Bubbling the order at i towards the root. */
  function SiftedUp(side: Side, h: seq<Order>, i: nat): (r: seq<Order>)
    requires i < |h|
    ensures multiset(r) == multiset(h)
    decreases i
  {
    if i > 0 && Behind(side, h[Parent(i)], h[i]) then SiftedUp(side, Swapped(h, Parent(i), i), Parent(i)) else h
  }

  lemma {:induction false} SiftedUpIsHeap(side: Side, h: seq<Order>, i: nat)
    requires i < |h| && HeapButAbove(side, h, i) && Lawful(side, multiset(h))
    ensures IsHeap(side, SiftedUp(side, h, i))
    decreases i
  {
    if i > 0 && Behind(side, h[Parent(i)], h[i]) {
      SiftUpStep(side, h, i);
      SiftedUpIsHeap(side, Swapped(h, Parent(i), i), Parent(i));
    }
  }

  /** The child of i that is served first. */
  function BetterChild(side: Side, h: seq<Order>, i: nat): nat
    requires 2 * i + 1 < |h|
  {
    if 2 * i + 2 < |h| && Behind(side, h[2 * i + 1], h[2 * i + 2]) then 2 * i + 2 else 2 * i + 1
  }

  /** Sinking the order at i until no child is ahead of it. */
  function SiftedDown(side: Side, h: seq<Order>, i: nat): (r: seq<Order>)
    requires i < |h|
    ensures multiset(r) == multiset(h)
    decreases |h| - i
  {
    if 2 * i + 1 < |h| && Behind(side, h[i], h[BetterChild(side, h, i)]) then
      SiftedDown(side, Swapped(h, i, BetterChild(side, h, i)), BetterChild(side, h, i))
    else h
  }

  lemma {:induction false} SiftedDownIsHeap(side: Side, h: seq<Order>, i: nat)
    requires i < |h| && HeapButBelow(side, h, i) && Lawful(side, multiset(h))
    ensures IsHeap(side, SiftedDown(side, h, i))
    decreases |h| - i
  {
    if 2 * i + 1 < |h| {
      var c := BetterChild(side, h, i);
      BetterChildLeads(side, h, i, c);
      if Behind(side, h[i], h[c]) {
        SiftDownStep(side, h, i, c);
        SiftedDownIsHeap(side, Swapped(h, i, c), c);
      } else {
        SettledChildren(side, h, i, c);
      }
    }
  }

  /** Putting the last order in the root's place and sinking it: pop_heap and pop_back. */
  function WithoutRoot(side: Side, h: seq<Order>): seq<Order>
    requires h != []
  {
    if |h| == 1 then [] else SiftedDown(side, [h[|h| - 1]] + h[1..|h| - 1], 0)
  }

  lemma EndsApart(h: seq<Order>)
    requires |h| > 1
    ensures multiset([h[|h| - 1]] + h[1..|h| - 1]) == Less(multiset(h), h[0])
  {
    var mid, first, last := h[1..|h| - 1], h[0], h[|h| - 1];
    assert h == [first] + (mid + [last]);
    assert multiset(h) == multiset([first]) + multiset(mid + [last]);
    assert multiset(mid + [last]) == multiset(mid) + multiset([last]);
    assert multiset([last] + mid) == multiset([last]) + multiset(mid);
  }

  lemma WithoutRootKeepsTheRest(side: Side, h: seq<Order>)
    requires h != []
    ensures multiset(WithoutRoot(side, h)) == Less(multiset(h), h[0])
  {
    if |h| > 1 {
      hide Less;
      EndsApart(h);
    } else {
      assert h == [h[0]];
    }
  }

  lemma WithoutRootIsHeap(side: Side, h: seq<Order>)
    requires h != [] && IsHeap(side, h) && Lawful(side, multiset(h))
    ensures IsHeap(side, WithoutRoot(side, h)) && Lawful(side, multiset(WithoutRoot(side, h)))
  {
    WithoutRootKeepsTheRest(side, h);
    LawfulIsHereditary(side, multiset(WithoutRoot(side, h)), multiset(h));
    if |h| > 1 {
      var r := [h[|h| - 1]] + h[1..|h| - 1];
      NewRootIsSinkable(side, h, r);
      assert multiset(r) == multiset(WithoutRoot(side, h));
      SiftedDownIsHeap(side, r, 0);
    }
  }

  lemma NewRootIsSinkable(side: Side, h: seq<Order>, r: seq<Order>)
    requires |h| > 1 && IsHeap(side, h) && r == [h[|h| - 1]] + h[1..|h| - 1]
    ensures HeapButBelow(side, r, 0)
  {
    assert forall j | 0 < j < |r| :: r[j] == h[j];
  }

  /** The root of a lawful heap is the earliest order within EPSILON of its price, and no order is better priced. */
  lemma RootIsBestOfAll(side: Side, h: seq<Order>)
    requires h != [] && IsHeap(side, h) && Lawful(side, multiset(h))
    ensures IsBest(side, h[0], multiset(h))
    ensures forall o | o in h && -EPSILON < o.price - h[0].price < EPSILON :: h[0].timestamp <= o.timestamp
    ensures forall o | o in h && o.price - h[0].price >= EPSILON :: side == Sell
    ensures forall o | o in h && o.price - h[0].price <= -EPSILON :: side == Buy
  {
    forall o | o in multiset(h)
      ensures !Behind(side, h[0], o)
    {
      var i :| 0 <= i < |h| && h[i] == o;
      RootIsBest(side, h, i);
    }
    BestIsFirst(side, h[0], multiset(h));
  }

  /** What is left of a book when every order with the given id is taken out. */
  ghost function Without(m: multiset<Order>, id: int): (r: multiset<Order>)
    ensures forall o :: r[o] == if o.id == id then 0 else m[o]
    decreases |m|
  {
    if x :| x in m && x.id == id then Without(Less(m, x), id) else m
  }

  ghost predicate HasId(m: multiset<Order>, id: int) {
    exists o :: o in m && o.id == id
  }

  lemma WithoutIsUnique(m: multiset<Order>, kept: multiset<Order>, dropped: multiset<Order>, id: int)
    requires m == kept + dropped
    requires (forall o | o in kept :: o.id != id) && (forall o | o in dropped :: o.id == id)
    ensures kept == Without(m, id)
    ensures dropped != multiset{} <==> HasId(m, id)
  {
    if o :| o in dropped {
      assert o in m;
    }
    forall o
      ensures kept[o] == Without(m, id)[o]
    {
    }
  }

  /** Half way through the drain: what is left, what is kept and what is dropped make up the book. */
  ghost predicate Sieved(
    was: multiset<Order>, left: multiset<Order>, kept: multiset<Order>, dropped: multiset<Order>, id: int)
  {
    && was == left + kept + dropped
    && (forall o | o in kept :: o.id != id)
    && (forall o | o in dropped :: o.id == id)
  }

  lemma SieveStep(
    side: Side, was: multiset<Order>, left: multiset<Order>, kept: multiset<Order>, dropped: multiset<Order>, id: int,
    x: Order)
    requires Sieved(was, left, kept, dropped, id) && x in left
    ensures x.id != id ==> Sieved(was, Less(left, x), More(kept, x), dropped, id)
    ensures x.id == id ==> Sieved(was, Less(left, x), kept, More(dropped, x), id)
    ensures Lawful(side, was) ==> Lawful(side, More(kept, x))
  {
    if Lawful(side, was) {
      LawfulIsHereditary(side, More(kept, x), was);
    }
  }

  /** A new last order sifted up: one order more, in a heap if it was one and the comparator is an order. */
  lemma PushedUp(side: Side, was: seq<Order>, x: Order)
    ensures var r := SiftedUp(side, was + [x], |was|);
            multiset(r) == More(multiset(was), x)
            && (IsHeap(side, was) && Lawful(side, multiset(r)) ==> IsHeap(side, r))
  {
    hide Lawful, SiftedUp, Behind;
    var start := was + [x];
    if IsHeap(side, was) && Lawful(side, multiset(start)) {
      assert HeapButAbove(side, start, |was|) by {
        LastMayBeAbove(side, was, x);
      }
      SiftedUpIsHeap(side, start, |was|);
    }
  }

  lemma LastMayBeAbove(side: Side, was: seq<Order>, x: Order)
    requires IsHeap(side, was)
    ensures HeapButAbove(side, was + [x], |was|)
  {
    hide Behind;
    assert forall j | 0 < j < |was| :: (was + [x])[j] == was[j] && (was + [x])[Parent(j)] == was[Parent(j)];
  }


  class OrderBook {
    const side: Side
    var heap: seq<Order>

    ghost function Contents(): (m: multiset<Order>)
      reads this
    {
      multiset(heap)
    }

    /** The vector is a heap under a comparator that is an order on the prices present. */
    ghost predicate Sound()
      reads this
    {
      IsHeap(side, heap) && Lawful(side, Contents())
    }

    constructor (side: Side)
      ensures this.side == side && Contents() == multiset{} && Sound()
    {
      this.side := side;
      heap := [];
    }

    method Push(x: Order)
      modifies this`heap
      ensures Contents() == More(old(Contents()), x)
      ensures old(IsHeap(side, heap)) && Lawful(side, Contents()) ==> Sound()
    {
      hide IsHeap, Lawful, More, Behind, Swapped;
      PushedUp(side, heap, x);
      heap := heap + [x];
      ghost var start := heap;
      var i := |heap| - 1;
      while i > 0 && Behind(side, heap[Parent(i)], heap[i])
        invariant 0 <= i < |heap|
        invariant SiftedUp(side, heap, i) == SiftedUp(side, start, |start| - 1)
      {
        heap := Swapped(heap, Parent(i), i);
        i := Parent(i);
      }
    }

    method Top() returns (x: Order)
      requires heap != []
      ensures x == heap[0] && x in Contents()
      ensures Sound() ==> IsBest(side, x, Contents())
      ensures Sound() ==> forall o | o in Contents() && -EPSILON < o.price - x.price < EPSILON ::
                            x.timestamp <= o.timestamp
      ensures Sound() ==> forall o | o in Contents() && o.price - x.price >= EPSILON :: side == Sell
      ensures Sound() ==> forall o | o in Contents() && o.price - x.price <= -EPSILON :: side == Buy
    {
      x := heap[0];
      if Sound() {
        RootIsBestOfAll(side, heap);
      }
    }

    method Pop() returns (x: Order)
      requires heap != []
      modifies this`heap
      ensures x == old(heap[0]) && x in old(Contents()) && Contents() == Less(old(Contents()), x)
      ensures old(Sound()) ==> Sound() && IsBest(side, x, old(Contents()))
      ensures old(Sound()) ==> forall o | o in old(Contents()) && -EPSILON < o.price - x.price < EPSILON ::
                                 x.timestamp <= o.timestamp
      ensures old(Sound()) ==> forall o | o in old(Contents()) && o.price - x.price >= EPSILON :: side == Sell
      ensures old(Sound()) ==> forall o | o in old(Contents()) && o.price - x.price <= -EPSILON :: side == Buy
    {
      hide IsHeap, Lawful, IsBest, Less, SiftedDown;
      x := Top();
      ghost var was := heap;
      WithoutRootKeepsTheRest(side, was);
      if Sound() {
        WithoutRootIsHeap(side, was);
      }
      if |heap| == 1 {
        heap := [];
      } else {
        heap := [heap[|heap| - 1]] + heap[1..|heap| - 1];
        SiftDown();
      }
      assert heap == WithoutRoot(side, was);
    }

    /** Moves the root down until no child is ahead of it. */
    method SiftDown()
      requires heap != []
      modifies this`heap
      ensures heap == SiftedDown(side, old(heap), 0)
    {
      var i := 0;
      while 2 * i + 1 < |heap|
        invariant 0 <= i < |heap|
        invariant SiftedDown(side, heap, i) == SiftedDown(side, old(heap), 0)
        decreases |heap| - i
      {
        var c := BetterChild(side, heap, i);
        if !Behind(side, heap[i], heap[c]) {
          break;
        }
        heap := Swapped(heap, i, c);
        i := c;
      }
    }

    /** Core::remove_from_queue: drains the heap into a fresh one, dropping the orders with the given id. */
    method RemoveById(id: int) returns (found: bool)
      modifies this`heap
      ensures found <==> HasId(old(Contents()), id)
      ensures Contents() == Without(old(Contents()), id)
      ensures old(Sound()) ==> Sound()
    {
      var rest := new OrderBook(side);
      ghost var was := Contents();
      ghost var dropped;
      found, dropped := SieveInto(rest, id);
      WithoutIsUnique(was, rest.Contents(), dropped, id);
      heap := rest.heap;
    }

    /** Pops every order, pushing those whose id differs into `rest`. */
    method SieveInto(rest: OrderBook, id: int) returns (found: bool, ghost dropped: multiset<Order>)
      requires rest != this && rest.side == side && rest.Contents() == multiset{} && rest.Sound()
      modifies this`heap, rest`heap
      ensures Sieved(old(Contents()), multiset{}, rest.Contents(), dropped, id)
      ensures found <==> dropped != multiset{}
      ensures old(Sound()) ==> rest.Sound()
    {
      found, dropped := false, multiset{};
      ghost var lawful, was := Sound(), Contents();
      while heap != []
        invariant Sieved(was, Contents(), rest.Contents(), dropped, id)
        invariant found <==> dropped != multiset{}
        invariant lawful ==> Sound() && rest.Sound()
        decreases |heap|
      {
        ghost var left := Contents();
        var order := Pop();
        SieveStep(side, was, left, rest.Contents(), dropped, id, order);
        if order.id != id {
          rest.Push(order);
        } else {
          found := true;
          dropped := More(dropped, order);
        }
      }
    }
  }
}
