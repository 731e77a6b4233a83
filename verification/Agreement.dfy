/** One side of the market: where its live orders are, and the active map that must agree with them. */
module Agreement {
  import opened Orders
  import opened Sums
  import opened PriorityQueue

  /**
   * queue: accepted, not yet absorbed; book: in the heap; hand: popped by the matcher, as the active map shows it;
   * leaving: cancelled, already off the book, not yet out of the active map.
   */
  datatype SideView = SideView(
    queue: seq<Order>, book: multiset<Order>, hand: seq<Order>, active: map<int, Order>, leaving: set<int>)
  {
    ghost predicate Shows(o: Order) {
      o.id in active && active[o.id] == o && o.id !in leaving
    }

    ghost predicate Live(o: Order) {
      o in queue || o in book || o in hand
    }

    /** Every live order is live once, and the active map holds exactly the live orders and those leaving. */
    ghost predicate Agrees() {
      && (forall o | o in queue :: Shows(o) && o !in book && o !in hand)
      && (forall o | o in book :: Shows(o) && book[o] == 1 && o !in hand)
      && (forall o | o in hand :: Shows(o))
      && (forall i, j | 0 <= i < j < |queue| :: queue[i] != queue[j])
      && |hand| <= 1
      && (forall id | id in active :: active[id].id == id && (id in leaving || Live(active[id])))
      && leaving <= active.Keys
    }
  }

  lemma Arrive(v: SideView, o: Order)
    requires v.Agrees() && o.id !in v.active
    ensures v.(queue := v.queue + [o], active := v.active[o.id := o]).Agrees()
  {
    var w := v.(queue := v.queue + [o], active := v.active[o.id := o]);
    forall p | p in w.queue
      ensures w.Shows(p) && p !in w.book && p !in w.hand
    {
      assert p in v.queue || p == o;
      assert o in v.book || o in v.hand ==> v.Shows(o);
    }
  }

  lemma Absorb(v: SideView)
    requires v.Agrees() && v.queue != []
    ensures v.(queue := v.queue[1..], book := More(v.book, v.queue[0])).Agrees()
  {
    var w := v.(queue := v.queue[1..], book := More(v.book, v.queue[0]));
    assert v.queue == [v.queue[0]] + w.queue;
    assert v.queue[0] in v.queue;
    forall p | p in w.queue
      ensures p in v.queue && p != v.queue[0]
    {
    }
  }

  lemma TakeHand(v: SideView, x: Order)
    requires v.Agrees() && v.hand == [] && x in v.book
    ensures v.(book := Less(v.book, x), hand := [x]).Agrees()
  {
    var w := v.(book := Less(v.book, x), hand := [x]);
    forall id | id in w.active
      ensures id in w.leaving || w.Live(w.active[id])
    {
      assert id in v.leaving || v.Live(v.active[id]);
      assert x in w.hand;
    }
  }

  lemma Lower(v: SideView, x: Order, y: Order)
    requires v.Agrees() && v.hand == [x] && y.id == x.id
    ensures v.(hand := [y], active := v.active[y.id := y]).Agrees()
  {
    var w := v.(hand := [y], active := v.active[y.id := y]);
    assert x in v.hand && v.Shows(x);
    forall p | p in w.queue || p in w.book
      ensures w.Shows(p) && p !in w.hand
    {
      assert p != x;
    }
    assert y in w.hand;
  }

  lemma Finish(v: SideView, x: Order)
    requires v.Agrees() && v.hand == [x]
    ensures v.(hand := [], active := v.active - {x.id}).Agrees()
  {
    var w := v.(hand := [], active := v.active - {x.id});
    assert x in v.hand && v.Shows(x);
    forall p | p in w.queue || p in w.book
      ensures w.Shows(p)
    {
      assert p != x;
    }
  }

  lemma PutBack(v: SideView, x: Order)
    requires v.Agrees() && v.hand == [x]
    ensures v.(hand := [], book := More(v.book, x)).Agrees()
  {
    assert x in v.hand;
  }

  lemma TakeOff(v: SideView, id: int)
    requires v.Agrees() && HasId(v.book, id) && v.leaving == {}
    ensures v.(book := Without(v.book, id), leaving := {id}).Agrees()
  {
    var w := v.(book := Without(v.book, id), leaving := {id});
    var x :| x in v.book && x.id == id;
    forall p | p in w.queue || p in w.book || p in w.hand
      ensures w.Shows(p)
    {
      assert p != x;
    }
  }

  lemma Forget(v: SideView, id: int)
    requires v.Agrees() && v.leaving == {id}
    ensures v.(active := v.active - {id}, leaving := {}).Agrees()
  {
  }

  /** In an agreeing side, a book holds an id exactly when its active record is on the book. */
  lemma OnBookIff(v: SideView, id: int)
    requires v.Agrees()
    ensures HasId(v.book, id) <==> id in v.active && v.active[id] in v.book
  {
  }
}
