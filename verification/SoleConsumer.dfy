/**
 * The core thread as the only dequeuer of a stream: the ticket protocol run by one thread is the hand-over's own
 * sequence of a ticket drawn and the head claimed, and its ticket is never one to take back.
 */
module SoleConsumer {
  import opened Orders
  import D = DequeueProtocol
  import H = HandOver

  predicate OfEnqueuer(a: D.Act<Order>) {
    a.Construct? || a.Publish?
  }

  /** All steps of the dequeuing side are of one thread. */
  predicate Alone(acts: seq<D.Act<Order>>, tid: nat) {
    forall a | a in acts :: OfEnqueuer(a) || a.tid == tid
  }

  /** The stream as the hand-over sees it: what is published, and the three counters. */
  function Seen(s: D.Stream<Order>): H.Stream {
    H.Stream(if s.tail <= |s.elems| then s.elems[..s.tail] else s.elems, s.head, s.opt, s.over)
  }

  /** What a lone dequeuer's locals say: no ticket was ever taken back, and the one it holds is its own head. */
  ghost predicate AloneFits(s: D.Stream<Order>, tid: nat) {
    var p := s.At(tid);
    && (forall t | t in s.at :: t == tid)
    && s.over == 0 && s.head <= s.tail
    && s.opt == s.head + (if p.Drew? || p.MayClaim? then 1 else 0)
    && (p.SawTail? || p.SawOver? ==> p.tail <= s.tail)
    && (p.SawOver? || p.Ready? || p.Drew? ==> p.over == 0)
    && (p.Drew? ==> p.m == s.head)
    && (p.Ready? || p.Drew? || p.MayClaim? ==> s.head < s.tail)
    && !p.MustUndo?
  }

  lemma KeepsAloneFits(s: D.Stream<Order>, a: D.Act<Order>, tid: nat)
    requires AloneFits(s, tid) && D.Enabled(s, a) && (OfEnqueuer(a) || a.tid == tid)
    ensures AloneFits(D.Next(s, a), tid)
  {
  }

  lemma {:induction false} AloneRunsFit(acts: seq<D.Act<Order>>, tid: nat)
    requires D.Runs(acts) && Alone(acts, tid)
    ensures AloneFits(D.After(acts), tid)
  {
    hide D.Next, D.Enabled, AloneFits;
    if acts == [] {
      FreshFits(tid);
    } else {
      var n := |acts| - 1;
      assert acts[n] in acts && forall a | a in acts[..n] :: a in acts;
      AloneRunsFit(acts[..n], tid);
      KeepsAloneFits(D.After(acts[..n]), acts[n], tid);
    }
  }

  lemma FreshFits(tid: nat)
    ensures AloneFits(D.Fresh(), tid)
  {
  }

  /** One step as the hand-over makes it: it publishes, draws a ticket, claims the head, or only looks. */
  ghost predicate HandOverStep(a: D.Act<Order>, v: H.Stream, v': H.Stream) {
    match a
    case Publish => H.Grown([v], [v'])
    case Draw(_) => v' == v.(opt := v.opt + 1)
    case Claim(_) => v.HasElement() && v' == v.(head := v.head + 1)
    case _ => v' == v
  }

  lemma StepIsHandOver(s: D.Stream<Order>, a: D.Act<Order>, tid: nat)
    requires AloneFits(s, tid) && D.Inv(s) && D.Enabled(s, a) && (OfEnqueuer(a) || a.tid == tid)
    ensures !a.Undo? && HandOverStep(a, Seen(s), Seen(D.Next(s, a)))
  {
    hide D.Roomy, D.PlacesHold, D.OneHolder, D.Counted, D.InFlight, D.Served;
  }

  /**
   * In every run in which one thread dequeues and the enqueuer goes on as it likes, the protocol's steps are those of
   * the hand-over, a ticket drawn is good, nothing is ever taken back, and the test before drawing one succeeds
   * exactly when an element was published by the time the tail was read.
   */
  lemma SoleConsumerIsTheHandOver(acts: seq<D.Act<Order>>, tid: nat, a: D.Act<Order>)
    requires D.Runs(acts) && Alone(acts, tid) && D.Enabled(D.After(acts), a) && (OfEnqueuer(a) || a.tid == tid)
    ensures var s := D.After(acts);
            && !a.Undo? && HandOverStep(a, Seen(s), Seen(D.Next(s, a))) && s.over == 0
            && (a.ReloadTail? ==> D.Next(s, a).At(tid).MayClaim?)
            && (a.LoadOptimistic? ==> (D.Next(s, a).At(tid).Ready? <==> s.head < s.At(tid).tail))
            && (a.Claim? ==> D.Next(s, a).At(tid) == D.Reading(s.head))
  {
    AloneRunsFit(acts, tid);
    D.EveryRunKeepsInv(acts);
    StepIsHandOver(D.After(acts), a, tid);
    hide D.Runs, D.After, D.Inv, HandOverStep;
  }
}
