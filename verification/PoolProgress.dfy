/** The in-process queue and its pools never deadlock and never run on: a run
    can only be kept going by new calls, and once the queue is closed it ends
    with every Run returned. */
module PoolProgress {
  import opened Wrappers
  import opened Sums
  import opened PoolMachine
  import opened PoolSafety

  // ----------------------------------------------------------- runs are short

  function ProducerWeight(x: Producer): nat {
    match x
    case Calling(_) => 8
    case Checking(_) => 7
    case Sending(_) => 6
    case _ => 0
  }

  function CloserWeight(x: Closer): nat {
    match x
    case Arriving => 3
    case Locked => 2
    case Flagged => 1
    case Left => 0
  }

  function PoolWeight(p: Pool): nat {
    (match p.forwarder
     case Taking => 1
     case Offering(_) => 4
     case Exited(_) => 0) +
    (match p.main
     case Running => 3
     case Draining => 2
     case Abandoning => 1
     case Returned(_) => 0) +
    if p.canceled then 0 else 1
  }

  function WorkerWeight(w: Worker): nat {
    match w.busy
    case Waiting => 1
    case Handling(_) => 3
    case Gone => 0
  }

  // The steps the state has left in it; a buffered delivery counts five.
  function Measure(s: State): nat {
    Total(s.producers, ProducerWeight) + Total(s.closers, CloserWeight) + 5 * |s.channel| +
    Total(s.pools, PoolWeight) + Total(s.workers, WorkerWeight)
  }

  function Push(e: Event): nat {
    if e.Call? then 9 else if e.CallClose? then 4 else 0
  }

  lemma ProducerLowers(s: State, e: Event)
    requires ByProducer(e) && !e.Call? && (e.Send? ==> !s.channelClosed) && Enabled(s, e)
    ensures Measure(Apply(s, e)) < Measure(s)
  {
    TotalUpdate(s.producers, e.i, Apply(s, e).producers[e.i], ProducerWeight);
  }

  lemma CloserLowers(s: State, e: Event)
    requires ByCloser(e) && (e.CloseChannel? ==> !s.channelClosed) && Enabled(s, e)
    ensures Measure(Apply(s, e)) < Measure(s) + Push(e)
  {
    var s' := Apply(s, e);
    if e.CallClose? {
      TotalAppend(s.closers, Arriving, CloserWeight);
    } else {
      TotalUpdate(s.closers, e.k, s'.closers[e.k], CloserWeight);
    }
  }

  lemma ReceiveLowers(s: State, w: nat)
    requires Enabled(s, Receive(w))
    ensures Measure(Apply(s, Receive(w))) < Measure(s)
  {
    var s' := Apply(s, Receive(w));
    var p := s.workers[w].pool;
    TotalUpdate(s.workers, w, s'.workers[w], WorkerWeight);
    TotalUpdate(s.pools, p, s'.pools[p], PoolWeight);
  }

  lemma WorkerLowers(s: State, e: Event)
    requires e.Finish? || e.StopCanceled? || e.StopClosed?
    requires Enabled(s, e)
    ensures Measure(Apply(s, e)) < Measure(s)
  {
    TotalUpdate(s.workers, e.w, Apply(s, e).workers[e.w], WorkerWeight);
  }

  // How much each step of a pool takes off its weight.
  lemma PoolStep(s: State, e: Event)
    requires Enabled(s, e) && !ByProducer(e) && !ByCloser(e) && !ByWorker(e)
    ensures e.p < |s.pools| && e.p < |Apply(s, e).pools|
    ensures Apply(s, e) ==
            WithPool(s, e.p, Apply(s, e).pools[e.p]).(channel := if e.Take? then s.channel[1..] else s.channel)
    ensures PoolWeight(Apply(s, e).pools[e.p]) < PoolWeight(s.pools[e.p]) + if e.Take? then 4 else 0
    ensures e.Take? ==> s.channel != []
  {
  }

  lemma PoolLowers(s: State, e: Event)
    requires Enabled(s, e) && !ByProducer(e) && !ByCloser(e) && !ByWorker(e)
    ensures Measure(Apply(s, e)) < Measure(s)
  {
    PoolStep(s, e);
    TotalUpdate(s.pools, e.p, Apply(s, e).pools[e.p], PoolWeight);
  }

  lemma EventLowers(s: State, e: Event)
    requires CloseInv(s) && Enabled(s, e)
    ensures Measure(Apply(s, e)) < Measure(s) + Push(e)
  {
    if e.Call? {
      TotalAppend(s.producers, Apply(s, e).producers[|s.producers|], ProducerWeight);
    } else if ByProducer(e) {
      ProducerLowers(s, e);
    } else if ByCloser(e) {
      CloserLowers(s, e);
    } else if e.Receive? {
      ReceiveLowers(s, e.w);
    } else if ByWorker(e) {
      WorkerLowers(s, e);
    } else {
      PoolLowers(s, e);
    }
  }

  function Allowance(es: seq<Event>): nat {
    if es == [] then 0 else Push(es[0]) + Allowance(es[1..])
  }

  lemma {:induction false} RunBound(s: State, es: seq<Event>)
    requires Inv(s) && ValidRun(s, es)
    ensures |es| + Measure(Final(s, es)) <= Measure(s) + Allowance(es)
    decreases |es|
  {
    if es != [] {
      EventLowers(s, es[0]);
      EventKeepsInv(s, es[0]);
      RunBound(Apply(s, es[0]), es[1..]);
    }
  }

  lemma {:induction false} TotalEqual<T>(xs: seq<T>, f: T -> nat, n: nat)
    requires forall i :: 0 <= i < |xs| ==> f(xs[i]) == n
    ensures Total(xs, f) == n * |xs|
  {
    if xs != [] {
      TotalEqual(xs[..|xs| - 1], f, n);
    }
  }

  /** A run has at most nine events for each call of Enqueue and four for each
      call of Close, beside five for each pool and one for each worker: nothing
      else keeps it going, whatever is canceled and whichever way the selects
      turn. */
  lemma RunsEnd(s: State, es: seq<Event>)
    requires Initial(s) && ValidRun(s, es)
    ensures |es| <= Allowance(es) + 5 * |s.pools| + |s.workers|
  {
    InitialInv(s);
    RunBound(s, es);
    TotalEqual(s.pools, PoolWeight, 5);
    TotalEqual(s.workers, WorkerWeight, 1);
  }

  // ------------------------------------------------------------ no deadlock

  /** The steps nobody outside has to cause. A waiting closer may hold up new
      readers, so their locking counts only while no closer waits; a timeout and
      noticing a cancellation are not needed. */
  predicate Moves(s: State, e: Event) {
    match e
    case Call(_) => false
    case CallClose => false
    case Cancel(_) => false
    case GiveUp(_) => false
    case Timeout(_) => false
    case NoticeCancel(_) => false
    case LockRead(_) => forall k :: 0 <= k < |s.closers| ==> !s.closers[k].Arriving?
    case _ => true
  }

  ghost predicate Quiescent(s: State) {
    forall e :: Enabled(s, e) ==> !Moves(s, e)
  }

  lemma Stuck(s: State, e: Event)
    requires Quiescent(s) && Moves(s, e)
    ensures !Enabled(s, e)
  {
  }

  // A forwarder still in its loop in a quiescent state waits on an empty open
  // channel.
  lemma QuiescentForwarder(s: State, p: nat)
    requires LifeInv(s) && Quiescent(s) && p < |s.pools|
    ensures !s.pools[p].forwarder.Offering?
    ensures s.pools[p].forwarder.Taking? ==>
              s.channel == [] && !s.channelClosed && !s.pools[p].canceled
  {
    Stuck(s, Take(p));
    Stuck(s, SeeClosed(p));
    Stuck(s, SeeCanceled(p));
    Stuck(s, Drop(p));
    assert Staffed(s, p);
    var w: nat :| WorkerOf(s, w, p);
    assert WorkerInv(s, s.workers[w]);
    Stuck(s, Receive(w));
    Stuck(s, Finish(w));
  }

  lemma QuiescentPool(s: State, p: nat)
    requires LifeInv(s) && Quiescent(s) && p < |s.pools| && s.pools[p].forwarder.Exited?
    ensures s.pools[p].main.Returned?
  {
    forall w | 0 <= w < |s.workers| && s.workers[w].pool == p ensures s.workers[w].busy.Gone? {
      Stuck(s, StopClosed(w));
      Stuck(s, Finish(w));
    }
    Stuck(s, Return(p));
  }

  predicate AllCanceled(s: State) {
    forall p :: 0 <= p < |s.pools| ==> s.pools[p].canceled
  }

  // Some caller found the queue open and is waiting for room.
  predicate SomeoneSending(s: State) {
    exists i :: 0 <= i < |s.producers| && s.producers[i].Sending?
  }

  predicate Unanswered(s: State) {
    exists i :: 0 <= i < |s.producers| && !s.producers[i].Accepted? && !s.producers[i].Refused?
  }

  // Who waits for room does so because nobody is left to make any.
  lemma QuiescentSending(s: State)
    requires CloseInv(s) && LifeInv(s) && Quiescent(s) && s.capacity > 0 && SomeoneSending(s)
    ensures AllCanceled(s) && |s.channel| == s.capacity
  {
    var i: nat :| i < |s.producers| && s.producers[i].Sending?;
    Stuck(s, Send(i));
    forall p | 0 <= p < |s.pools| ensures s.pools[p].canceled {
      QuiescentForwarder(s, p);
      assert PoolInv(s, s.pools[p]);
    }
  }

  // When nobody waits for room, nobody waits for the lock either.
  lemma QuiescentLock(s: State)
    requires CloseInv(s) && Quiescent(s) && !SomeoneSending(s)
    ensures forall k :: 0 <= k < |s.closers| ==> s.closers[k].Left?
    ensures !Unanswered(s)
  {
    forall i | 0 <= i < |s.producers| ensures !Reads(s.producers[i]) {
      Stuck(s, Check(i));
      assert !s.producers[i].Sending?;
    }
    forall k | 0 <= k < |s.closers| ensures !Writes(s.closers[k]) {
      Stuck(s, Flag(k));
      Stuck(s, CloseChannel(k));
    }
    forall k | 0 <= k < |s.closers| ensures s.closers[k].Left? {
      Stuck(s, LockWrite(k));
    }
    forall i | 0 <= i < |s.producers| ensures !s.producers[i].Calling? {
      Stuck(s, LockRead(i));
    }
  }

  // A consumer that was not canceled goes on exactly while the queue is open.
  lemma QuiescentLive(s: State, p: nat)
    requires CloseInv(s) && LifeInv(s) && Quiescent(s) && s.capacity > 0
    requires p < |s.pools| && !s.pools[p].canceled
    ensures s.channel == [] && (s.pools[p].main.Returned? <==> s.closers != [])
  {
    if SomeoneSending(s) {
      QuiescentSending(s);
    }
    QuiescentLock(s);
    QuiescentForwarder(s, p);
    assert PoolInv(s, s.pools[p]);
    assert s.closers != [] ==> s.closers[0].Left?;
    if s.closers != [] {
      QuiescentPool(s, p);
    } else if s.pools[p].main.Returned? {
      ReturnedUncanceled(s, p);
    }
  }

  /** Where a run may come to rest. A call of Enqueue is left unanswered only when
      every consumer was canceled and the open queue is full; a Run goes on
      exactly when it was not canceled and nobody called Close. */
  predicate AtRest(s: State) {
    && (Unanswered(s) ==> AllCanceled(s) && |s.channel| == s.capacity && !s.closed)
    && (!AllCanceled(s) ==> s.channel == [])
    && (forall p :: 0 <= p < |s.pools| ==>
          (s.pools[p].main.Returned? <==> s.closers != [] || s.pools[p].canceled))
  }

  lemma QuiescentAtRest(s: State)
    requires CloseInv(s) && LifeInv(s) && Quiescent(s) && s.capacity > 0
    ensures AtRest(s)
  {
    if SomeoneSending(s) {
      QuiescentSending(s);
    } else {
      QuiescentLock(s);
    }
    forall p | 0 <= p < |s.pools|
      ensures s.pools[p].main.Returned? <==> s.closers != [] || s.pools[p].canceled
      ensures !s.pools[p].canceled ==> s.channel == []
    {
      if s.pools[p].canceled {
        QuiescentForwarder(s, p);
        QuiescentPool(s, p);
      } else {
        QuiescentLive(s, p);
      }
    }
  }

  lemma {:induction false} RunKeepsCapacity(s: State, es: seq<Event>)
    requires ValidRun(s, es)
    ensures Final(s, es).capacity == s.capacity
    decreases |es|
  {
    if es != [] {
      RunKeepsCapacity(Apply(s, es[0]), es[1..]);
    }
  }

  /** No deadlock: wherever a run comes to rest, every call of Enqueue has been
      answered, unless every consumer was canceled and the open queue is full;
      and every Run has returned that was canceled or saw the queue closed. */
  lemma RestsOnlyWhenDone(s: State, es: seq<Event>)
    requires Initial(s) && ValidRun(s, es) && Quiescent(Final(s, es))
    ensures AtRest(Final(s, es))
  {
    InitialInv(s);
    RunKeepsInv(s, es);
    RunKeepsCapacity(s, es);
    QuiescentAtRest(Final(s, es));
  }
}
