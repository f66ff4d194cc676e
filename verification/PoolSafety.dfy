/** What every run of the in-process queue and its pools keeps: the close
    protocol, the lives of forwarders, workers and Run, the order of
    deliveries, and where each accepted delivery is. */
module PoolSafety {
  import opened Wrappers
  import opened Sums
  import opened PoolMachine

  // ------------------------------------------------------- the close protocol

  /** The lock keeps closers apart from everyone else, so nobody sends on a
      closed channel and nobody closes it twice; and the buffer stays within its
      capacity. */
  predicate CloseInv(s: State) {
    && !s.panicked
    && |s.channel| <= s.capacity
    && (s.channelClosed ==> s.closed)
    && (NoReader(s) || NoWriter(s))
    && (forall k, l :: 0 <= k < l < |s.closers| && Writes(s.closers[k]) ==> !Writes(s.closers[l]))
    && (forall k :: 0 <= k < |s.closers| && s.closers[k].Flagged? ==> s.closed && !s.channelClosed)
    && (forall i :: 0 <= i < |s.producers| && s.producers[i].Sending? ==> !s.closed)
    && (s.closed && !s.channelClosed ==> exists k :: 0 <= k < |s.closers| && s.closers[k].Flagged?)
    && (forall k :: 0 <= k < |s.closers| && s.closers[k].Left? ==> s.closed)
    && (s.closed ==> s.closers != [])
  }

  // Events of callers of Enqueue, of callers of Close, and of workers.
  predicate ByProducer(e: Event) {
    e.Call? || e.LockRead? || e.Check? || e.Send? || e.GiveUp?
  }

  predicate ByCloser(e: Event) {
    e.CallClose? || e.LockWrite? || e.Flag? || e.CloseChannel?
  }

  predicate ByWorker(e: Event) {
    e.Receive? || e.Finish? || e.StopCanceled? || e.StopClosed?
  }

  lemma ProducerKeepsClose(s: State, e: Event)
    requires CloseInv(s) && Enabled(s, e) && ByProducer(e)
    ensures CloseInv(Apply(s, e))
  {
    assert Apply(s, e).closers == s.closers;
  }

  lemma CallCloseKeepsClose(s: State)
    requires CloseInv(s)
    ensures CloseInv(Apply(s, CallClose))
  {
    var s' := Apply(s, CallClose);
    assert forall k :: 0 <= k < |s.closers| ==> s'.closers[k] == s.closers[k];
  }

  lemma FlagKeepsClose(s: State, k: nat)
    requires CloseInv(s) && Enabled(s, Flag(k))
    ensures CloseInv(Apply(s, Flag(k)))
  {
    var s' := Apply(s, Flag(k));
    assert !s.closed ==> s'.closers[k].Flagged?;
    assert forall j :: 0 <= j < |s.closers| && j != k ==> s'.closers[j] == s.closers[j];
  }

  lemma CloserKeepsClose(s: State, e: Event)
    requires CloseInv(s) && Enabled(s, e) && (e.LockWrite? || e.CloseChannel?)
    ensures CloseInv(Apply(s, e))
  {
    assert forall j :: 0 <= j < |s.closers| && j != e.k ==> Apply(s, e).closers[j] == s.closers[j];
  }

  lemma EventKeepsClose(s: State, e: Event)
    requires CloseInv(s) && Enabled(s, e)
    ensures CloseInv(Apply(s, e))
  {
    if ByProducer(e) {
      ProducerKeepsClose(s, e);
    } else if e.CallClose? {
      CallCloseKeepsClose(s);
    } else if e.Flag? {
      FlagKeepsClose(s, e.k);
    } else if ByCloser(e) {
      CloserKeepsClose(s, e);
    } else {
      assert Apply(s, e).closers == s.closers && Apply(s, e).producers == s.producers;
    }
  }

  // ------------------------------------------------------------------- lives

  // The channel has been closed and drained.
  predicate Drained(s: State) {
    s.channelClosed && s.channel == []
  }

  /** A forwarder leaves its loop because the channel is drained or its context
      is canceled, and gives up a delivery only in the second case. */
  predicate PoolInv(s: State, p: Pool) {
    && (p.forwarder.Exited? && !p.canceled ==> p.forwarder.dropped.None? && Drained(s))
    && (p.main.Draining? || p.main.Abandoning? ==> p.canceled)
    && (p.main.Returned? && p.main.timedOut ==> p.canceled)
    && (p.jobsCanceled <==> p.main.Abandoning? || (p.main.Returned? && p.main.timedOut))
  }

  predicate WorkerInv(s: State, w: Worker) {
    && w.pool < |s.pools|
    && (w.busy.Gone? ==> s.pools[w.pool].canceled || s.pools[w.pool].forwarder.Exited?)
    && (s.pools[w.pool].main.Returned? ==> w.busy.Gone?)
  }

  ghost predicate LifeInv(s: State) {
    && (forall p :: 0 <= p < |s.pools| ==> PoolInv(s, s.pools[p]))
    && (forall w :: 0 <= w < |s.workers| ==> WorkerInv(s, s.workers[w]))
    && (forall p :: 0 <= p < |s.pools| ==> Staffed(s, p))
  }

  // Pools only ever move on.
  predicate PoolGrows(p: Pool, q: Pool) {
    && (p.canceled ==> q.canceled)
    && (p.forwarder.Exited? ==> q.forwarder == p.forwarder)
  }

  // The pool an event changes, and what it becomes.
  function Changed(s: State, e: Event): nat
    requires Enabled(s, e) && !ByProducer(e) && !ByCloser(e) && (ByWorker(e) ==> e.Receive?)
  {
    if e.Receive? then s.workers[e.w].pool else e.p
  }

  lemma DrainedStays(s: State, e: Event)
    requires Enabled(s, e) && Drained(s)
    ensures Drained(Apply(s, e))
  {
  }

  lemma PoolsUntouched(s: State, e: Event)
    requires Enabled(s, e) && (ByProducer(e) || ByCloser(e) || (ByWorker(e) && !e.Receive?))
    ensures Apply(s, e).pools == s.pools
  {
  }

  lemma PoolTouched(s: State, e: Event)
    requires Enabled(s, e) && !ByProducer(e) && !ByCloser(e) && (ByWorker(e) ==> e.Receive?)
    requires var p := Changed(s, e); p < |s.pools| && PoolInv(s, s.pools[p])
    ensures
      var p, s' := Changed(s, e), Apply(s, e);
      && p < |s'.pools| && s'.pools == s.pools[p := s'.pools[p]]
      && PoolGrows(s.pools[p], s'.pools[p]) && PoolInv(s', s'.pools[p])
  {
  }

  lemma EventKeepsPools(s: State, e: Event)
    requires LifeInv(s) && Enabled(s, e)
    ensures var s' := Apply(s, e);
            && |s'.pools| == |s.pools|
            && (forall p :: 0 <= p < |s.pools| ==> PoolGrows(s.pools[p], s'.pools[p]))
            && (forall p :: 0 <= p < |s.pools| ==> PoolInv(s', s'.pools[p]))
  {
    if Drained(s) {
      DrainedStays(s, e);
    }
    if ByProducer(e) || ByCloser(e) || (ByWorker(e) && !e.Receive?) {
      PoolsUntouched(s, e);
    } else {
      assert PoolInv(s, s.pools[Changed(s, e)]);
      PoolTouched(s, e);
    }
  }

  lemma EventKeepsWorkers(s: State, e: Event)
    requires LifeInv(s) && Enabled(s, e)
    ensures var s' := Apply(s, e);
            && |s'.workers| == |s.workers|
            && (forall w :: 0 <= w < |s.workers| ==>
                  s'.workers[w].pool == s.workers[w].pool && WorkerInv(s', s'.workers[w]))
  {
    var s' := Apply(s, e);
    EventKeepsPools(s, e);
    forall w | 0 <= w < |s.workers|
      ensures s'.workers[w].pool == s.workers[w].pool && WorkerInv(s', s'.workers[w])
    {
      assert WorkerInv(s, s.workers[w]);
      var p := s.workers[w].pool;
      assert PoolGrows(s.pools[p], s'.pools[p]);
    }
  }

  lemma EventKeepsLife(s: State, e: Event)
    requires LifeInv(s) && Enabled(s, e)
    ensures LifeInv(Apply(s, e))
  {
    var s' := Apply(s, e);
    EventKeepsPools(s, e);
    EventKeepsWorkers(s, e);
    forall p | 0 <= p < |s'.pools| ensures Staffed(s', p) {
      assert Staffed(s, p);
      var w: nat :| WorkerOf(s, w, p);
      assert WorkerOf(s', w, p);
    }
  }

  // ------------------------------------------------- where every delivery is

  function Is(id: string): string -> nat {
    (x: string) => if x == id then 1 else 0
  }

  function Held(p: Pool): Option<string> {
    match p.forwarder
    case Taking => None
    case Offering(id) => Some(id)
    case Exited(dropped) => dropped
  }

  function Holds(id: string): Pool -> nat {
    (p: Pool) => if Held(p) == Some(id) then 1 else 0
  }

  function Handles(id: string): Worker -> nat {
    (w: Worker) => if w.busy == Handling(id) then 1 else 0
  }

  function Sent(id: string): Producer -> nat {
    (x: Producer) => if x == Accepted(id) then 1 else 0
  }

  // A delivery is what an accepted call made.
  ghost predicate FromCalls(s: State, id: string) {
    Total(s.producers, Sent(id)) == Total(s.sent, Is(id))
  }

  // It is buffered, held or given up by a forwarder, or delivered.
  ghost predicate OnTheWay(s: State, id: string) {
    Total(s.sent, Is(id)) ==
      Total(s.channel, Is(id)) + Total(s.pools, Holds(id)) + Total(s.delivered, Is(id))
  }

  // Once delivered it is with a worker, or handled.
  ghost predicate InHands(s: State, id: string) {
    Total(s.delivered, Is(id)) == Total(s.workers, Handles(id)) + Total(s.handled, Is(id))
  }

  /** Each delivery is in one place. */
  ghost predicate Conserved(s: State, id: string) {
    FromCalls(s, id) && OnTheWay(s, id) && InHands(s, id)
  }

  lemma CallKeepsConserved(s: State, call: string, id: string)
    requires Conserved(s, id)
    ensures Conserved(Apply(s, Call(call)), id)
  {
    TotalAppend(s.producers, Apply(s, Call(call)).producers[|s.producers|], Sent(id));
  }

  // Sending is accepted and buffered at once.
  lemma SentFromCalls(s: State, i: nat, id: string)
    requires FromCalls(s, id) && i < |s.producers| && s.producers[i].Sending?
    ensures var x := s.producers[i].id;
            FromCalls(WithProducer(s, i, Accepted(x)).(sent := s.sent + [x]), id)
  {
    TotalUpdate(s.producers, i, Accepted(s.producers[i].id), Sent(id));
    TotalAppend(s.sent, s.producers[i].id, Is(id));
  }

  lemma SentOnTheWay(s: State, x: string, id: string)
    requires OnTheWay(s, id)
    ensures OnTheWay(s.(channel := s.channel + [x], sent := s.sent + [x]), id)
  {
    TotalAppend(s.channel, x, Is(id));
    TotalAppend(s.sent, x, Is(id));
  }

  lemma SendKeepsConserved(s: State, i: nat, id: string)
    requires Conserved(s, id) && Enabled(s, Send(i))
    ensures Conserved(Apply(s, Send(i)), id)
  {
    SentFromCalls(s, i, id);
    SentOnTheWay(s, s.producers[i].id, id);
  }

  lemma ProducerKeepsConserved(s: State, e: Event, id: string)
    requires e.LockRead? || e.Check? || e.GiveUp?
    requires Conserved(s, id) && Enabled(s, e)
    ensures Conserved(Apply(s, e), id)
  {
    TotalUpdate(s.producers, e.i, Apply(s, e).producers[e.i], Sent(id));
  }

  lemma TakeKeepsConserved(s: State, p: nat, id: string)
    requires Conserved(s, id) && Enabled(s, Take(p))
    ensures Conserved(Apply(s, Take(p)), id)
  {
    TotalUpdate(s.pools, p, Apply(s, Take(p)).pools[p], Holds(id));
    TotalTail(s.channel, Is(id));
  }

  // A pool's change that leaves alone what its forwarder holds.
  predicate KeepsHeld(s: State, s': State, p: nat) {
    && p < |s.pools| && p < |s'.pools|
    && s' == WithPool(s, p, s'.pools[p]) && Held(s'.pools[p]) == Held(s.pools[p])
  }

  lemma OtherPoolEvents(s: State, e: Event)
    requires Enabled(s, e) && !ByProducer(e) && !ByCloser(e) && !ByWorker(e) && !e.Take?
    ensures KeepsHeld(s, Apply(s, e), e.p)
  {
  }

  lemma PoolKeepsConserved(s: State, s': State, p: nat, id: string)
    requires Conserved(s, id) && KeepsHeld(s, s', p)
    ensures Conserved(s', id)
  {
    TotalUpdate(s.pools, p, s'.pools[p], Holds(id));
  }

  // Handing a delivery over leaves its forwarder with nothing.
  lemma ReceivedOnTheWay(s: State, p: nat, id: string)
    requires OnTheWay(s, id) && p < |s.pools| && s.pools[p].forwarder.Offering?
    ensures OnTheWay(WithForwarder(s, p, Taking).(delivered := s.delivered + [s.pools[p].forwarder.id]), id)
  {
    TotalUpdate(s.pools, p, s.pools[p].(forwarder := Taking), Holds(id));
    TotalAppend(s.delivered, s.pools[p].forwarder.id, Is(id));
  }

  // And its worker with the delivery.
  lemma ReceivedInHands(s: State, w: nat, taken: string, id: string)
    requires InHands(s, id) && w < |s.workers| && s.workers[w].busy.Waiting?
    ensures InHands(WithBusy(s, w, Handling(taken)).(delivered := s.delivered + [taken]), id)
  {
    TotalUpdate(s.workers, w, s.workers[w].(busy := Handling(taken)), Handles(id));
    TotalAppend(s.delivered, taken, Is(id));
  }

  lemma ReceiveKeepsConserved(s: State, w: nat, id: string)
    requires Conserved(s, id) && Enabled(s, Receive(w))
    ensures Conserved(Apply(s, Receive(w)), id)
  {
    var p := s.workers[w].pool;
    ReceivedOnTheWay(s, p, id);
    ReceivedInHands(s, w, s.pools[p].forwarder.id, id);
  }

  lemma FinishKeepsConserved(s: State, w: nat, id: string)
    requires Conserved(s, id) && Enabled(s, Finish(w))
    ensures Conserved(Apply(s, Finish(w)), id)
  {
    var done := s.workers[w].busy.id;
    assert Apply(s, Finish(w)) == WithBusy(s, w, Waiting).(handled := s.handled + [done]);
    TotalUpdate(s.workers, w, s.workers[w].(busy := Waiting), Handles(id));
    TotalAppend(s.handled, done, Is(id));
  }

  lemma StopKeepsConserved(s: State, e: Event, id: string)
    requires e.StopCanceled? || e.StopClosed?
    requires Conserved(s, id) && Enabled(s, e)
    ensures Conserved(Apply(s, e), id)
  {
    TotalUpdate(s.workers, e.w, Apply(s, e).workers[e.w], Handles(id));
  }

  lemma EventKeepsConserved(s: State, e: Event, id: string)
    requires Conserved(s, id) && Enabled(s, e)
    ensures Conserved(Apply(s, e), id)
  {
    if e.Call? {
      CallKeepsConserved(s, e.id, id);
    } else if e.Send? {
      SendKeepsConserved(s, e.i, id);
    } else if ByProducer(e) {
      ProducerKeepsConserved(s, e, id);
    } else if e.Take? {
      TakeKeepsConserved(s, e.p, id);
    } else if e.Receive? {
      ReceiveKeepsConserved(s, e.w, id);
    } else if e.Finish? {
      FinishKeepsConserved(s, e.w, id);
    } else if ByWorker(e) {
      StopKeepsConserved(s, e, id);
    } else if !ByCloser(e) {
      OtherPoolEvents(s, e);
      PoolKeepsConserved(s, Apply(s, e), e.p, id);
    }
  }

  // The same, by number.
  function HoldsAny(p: Pool): nat {
    if Held(p).Some? then 1 else 0
  }

  function HandlesAny(w: Worker): nat {
    if w.busy.Handling? then 1 else 0
  }

  ghost predicate Counted(s: State) {
    && |s.sent| == |s.channel| + Total(s.pools, HoldsAny) + |s.delivered|
    && |s.delivered| == Total(s.workers, HandlesAny) + |s.handled|
  }

  lemma WorkerKeepsCounted(s: State, e: Event)
    requires Counted(s) && Enabled(s, e) && ByWorker(e)
    ensures Counted(Apply(s, e))
  {
    var s' := Apply(s, e);
    TotalUpdate(s.workers, e.w, s'.workers[e.w], HandlesAny);
    if e.Receive? {
      var p := s.workers[e.w].pool;
      TotalUpdate(s.pools, p, s'.pools[p], HoldsAny);
    }
  }

  lemma EventKeepsCounted(s: State, e: Event)
    requires Counted(s) && Enabled(s, e)
    ensures Counted(Apply(s, e))
  {
    if ByWorker(e) {
      WorkerKeepsCounted(s, e);
    } else if e.Take? {
      TotalUpdate(s.pools, e.p, Apply(s, e).pools[e.p], HoldsAny);
    } else if !ByProducer(e) && !ByCloser(e) {
      OtherPoolEvents(s, e);
      TotalUpdate(s.pools, e.p, Apply(s, e).pools[e.p], HoldsAny);
    }
  }

  // ------------------------------------------------------------------- order

  /** With one consumer, what was sent is what was delivered, then what the
      forwarder has or gave up, then what is buffered. */
  predicate InOrder(s: State) {
    && |s.pools| == 1
    && var held := if Held(s.pools[0]).Some? then [Held(s.pools[0]).value] else [];
    && s.sent == s.delivered + held + s.channel
  }

  lemma ReceiveKeepsOrder(s: State, w: nat)
    requires InOrder(s) && Enabled(s, Receive(w))
    ensures InOrder(Apply(s, Receive(w)))
  {
    assert s.workers[w].pool == 0;
  }

  lemma TakeKeepsOrder(s: State, p: nat)
    requires InOrder(s) && Enabled(s, Take(p))
    ensures InOrder(Apply(s, Take(p)))
  {
    assert s.channel == [s.channel[0]] + s.channel[1..];
  }

  lemma EventKeepsOrder(s: State, e: Event)
    requires InOrder(s) && Enabled(s, e)
    ensures InOrder(Apply(s, e))
  {
    if e.Receive? {
      ReceiveKeepsOrder(s, e.w);
    } else if e.Take? {
      TakeKeepsOrder(s, e.p);
    } else if !ByWorker(e) && !ByProducer(e) && !ByCloser(e) {
      OtherPoolEvents(s, e);
    }
  }

  // -------------------------------------------------------------------- runs

  ghost predicate Inv(s: State) {
    && CloseInv(s) && LifeInv(s) && Counted(s)
    && (forall id :: Conserved(s, id))
    && (|s.pools| == 1 ==> InOrder(s))
  }

  lemma InitialInv(s: State)
    requires Initial(s)
    ensures Inv(s)
  {
    forall id ensures Conserved(s, id) {
      TotalNone(s.pools, Holds(id));
      TotalNone(s.workers, Handles(id));
    }
    TotalNone(s.pools, HoldsAny);
    TotalNone(s.workers, HandlesAny);
  }

  lemma EventKeepsInv(s: State, e: Event)
    requires Inv(s) && Enabled(s, e)
    ensures Inv(Apply(s, e))
  {
    EventKeepsClose(s, e);
    EventKeepsLife(s, e);
    EventKeepsCounted(s, e);
    EventKeepsPools(s, e);
    forall id ensures Conserved(Apply(s, e), id) {
      EventKeepsConserved(s, e, id);
    }
    if |s.pools| == 1 {
      EventKeepsOrder(s, e);
    }
  }

  lemma {:induction false} RunKeepsInv(s: State, es: seq<Event>)
    requires Inv(s) && ValidRun(s, es)
    ensures Inv(Final(s, es)) && |Final(s, es).pools| == |s.pools|
    decreases |es|
  {
    if es != [] {
      EventKeepsInv(s, es[0]);
      EventKeepsPools(s, es[0]);
      RunKeepsInv(Apply(s, es[0]), es[1..]);
    }
  }

  // ---------------------------------------------------------------- theorems

  /** Whatever producers, consumers and closers do, nobody sends on the closed
      channel or closes it again, and the buffer stays within its capacity. */
  lemma NeverPanics(s: State, es: seq<Event>)
    requires Initial(s) && ValidRun(s, es)
    ensures var end := Final(s, es);
            !end.panicked && |end.channel| <= end.capacity
  {
    InitialInv(s);
    RunKeepsInv(s, es);
  }

  /** A single consumer delivers in order: what its workers took is a prefix of
      what was sent. */
  lemma DeliveredInOrder(s: State, es: seq<Event>)
    requires Initial(s) && ValidRun(s, es) && |s.pools| == 1
    ensures Final(s, es).delivered <= Final(s, es).sent
  {
    InitialInv(s);
    RunKeepsInv(s, es);
  }

  // A pool's jobs are canceled by its timer running out, and by nothing else.
  lemma {:induction false} CanceledByTimeout(s: State, es: seq<Event>, p: nat)
    requires ValidRun(s, es) && p < |s.pools|
    ensures p < |Final(s, es).pools|
    ensures Final(s, es).pools[p].jobsCanceled <==> s.pools[p].jobsCanceled || Timeout(p) in es
    decreases |es|
  {
    if es != [] {
      EventCancels(s, es[0], p);
      CanceledByTimeout(Apply(s, es[0]), es[1..], p);
      assert es == [es[0]] + es[1..];
    }
  }

  lemma EventCancels(s: State, e: Event, p: nat)
    requires Enabled(s, e) && p < |s.pools|
    ensures p < |Apply(s, e).pools|
    ensures Apply(s, e).pools[p].jobsCanceled <==> s.pools[p].jobsCanceled || e == Timeout(p)
  {
    if ByProducer(e) || ByCloser(e) || (ByWorker(e) && !e.Receive?) {
      PoolsUntouched(s, e);
    } else {
      TouchedCancels(s, e);
    }
  }

  lemma TouchedCancels(s: State, e: Event)
    requires Enabled(s, e) && !ByProducer(e) && !ByCloser(e) && (ByWorker(e) ==> e.Receive?)
    ensures
      var p, s' := Changed(s, e), Apply(s, e);
      && p < |s.pools| == |s'.pools| && s'.pools == s.pools[p := s'.pools[p]]
      && (s'.pools[p].jobsCanceled <==> s.pools[p].jobsCanceled || e == Timeout(p))
      && (e.Timeout? ==> p == e.p)
  {
  }

  lemma {:induction false} RunKeepsPoolCount(s: State, es: seq<Event>)
    requires ValidRun(s, es)
    ensures |Final(s, es).pools| == |s.pools|
    decreases |es|
  {
    if es != [] {
      RunKeepsPoolCount(Apply(s, es[0]), es[1..]);
    }
  }

  /** Run returns with no worker left, and reports a timeout exactly when its
      shutdown timer ran out, which is exactly when it has canceled its jobs, and
      which happens only after its own context ended. */
  lemma ReturnIsClean(s: State, es: seq<Event>, p: nat, w: nat)
    requires Initial(s) && ValidRun(s, es)
    requires var end := Final(s, es);
             p < |end.pools| && end.pools[p].main.Returned? && WorkerOf(end, w, p)
    ensures var end := Final(s, es);
            && end.workers[w].busy.Gone?
            && (end.pools[p].main.timedOut <==> Timeout(p) in es)
            && (end.pools[p].jobsCanceled <==> Timeout(p) in es)
            && (end.pools[p].jobsCanceled ==> end.pools[p].canceled)
  {
    InitialInv(s);
    RunKeepsInv(s, es);
    RunKeepsPoolCount(s, es);
    CanceledByTimeout(s, es, p);
    var end := Final(s, es);
    assert WorkerInv(end, end.workers[w]) && PoolInv(end, end.pools[p]);
  }

  function Canceled(p: Pool): nat {
    if p.canceled then 1 else 0
  }

  predicate AllReturned(s: State) {
    forall p :: 0 <= p < |s.pools| ==> s.pools[p].main.Returned?
  }

  // A returned pool that was never canceled has drained the channel and holds
  // nothing.
  lemma ReturnedUncanceled(s: State, p: nat)
    requires LifeInv(s) && p < |s.pools|
    requires s.pools[p].main.Returned? && !s.pools[p].canceled
    ensures Drained(s) && Held(s.pools[p]).None?
  {
    assert Staffed(s, p);
    var w: nat :| WorkerOf(s, w, p);
    assert WorkerInv(s, s.workers[w]) && PoolInv(s, s.pools[p]);
  }

  lemma {:induction false} HeldByCanceled(s: State, n: nat)
    requires LifeInv(s) && AllReturned(s) && n <= |s.pools|
    ensures Total(s.pools[..n], HoldsAny) <= Total(s.pools[..n], Canceled)
    decreases n
  {
    if n > 0 {
      HeldByCanceled(s, n - 1);
      assert s.pools[..n][..n - 1] == s.pools[..n - 1];
      if !s.pools[n - 1].canceled {
        ReturnedUncanceled(s, n - 1);
      }
    }
  }

  // What the forwarders still hold or gave up.
  function Dropped(pools: seq<Pool>): seq<string> {
    if pools == [] then []
    else
      Dropped(pools[..|pools| - 1]) +
      match Held(pools[|pools| - 1])
      case None => []
      case Some(id) => [id]
  }

  lemma {:induction false} DroppedCounts(pools: seq<Pool>, id: string)
    ensures Total(pools, Holds(id)) == multiset(Dropped(pools))[id]
    ensures Total(pools, HoldsAny) == |Dropped(pools)|
  {
    if pools != [] {
      DroppedCounts(pools[..|pools| - 1], id);
    }
  }

  lemma {:induction false} CountIsMultiset(xs: seq<string>, id: string)
    ensures Total(xs, Is(id)) == multiset(xs)[id]
  {
    if xs != [] {
      assert xs == xs[..|xs| - 1] + [xs[|xs| - 1]];
      CountIsMultiset(xs[..|xs| - 1], id);
    }
  }

  // With every worker gone, nothing is in a worker's hands.
  lemma NothingHandled(s: State, id: string)
    requires LifeInv(s) && AllReturned(s)
    ensures Total(s.workers, Handles(id)) == 0 && Total(s.workers, HandlesAny) == 0
  {
    forall w | 0 <= w < |s.workers| ensures s.workers[w].busy.Gone? {
      assert WorkerInv(s, s.workers[w]);
    }
    TotalNone(s.workers, Handles(id));
    TotalNone(s.workers, HandlesAny);
  }

  lemma ReturnedAccounts(s: State)
    requires LifeInv(s) && AllReturned(s) && forall id :: Conserved(s, id)
    ensures multiset(s.sent) ==
            multiset(s.handled) + multiset(s.channel) + multiset(Dropped(s.pools))
  {
    forall id
      ensures multiset(s.sent)[id] ==
              multiset(s.handled)[id] + multiset(s.channel)[id] + multiset(Dropped(s.pools))[id]
    {
      assert Conserved(s, id);
      ReturnedConserved(s, id);
    }
  }

  lemma DroppedByCanceled(s: State)
    requires LifeInv(s) && AllReturned(s)
    ensures |Dropped(s.pools)| <= Total(s.pools, Canceled)
  {
    DroppedCounts(s.pools, "");
    HeldByCanceled(s, |s.pools|);
    assert s.pools[..|s.pools|] == s.pools;
  }

  /** When every Run has returned, the deliveries accepted are, as a multiset,
      those handled, those still buffered, and those the forwarders dropped; and
      there is at most one of the last for each canceled consumer. */
  lemma CanceledLosesOneEach(s: State, es: seq<Event>)
    requires Initial(s) && ValidRun(s, es) && AllReturned(Final(s, es))
    ensures
      var end := Final(s, es);
      && multiset(end.sent) ==
         multiset(end.handled) + multiset(end.channel) + multiset(Dropped(end.pools))
      && |Dropped(end.pools)| <= Total(end.pools, Canceled)
  {
    InitialInv(s);
    RunKeepsInv(s, es);
    ReturnedAccounts(Final(s, es));
    DroppedByCanceled(Final(s, es));
  }

  lemma ReturnedConserved(s: State, id: string)
    requires LifeInv(s) && AllReturned(s) && Conserved(s, id)
    ensures multiset(s.sent)[id] ==
            multiset(s.handled)[id] + multiset(s.channel)[id] + multiset(Dropped(s.pools))[id]
    ensures Total(s.producers, Sent(id)) == multiset(s.sent)[id]
  {
    NothingHandled(s, id);
    DroppedCounts(s.pools, id);
    CountIsMultiset(s.sent, id);
    CountIsMultiset(s.handled, id);
    CountIsMultiset(s.channel, id);
  }

  lemma {:induction false} NothingDropped(s: State, n: nat)
    requires LifeInv(s) && AllReturned(s) && n <= |s.pools|
    requires forall p :: 0 <= p < |s.pools| ==> !s.pools[p].canceled
    ensures Dropped(s.pools[..n]) == []
    decreases n
  {
    if n > 0 {
      NothingDropped(s, n - 1);
      assert s.pools[..n][..n - 1] == s.pools[..n - 1];
      ReturnedUncanceled(s, n - 1);
    }
  }

  /** When no pool was canceled and every Run has returned, the queue was
      closed, and the deliveries handled are, as a multiset, exactly those whose
      enqueueing was accepted, for any number of pools, workers and slots. */
  lemma EveryAcceptedHandled(s: State, es: seq<Event>)
    requires Initial(s) && ValidRun(s, es) && |s.pools| > 0
    requires var end := Final(s, es);
             AllReturned(end) && forall p :: 0 <= p < |end.pools| ==> !end.pools[p].canceled
    ensures var end := Final(s, es);
            && end.closed && end.channel == []
            && multiset(end.handled) == multiset(end.sent)
            && forall id :: Total(end.producers, Sent(id)) == multiset(end.handled)[id]
  {
    InitialInv(s);
    RunKeepsInv(s, es);
    var end := Final(s, es);
    ReturnedUncanceled(end, 0);
    NothingDropped(end, |end.pools|);
    assert end.pools[..|end.pools|] == end.pools;
    forall id
      ensures multiset(end.handled)[id] == multiset(end.sent)[id] == Total(end.producers, Sent(id))
    {
      ReturnedConserved(end, id);
    }
  }
}
