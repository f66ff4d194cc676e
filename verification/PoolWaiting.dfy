/** When a call of Enqueue waits for ever, as far as the queue and its pools are
    concerned: exactly when, at the time of the call, the queue is open and full
    and every consumer has been canceled. And that this comes about. */
module PoolWaiting {
  import opened Wrappers
  import opened PoolMachine
  import opened PoolSafety
  import opened PoolProgress

  predicate Answered(x: Producer) {
    x.Accepted? || x.Refused?
  }

  // What the queue and the pools do by themselves: no new call, no cancellation,
  // and no caller's own context ending.
  predicate ByItself(e: Event) {
    !e.Call? && !e.CallClose? && !e.Cancel? && !e.GiveUp?
  }

  predicate Alone(es: seq<Event>) {
    es == [] || (ByItself(es[0]) && Alone(es[1..]))
  }

  // What happens by itself cancels nobody, reopens nothing and takes no answer
  // back.
  predicate Kept(s: State, s': State) {
    && s'.capacity == s.capacity && |s'.pools| == |s.pools|
    && (forall p :: 0 <= p < |s.pools| ==> s'.pools[p].canceled == s.pools[p].canceled)
    && (s.closed ==> s'.closed)
    && |s'.producers| == |s.producers|
    && (forall i :: 0 <= i < |s.producers| && Answered(s.producers[i]) ==> s'.producers[i] == s.producers[i])
  }

  lemma ProducerKept(s: State, e: Event)
    requires Enabled(s, e) && ByItself(e) && ByProducer(e)
    ensures Kept(s, Apply(s, e))
  {
  }

  lemma OtherKept(s: State, e: Event)
    requires Enabled(s, e) && ByItself(e) && !ByProducer(e)
    ensures Kept(s, Apply(s, e))
  {
    assert Apply(s, e).producers == s.producers;
  }

  lemma EventKept(s: State, e: Event)
    requires Enabled(s, e) && ByItself(e)
    ensures Kept(s, Apply(s, e))
  {
    if ByProducer(e) {
      ProducerKept(s, e);
    } else {
      OtherKept(s, e);
    }
  }

  lemma {:induction false} RunKept(s: State, es: seq<Event>)
    requires ValidRun(s, es) && Alone(es)
    ensures Kept(s, Final(s, es))
    decreases |es|
  {
    if es != [] {
      EventKept(s, es[0]);
      RunKept(Apply(s, es[0]), es[1..]);
    }
  }

  predicate AllExited(s: State) {
    forall p :: 0 <= p < |s.pools| ==> s.pools[p].forwarder.Exited?
  }

  // A canceled forwarder that has come to rest has left its loop.
  lemma CanceledExited(s: State)
    requires LifeInv(s) && Quiescent(s) && AllCanceled(s)
    ensures AllExited(s)
  {
    forall p | 0 <= p < |s.pools| ensures s.pools[p].forwarder.Exited? {
      QuiescentForwarder(s, p);
    }
  }

  // ------------------------------------------------------ a call that waits

  // Nobody makes room, nobody can close the queue, and a call is unanswered.
  predicate Jammed(s: State, n: nat) {
    && n < |s.producers| && !Answered(s.producers[n])
    && |s.channel| == s.capacity && !s.closed && !s.channelClosed
    && AllExited(s)
    && (forall k :: 0 <= k < |s.closers| ==> s.closers[k].Arriving?)
    && (s.closers != [] ==> SomeoneSending(s))
  }

  lemma EventKeepsJam(s: State, n: nat, e: Event)
    requires Jammed(s, n) && Enabled(s, e) && ByItself(e)
    ensures Jammed(Apply(s, e), n)
  {
    var s' := Apply(s, e);
    if SomeoneSending(s) {
      var i: nat :| i < |s.producers| && s.producers[i].Sending?;
      assert s'.producers[i].Sending?;
    }
  }

  lemma {:induction false} RunKeepsJam(s: State, n: nat, es: seq<Event>)
    requires Jammed(s, n) && ValidRun(s, es) && Alone(es)
    ensures Jammed(Final(s, es), n)
    decreases |es|
  {
    if es != [] {
      EventKeepsJam(s, n, es[0]);
      RunKeepsJam(Apply(s, es[0]), n, es[1..]);
    }
  }

  // A Close that is over has closed the queue.
  lemma LeftClosed(s: State)
    requires CloseInv(s) && forall k :: 0 <= k < |s.closers| ==> s.closers[k].Left?
    ensures s.closers != [] ==> s.closed
  {
    assert s.closers != [] ==> s.closers[0].Left?;
  }

  lemma JamStarts(s: State, id: string)
    requires CloseInv(s) && LifeInv(s) && Quiescent(s) && id != ""
    requires !s.closed && AllCanceled(s) && |s.channel| == s.capacity
    ensures Jammed(Apply(s, Call(id)), |s.producers|)
  {
    CanceledExited(s);
    var s' := Apply(s, Call(id));
    if SomeoneSending(s) {
      var i: nat :| i < |s.producers| && s.producers[i].Sending?;
      assert Reads(s.producers[i]) && s'.producers[i].Sending?;
    } else {
      QuiescentLock(s);
      LeftClosed(s);
    }
  }

  // ---------------------------------------------- a call that does not wait

  // One caller is unanswered and nobody takes anything: until it is answered
  // the buffer stays as it was.
  predicate OnlyCaller(s: State, channel: seq<string>, n: nat) {
    && |s.producers| == n + 1 && (forall i :: 0 <= i < n ==> Answered(s.producers[i]))
    && AllExited(s)
    && (Answered(s.producers[n]) || s.channel == channel)
  }

  lemma EventKeepsOnlyCaller(s: State, channel: seq<string>, n: nat, e: Event)
    requires OnlyCaller(s, channel, n) && !s.panicked && Enabled(s, e) && ByItself(e)
    requires e.Send? ==> !s.channelClosed
    ensures OnlyCaller(Apply(s, e), channel, n)
  {
  }

  lemma SendsOpen(s: State, e: Event)
    requires CloseInv(s) && Enabled(s, e) && e.Send?
    ensures !s.channelClosed
  {
  }

  lemma {:induction false} RunKeepsOnlyCaller(s: State, channel: seq<string>, n: nat, es: seq<Event>)
    requires Inv(s) && OnlyCaller(s, channel, n) && ValidRun(s, es) && Alone(es)
    ensures OnlyCaller(Final(s, es), channel, n)
    decreases |es|
  {
    if es != [] {
      if es[0].Send? {
        SendsOpen(s, es[0]);
      }
      EventKeepsOnlyCaller(s, channel, n, es[0]);
      EventKeepsInv(s, es[0]);
      RunKeepsOnlyCaller(Apply(s, es[0]), channel, n, es[1..]);
    }
  }

  // Who is unanswered at rest came to a full open queue without consumers.
  lemma UnansweredAtRest(s: State)
    requires CloseInv(s) && LifeInv(s) && Quiescent(s) && s.capacity > 0 && Unanswered(s)
    ensures AllCanceled(s) && |s.channel| == s.capacity && !s.closed
  {
    QuiescentAtRest(s);
  }

  lemma WaitsOnlyIf(s: State, id: string, es: seq<Event>)
    requires Inv(s) && s.capacity > 0 && Quiescent(s)
    requires var s1 := Apply(s, Call(id));
             ValidRun(s1, es) && Alone(es) && Inv(Final(s1, es)) && Quiescent(Final(s1, es))
    requires Kept(Apply(s, Call(id)), Final(Apply(s, Call(id)), es))
    requires !Answered(Final(Apply(s, Call(id)), es).producers[|s.producers|])
    ensures id != "" && !s.closed && AllCanceled(s) && |s.channel| == s.capacity
  {
    var n := |s.producers|;
    var s1 := Apply(s, Call(id));
    var end := Final(s1, es);
    assert Unanswered(end);
    UnansweredAtRest(end);
    assert AllCanceled(s);
    CanceledExited(s);
    if Unanswered(s) {
      UnansweredAtRest(s);
    } else {
      EventKeepsInv(s, Call(id));
      assert OnlyCaller(s1, s.channel, n);
      RunKeepsOnlyCaller(s1, s.channel, n, es);
    }
  }

  /** A call of Enqueue made while everything rests is still unanswered when
      everything rests again exactly when its identifier is one, the queue is
      open, its buffer is full, and every consumer has been canceled: all things
      the caller could look at first. */
  lemma EnqueueWaitsIff(start: State, before: seq<Event>, id: string, es: seq<Event>)
    requires Initial(start) && ValidRun(start, before) && Quiescent(Final(start, before))
    requires var s1 := Apply(Final(start, before), Call(id));
             ValidRun(s1, es) && Alone(es) && Quiescent(Final(s1, es))
    ensures
      var s := Final(start, before);
      var end := Final(Apply(s, Call(id)), es);
      && |end.producers| == |s.producers| + 1
      && (!Answered(end.producers[|s.producers|]) <==>
            id != "" && !s.closed && AllCanceled(s) && |s.channel| == s.capacity)
  {
    InitialInv(start);
    RunKeepsInv(start, before);
    RunKeepsCapacity(start, before);
    WaitsIff(Final(start, before), id, es);
  }

  lemma WaitsIff(s: State, id: string, es: seq<Event>)
    requires Inv(s) && s.capacity > 0 && Quiescent(s)
    requires var s1 := Apply(s, Call(id));
             ValidRun(s1, es) && Alone(es) && Quiescent(Final(s1, es))
    ensures
      var end := Final(Apply(s, Call(id)), es);
      && |end.producers| == |s.producers| + 1
      && (!Answered(end.producers[|s.producers|]) <==>
            id != "" && !s.closed && AllCanceled(s) && |s.channel| == s.capacity)
  {
    var s1 := Apply(s, Call(id));
    EventKeepsInv(s, Call(id));
    RunKeepsInv(s1, es);
    RunKept(s1, es);
    if !Answered(Final(s1, es).producers[|s.producers|]) {
      WaitsOnlyIf(s, id, es);
    } else if id != "" && !s.closed && AllCanceled(s) && |s.channel| == s.capacity {
      JamStarts(s, id);
      RunKeepsJam(s1, |s.producers|, es);
    }
  }

  // ----------------------------------------------------- and it comes about

  /** From every state the queue and the pools come to rest by themselves. */
  lemma {:induction false} ComesToRest(s: State) returns (es: seq<Event>)
    requires Inv(s)
    ensures ValidRun(s, es) && Alone(es) && Quiescent(Final(s, es))
    decreases Measure(s)
  {
    if Quiescent(s) {
      es := [];
    } else {
      var e :| Enabled(s, e) && Moves(s, e);
      EventLowers(s, e);
      EventKeepsInv(s, e);
      var rest := ComesToRest(Apply(s, e));
      es := [e] + rest;
      assert es[1..] == rest;
    }
  }

  // Nobody has called yet, or ever will by itself.
  predicate Untouched(s: State) {
    s.producers == [] && s.closers == [] && s.channel == [] && !s.closed
  }

  lemma {:induction false} RunKeepsUntouched(s: State, es: seq<Event>)
    requires Untouched(s) && ValidRun(s, es) && Alone(es)
    ensures Untouched(Final(s, es))
    decreases |es|
  {
    if es != [] {
      RunKeepsUntouched(Apply(s, es[0]), es[1..]);
    }
  }

  // The first n consumers are canceled, and nothing else has happened.
  predicate CanceledUpTo(s: State, s': State, n: nat) {
    && n <= |s.pools| == |s'.pools| && s' == s.(pools := s'.pools)
    && (forall p :: 0 <= p < |s.pools| ==> s'.pools[p].canceled == (p < n))
  }

  lemma {:induction false} CancelAll(s: State, n: nat) returns (es: seq<Event>)
    requires Initial(s) && n <= |s.pools|
    ensures ValidRun(s, es) && CanceledUpTo(s, Final(s, es), n)
    decreases n
  {
    if n == 0 {
      es := [];
    } else {
      var before := CancelAll(s, n - 1);
      RunAppend(s, before, Cancel(n - 1));
      es := before + [Cancel(n - 1)];
    }
  }

  // Every consumer is canceled and everything rests, with so many deliveries in
  // the buffer of an open queue.
  ghost predicate Filling(s: State, n: nat) {
    && Inv(s) && Quiescent(s) && AllCanceled(s) && AllExited(s)
    && s.closers == [] && !s.closed && !s.channelClosed && |s.channel| == n
    && (forall i :: 0 <= i < |s.producers| ==> Answered(s.producers[i]))
  }

  function FillingCall(i: nat, id: string): seq<Event> {
    [Call(id), LockRead(i)] + [Check(i), Send(i)]
  }

  // Accepting a delivery nobody can take disturbs no rest.
  lemma AcceptedRests(s: State, s': State, id: string)
    requires Quiescent(s) && AllExited(s) && s.closers == [] && !s.panicked
    requires s' == s.(producers := s.producers + [Accepted(id)], channel := s.channel + [id],
                      sent := s.sent + [id])
    requires forall i :: 0 <= i < |s.producers| ==> Answered(s.producers[i])
    ensures Quiescent(s')
  {
    forall e | Enabled(s', e) ensures !Moves(s', e) {
      if Moves(s', e) {
        assert Enabled(s, e) && Moves(s, e);
        Stuck(s, e);
      }
    }
  }

  lemma PairRuns(s: State, e: Event, f: Event)
    requires Enabled(s, e) && Enabled(Apply(s, e), f)
    ensures ValidRun(s, [e, f]) && Final(s, [e, f]) == Apply(Apply(s, e), f)
  {
    RunAppend(s, [], e);
    assert [] + [e] == [e];
    RunAppend(s, [e], f);
    assert [e] + [f] == [e, f];
  }

  lemma CallLocks(s: State, id: string)
    requires id != "" && s.closers == []
    ensures var es := [Call(id), LockRead(|s.producers|)];
            ValidRun(s, es) && Final(s, es) == s.(producers := s.producers + [Checking(id)])
  {
    var s1 := Apply(s, Call(id));
    assert s1 == s.(producers := s.producers + [Calling(id)]);
    PairRuns(s, Call(id), LockRead(|s.producers|));
    assert (s.producers + [Calling(id)])[|s.producers| := Checking(id)] == s.producers + [Checking(id)];
  }

  lemma CheckSends(s: State, i: nat)
    requires i + 1 == |s.producers| && s.producers[i].Checking?
    requires !s.closed && !s.channelClosed && |s.channel| < s.capacity
    ensures var es := [Check(i), Send(i)];
            var id := s.producers[i].id;
            && ValidRun(s, es)
            && Final(s, es) == s.(producers := s.producers[..i] + [Accepted(id)],
                                  channel := s.channel + [id], sent := s.sent + [id])
  {
    PairRuns(s, Check(i), Send(i));
    var id := s.producers[i].id;
    assert Apply(s, Check(i)) == s.(producers := s.producers[i := Sending(id)]);
    assert s.producers[i := Sending(id)][i := Accepted(id)] == s.producers[..i] + [Accepted(id)];
  }

  lemma FillingRuns(s: State, id: string)
    requires id != "" && s.closers == [] && !s.closed && !s.channelClosed && |s.channel| < s.capacity
    ensures ValidRun(s, FillingCall(|s.producers|, id))
    ensures Final(s, FillingCall(|s.producers|, id)) ==
            s.(producers := s.producers + [Accepted(id)], channel := s.channel + [id], sent := s.sent + [id])
  {
    var i := |s.producers|;
    CallLocks(s, id);
    var mid := Final(s, [Call(id), LockRead(i)]);
    CheckSends(mid, i);
    assert mid.producers[..i] == s.producers;
    RunConcat(s, [Call(id), LockRead(i)], [Check(i), Send(i)]);
  }

  lemma FillOne(s: State, n: nat, id: string)
    requires Filling(s, n) && n < s.capacity && id != ""
    ensures ValidRun(s, FillingCall(|s.producers|, id))
    ensures var s' := Final(s, FillingCall(|s.producers|, id));
            Filling(s', n + 1) && s'.capacity == s.capacity
  {
    FillingRuns(s, id);
    RunKeepsInv(s, FillingCall(|s.producers|, id));
    AcceptedRests(s, Final(s, FillingCall(|s.producers|, id)), id);
  }

  lemma {:induction false} FillUp(s: State, n: nat, id: string) returns (es: seq<Event>)
    requires Filling(s, n) && n <= s.capacity && id != ""
    ensures ValidRun(s, es)
    ensures var s' := Final(s, es); Filling(s', s.capacity) && s'.capacity == s.capacity
    decreases s.capacity - n
  {
    if n == s.capacity {
      es := [];
    } else {
      FillOne(s, n, id);
      var call := FillingCall(|s.producers|, id);
      var rest := FillUp(Final(s, call), n + 1, id);
      RunConcat(s, call, rest);
      es := call + rest;
    }
  }

  // Cancel every consumer and let them go.
  lemma CanceledAndGone(s: State) returns (es: seq<Event>)
    requires Initial(s)
    ensures ValidRun(s, es) && Filling(Final(s, es), 0) && Final(s, es).capacity == s.capacity
  {
    InitialInv(s);
    var cancels := CancelAll(s, |s.pools|);
    RunKeepsInv(s, cancels);
    var mid := Final(s, cancels);
    var rest := ComesToRest(mid);
    RunKeepsInv(mid, rest);
    RunKeepsUntouched(mid, rest);
    RunKept(mid, rest);
    CanceledExited(Final(mid, rest));
    RunConcat(s, cancels, rest);
    es := cancels + rest;
    assert CloseInv(Final(s, es));
  }

  /** Whatever the capacity, the pools and their workers, it comes about: cancel
      every consumer, fill the buffer, and call once more. */
  lemma WaitingHappens(s: State, id: string) returns (es: seq<Event>)
    requires Initial(s) && id != ""
    ensures ValidRun(s, es) && Quiescent(Final(s, es)) && Unanswered(Final(s, es))
  {
    var gone := CanceledAndGone(s);
    var mid := Final(s, gone);
    var filled := FillUp(mid, 0, id);
    RunConcat(s, gone, filled);
    var full := Final(mid, filled);
    var last := ComesToRest(Apply(full, Call(id))) by {
      EventKeepsInv(full, Call(id));
    }
    WaitsIff(full, id, last);
    RunConcat(full, [Call(id)], last);
    RunConcat(s, gone + filled, [Call(id)] + last);
    es := gone + filled + ([Call(id)] + last);
    assert !Answered(Final(s, es).producers[|full.producers|]);
  }
}
