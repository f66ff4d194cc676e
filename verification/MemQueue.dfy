/** The in-process queue as an object: a bounded buffer, a flag and a lock, and
    the forwarders of its consumers. One call happens after another here, and a
    call that has to wait comes back later; PoolMachine interleaves the steps of
    many, and whatever is done to the object is a run of that machine. */
module MemQueue {
  import opened Wrappers
  import opened PoolMachine
  import opened PoolSafety

  const DEFAULT_BUFFER := 1024

  datatype EnqueueError = EmptyId | QueueClosed | ContextEnded

  datatype Reply = Done | Failed(error: EnqueueError) | MustWait

  datatype Delivery = Delivered(id: string) | Nothing | Ended

  // The machine of a queue with a number of consumers of one worker each.
  ghost function Fresh(capacity: nat, consumers: nat): State {
    State(capacity, [], false, false, false, [], [],
          seq(consumers, _ => Pool(Taking, Running, false, false)),
          seq(consumers, p requires 0 <= p < consumers => Worker(p, Waiting)),
          [], [], [])
  }

  ghost predicate Leads(capacity: nat, consumers: nat, history: seq<Event>, s: State) {
    ValidRun(Fresh(capacity, consumers), history) && Final(Fresh(capacity, consumers), history) == s
  }

  lemma LeadsOn(capacity: nat, consumers: nat, history: seq<Event>, s: State, e: Event)
    requires Leads(capacity, consumers, history, s) && Enabled(s, e)
    ensures Leads(capacity, consumers, history + [e], Apply(s, e))
  {
    RunAppend(Fresh(capacity, consumers), history, e);
  }

  lemma FreshIsInitial(capacity: nat, consumers: nat)
    requires capacity > 0
    ensures Initial(Fresh(capacity, consumers))
  {
    var s := Fresh(capacity, consumers);
    forall p | 0 <= p < |s.pools| ensures Staffed(s, p) {
      assert WorkerOf(s, p, p);
    }
  }

  // A caller that has its answer, or waits for room under its ticket.
  predicate Answers(x: Producer, ticket: nat, waiting: map<nat, string>) {
    if ticket in waiting then x == Sending(waiting[ticket]) else x.Accepted? || x.Refused?
  }

  // A consumer between two calls.
  predicate BetweenCalls(p: nat, pool: Pool, worker: Worker, ended: bool) {
    && worker.pool == p && !worker.busy.Gone?
    && (if ended then pool.forwarder.Exited? else pool.forwarder.Taking?)
  }

  class Queue {
    const capacity: nat
    var buffer: seq<string>
    var closed: bool
    var calls: nat
    var waiting: map<nat, string>     // the callers waiting for room, by ticket
    var ended: seq<bool>              // whether each consumer has left its loop
    ghost var history: seq<Event>
    ghost var machine: State

    // Between calls nobody holds the lock, but for the callers waiting for room.
    ghost predicate AtPeace()
      reads this
    {
      && machine.closed == machine.channelClosed == closed
      && calls == |machine.producers|
      && (forall i :: i in waiting ==> i < calls)
      && (forall i :: 0 <= i < calls ==> Answers(machine.producers[i], i, waiting))
      && (closed ==> waiting == map[])
      && (forall k :: 0 <= k < |machine.closers| ==> machine.closers[k].Left?)
    }

    ghost predicate ConsumersAtPeace()
      reads this
    {
      && |machine.pools| == |machine.workers| == |ended|
      && (forall p :: 0 <= p < |ended| ==>
            BetweenCalls(p, machine.pools[p], machine.workers[p], ended[p]))
    }

    // The machine is where its run leads.
    ghost predicate Led()
      reads this`machine, this`history, this`ended
    {
      Leads(capacity, |ended|, history, machine)
    }

    ghost predicate Reached()
      reads this
    {
      && capacity > 0 && Led()
      && machine.capacity == capacity && machine.channel == buffer && !machine.panicked
    }

    ghost predicate Valid()
      reads this
    {
      Reached() && AtPeace() && ConsumersAtPeace()
    }

    constructor (size: int, consumers: nat)
      ensures Valid() && buffer == [] && !closed && waiting == map[] && history == []
      ensures capacity == if size <= 0 then 1024 else size
      ensures ended == seq(consumers, _ => false)
    {
      var c := if size <= 0 then DEFAULT_BUFFER else size;
      capacity := c;
      buffer := [];
      closed := false;
      calls := 0;
      waiting := map[];
      ended := seq(consumers, _ => false);
      history := [];
      machine := Fresh(c, consumers);
    }

    // The machine takes one step of the call under way.
    ghost method Step(e: Event)
      requires Led() && Enabled(machine, e)
      modifies this`machine, this`history
      ensures Led() && history == old(history) + [e] && machine == Apply(old(machine), e)
    {
      LeadsOn(capacity, |ended|, history, machine, e);
      machine := Apply(machine, e);
      history := history + [e];
    }

    // A caller takes the read lock and looks at the flag.
    ghost method Arrive(id: string)
      requires Led() && id != "" && NoWriter(machine)
      modifies this`machine, this`history
      ensures Led() && old(history) <= history
      ensures machine == old(machine).(producers :=
                old(machine).producers + [if old(machine).closed then Refused(id) else Sending(id)])
    {
      var i := |machine.producers|;
      ghost var before := machine.producers;
      Step(Call(id));
      Step(LockRead(i));
      Step(Check(i));
      assert machine.producers == before + [if old(machine).closed then Refused(id) else Sending(id)];
    }

    // A closer takes the write lock, sets the flag and closes the channel.
    ghost method Shut()
      requires Led() && NoWriter(machine) && NoReader(machine) && machine.closed == machine.channelClosed
      modifies this`machine, this`history
      ensures Led() && old(history) <= history
      ensures machine == old(machine).(closed := true, channelClosed := true,
                                       closers := old(machine).closers + [Left])
    {
      var k := |machine.closers|;
      ghost var before := machine.closers;
      Step(CallClose);
      Step(LockWrite(k));
      Step(Flag(k));
      if !old(machine).closed {
        Step(CloseChannel(k));
      }
      assert machine.closers == before + [Left];
    }

    // A caller that found the queue open waits for room, if only for a moment.
    method Admit(id: string)
      requires Valid() && id != ""
      modifies this`calls, this`waiting, this`machine, this`history
      ensures Valid() && old(history) <= history && machine.sent == old(machine.sent)
      ensures calls == old(calls) + 1
      ensures waiting == if closed then old(waiting) else old(waiting)[old(calls) := id]
      ensures old(calls) !in old(waiting)
    {
      Arrive(id);
      if !closed {
        waiting := waiting[calls := id];
      }
      calls := calls + 1;
    }

    /** Appends the identifier, refuses it, or leaves the caller waiting for room
        under a ticket. When there is room and the context has ended as well,
        either may win. */
    method Enqueue(id: string, contextEnds: bool, prefersEnd: bool)
      returns (reply: Reply, ticket: nat)
      requires Valid()
      modifies this
      ensures Valid() && old(history) <= history
      ensures closed == old(closed) && ended == old(ended)
      ensures buffer == old(buffer) + if reply.Done? then [id] else []
      ensures machine.sent == old(machine.sent) + if reply.Done? then [id] else []
      ensures reply == Failed(EmptyId) <==> id == ""
      ensures reply == Failed(QueueClosed) <==> id != "" && closed
      ensures reply == Failed(ContextEnded) <==>
                id != "" && !closed && contextEnds && (prefersEnd || |old(buffer)| == capacity)
      ensures reply.MustWait? <==> id != "" && !closed && !contextEnds && |old(buffer)| == capacity
      ensures ticket !in old(waiting)
      ensures waiting == if reply.MustWait? then old(waiting)[ticket := id] else old(waiting)
    {
      ticket := calls;
      if id == "" {
        calls := calls + 1;
        Step(Call(id));
        return Failed(EmptyId), ticket;
      }
      Admit(id);
      if closed {
        return Failed(QueueClosed), ticket;
      }
      reply := Resume(ticket, contextEnds, prefersEnd);
      assert waiting == if reply.MustWait? then old(waiting)[ticket := id] else old(waiting);
    }

    /** A waiting caller's select: it sends when there is room, gives up when its
        context has ended, and otherwise goes on waiting. */
    method Resume(ticket: nat, contextEnds: bool, prefersEnd: bool) returns (reply: Reply)
      requires Valid() && ticket in waiting
      modifies this
      ensures Valid() && old(history) <= history
      ensures closed == old(closed) && ended == old(ended) && calls == old(calls)
      ensures var id := old(waiting)[ticket];
              && buffer == old(buffer) + (if reply.Done? then [id] else [])
              && machine.sent == old(machine.sent) + (if reply.Done? then [id] else [])
      ensures reply.MustWait? <==> !contextEnds && |old(buffer)| == capacity
      ensures reply == Failed(ContextEnded) <==>
                contextEnds && (prefersEnd || |old(buffer)| == capacity)
      ensures reply.Failed? ==> reply.error == ContextEnded
      ensures waiting == if reply.MustWait? then old(waiting) else old(waiting) - {ticket}
    {
      BufferBounded();
      assert Answers(machine.producers[ticket], ticket, waiting);
      if |buffer| < capacity && !(contextEnds && prefersEnd) {
        Step(PoolMachine.Send(ticket));
        buffer := buffer + [waiting[ticket]];
        waiting := waiting - {ticket};
        return Done;
      }
      if contextEnds {
        Step(GiveUp(ticket));
        waiting := waiting - {ticket};
        return Failed(ContextEnded);
      }
      return MustWait;
    }

    // What every run keeps, of the object.
    lemma BufferBounded()
      requires Reached()
      ensures |buffer| <= capacity
    {
      FreshIsInitial(capacity, |ended|);
      NeverPanics(Fresh(capacity, |ended|), history);
    }

    /** With a single consumer deliveries come in the order of the sends. */
    lemma InOrder()
      requires Valid() && |ended| == 1
      ensures machine.delivered <= machine.sent
    {
      FreshIsInitial(capacity, 1);
      RunKeepsPoolCount(Fresh(capacity, 1), history);
      DeliveredInOrder(Fresh(capacity, 1), history);
    }

    /** Stops the queue; what is buffered stays, and closing again is safe. The
        write lock has to wait for callers that wait for room. */
    method Close() returns (done: bool)
      requires Valid()
      modifies this
      ensures Valid() && old(history) <= history
      ensures buffer == old(buffer) && ended == old(ended) && waiting == old(waiting)
      ensures done <==> old(waiting) == map[]
      ensures closed == (old(closed) || done)
    {
      if waiting != map[] {
        return false;
      }
      assert forall i :: 0 <= i < calls ==> Answers(machine.producers[i], i, waiting);
      Shut();
      closed := true;
      return true;
    }

    /** Consumer p asks for its next delivery, having handled the one before: the
        oldest identifier in the buffer, or the end of its channel once the
        queue is closed and drained or its context has ended, or nothing yet. A
        context that ends while the forwarder offers what it took loses it. */
    method Receive(p: nat, contextEnds: bool, prefersEnd: bool, drops: bool)
      returns (delivery: Delivery)
      requires Valid() && p < |ended|
      modifies this
      ensures Valid() && old(history) <= history
      ensures closed == old(closed) && waiting == old(waiting) && calls == old(calls)
      ensures var open := !old(ended[p]);
              var leaves := contextEnds && (prefersEnd || old(buffer) == []);
              var takes := open && !leaves && old(buffer) != [];
              && (delivery == Ended <==>
                    !open || leaves || (old(buffer) == [] && closed) || (takes && contextEnds && drops))
              && (delivery == Nothing <==> open && !leaves && old(buffer) == [] && !closed)
              && (delivery.Delivered? ==> takes && delivery.id == old(buffer)[0])
              && buffer == (if takes then old(buffer)[1..] else old(buffer))
      ensures ended == old(ended)[p := delivery == Ended]
      ensures machine.delivered ==
              old(machine.delivered) + if delivery.Delivered? then [delivery.id] else []
    {
      FinishPrevious(p);
      if ended[p] {
        return Ended;
      }
      if contextEnds && (prefersEnd || buffer == []) {
        Leave(p, true);
        return Ended;
      }
      if buffer == [] {
        if !closed {
          return Nothing;
        }
        Leave(p, false);
        return Ended;
      }
      if contextEnds && drops {
        TakeAndDrop(p);
        return Ended;
      }
      var id := TakeNext(p);
      return Delivered(id);
    }

    // The delivery before, if there was one, has been handled.
    ghost method FinishPrevious(p: nat)
      requires Valid() && p < |ended|
      modifies this`machine, this`history
      ensures Valid() && old(history) <= history && machine.workers[p].busy.Waiting?
      ensures machine.delivered == old(machine.delivered) && machine.producers == old(machine.producers)
    {
      assert BetweenCalls(p, machine.pools[p], machine.workers[p], ended[p]);
      if machine.workers[p].busy.Handling? {
        Step(Finish(p));
      }
    }

    // The forwarder leaves its loop.
    method Leave(p: nat, canceled: bool)
      requires Valid() && p < |ended| && !ended[p]
      requires !canceled ==> buffer == [] && closed
      modifies this`ended, this`machine, this`history
      ensures Valid() && old(history) <= history && ended == old(ended)[p := true]
      ensures machine.delivered == old(machine.delivered)
    {
      assert BetweenCalls(p, machine.pools[p], machine.workers[p], ended[p]);
      if canceled {
        SeeEnd(p);
        Step(SeeCanceled(p));
      } else {
        Step(SeeClosed(p));
      }
      ended := ended[p := true];
    }

    // The forwarder takes a delivery and has to give it up.
    method TakeAndDrop(p: nat)
      requires Valid() && p < |ended| && !ended[p] && buffer != []
      modifies this`buffer, this`ended, this`machine, this`history
      ensures Valid() && old(history) <= history && ended == old(ended)[p := true]
      ensures buffer == old(buffer)[1..] && machine.delivered == old(machine.delivered)
    {
      assert BetweenCalls(p, machine.pools[p], machine.workers[p], ended[p]);
      Step(PoolMachine.Take(p));
      SeeEnd(p);
      Step(Drop(p));
      buffer := buffer[1..];
      ended := ended[p := true];
    }

    // The forwarder takes a delivery and hands it to the worker.
    method TakeNext(p: nat) returns (id: string)
      requires Valid() && p < |ended| && !ended[p] && buffer != []
      requires machine.workers[p].busy.Waiting?
      modifies this`buffer, this`machine, this`history
      ensures Valid() && old(history) <= history
      ensures id == old(buffer)[0] && buffer == old(buffer)[1..]
      ensures machine.delivered == old(machine.delivered) + [id]
    {
      assert BetweenCalls(p, machine.pools[p], machine.workers[p], ended[p]);
      id := buffer[0];
      Step(PoolMachine.Take(p));
      Step(PoolMachine.Receive(p));
      buffer := buffer[1..];
    }

    // The consumer's context has ended, now or before.
    ghost method SeeEnd(p: nat)
      requires Led() && p < |machine.pools|
      modifies this`machine, this`history
      ensures Led() && old(history) <= history
      ensures machine == WithPool(old(machine), p, old(machine).pools[p].(canceled := true))
    {
      if !machine.pools[p].canceled {
        Step(Cancel(p));
      }
    }
  }
}
