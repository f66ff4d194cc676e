/** The in-process queue and the pools draining it, as one machine of atomic
    steps: producers and closers around a read-write lock, a bounded channel, a
    forwarder for each consumer, its workers, and the goroutine that waits for
    them. Every select may take any branch that is ready. */
module PoolMachine {
  import opened Wrappers

  datatype Producer =
    | Calling(id: string)
    | Checking(id: string)          // holds the read lock
    | Sending(id: string)           // holds the read lock, found the queue open
    | Accepted(id: string)
    | Refused(id: string)

  datatype Closer =
    | Arriving
    | Locked                        // holds the write lock
    | Flagged                       // holds the write lock, set the flag
    | Left

  // A forwarder that gave up its delivery remembers which.
  datatype Forwarder = Taking | Offering(id: string) | Exited(dropped: Option<string>)

  datatype Main = Running | Draining | Abandoning | Returned(timedOut: bool)

  datatype Pool = Pool(forwarder: Forwarder, main: Main, canceled: bool, jobsCanceled: bool)

  datatype Busy = Waiting | Handling(id: string) | Gone

  datatype Worker = Worker(pool: nat, busy: Busy)

  datatype State = State(
    capacity: nat,
    channel: seq<string>,
    closed: bool,                   // the flag behind the lock
    channelClosed: bool,
    panicked: bool,
    producers: seq<Producer>,
    closers: seq<Closer>,
    pools: seq<Pool>,
    workers: seq<Worker>,
    sent: seq<string>,              // in the order of the sends
    delivered: seq<string>,         // in the order workers took them
    handled: seq<string>)

  datatype Event =
    | Call(id: string)
    | LockRead(i: nat) | Check(i: nat) | Send(i: nat) | GiveUp(i: nat)
    | CallClose
    | LockWrite(k: nat) | Flag(k: nat) | CloseChannel(k: nat)
    | Cancel(p: nat)
    | Take(p: nat) | SeeClosed(p: nat) | SeeCanceled(p: nat) | Drop(p: nat)
    | Receive(w: nat) | Finish(w: nat) | StopCanceled(w: nat) | StopClosed(w: nat)
    | NoticeCancel(p: nat) | Timeout(p: nat) | Return(p: nat)

  predicate Reads(x: Producer) {
    x.Checking? || x.Sending?
  }

  predicate Writes(x: Closer) {
    x.Locked? || x.Flagged?
  }

  predicate NoReader(s: State) {
    forall i :: 0 <= i < |s.producers| ==> !Reads(s.producers[i])
  }

  predicate NoWriter(s: State) {
    forall k :: 0 <= k < |s.closers| ==> !Writes(s.closers[k])
  }

  predicate AllGone(s: State, p: nat) {
    forall w :: 0 <= w < |s.workers| && s.workers[w].pool == p ==> s.workers[w].busy.Gone?
  }

  predicate WorkerOf(s: State, w: nat, p: nat) {
    w < |s.workers| && s.workers[w].pool == p && p < |s.pools|
  }

  ghost predicate Staffed(s: State, p: nat) {
    exists w :: WorkerOf(s, w, p)
  }

  predicate Enabled(s: State, e: Event) {
    match e
    case Call(_) => true
    case LockRead(i) => i < |s.producers| && s.producers[i].Calling? && NoWriter(s)
    case Check(i) => i < |s.producers| && s.producers[i].Checking?
    case Send(i) =>
      && i < |s.producers| && s.producers[i].Sending?
      // A send on a closed channel is always ready: it panics.
      && (|s.channel| < s.capacity || s.channelClosed)
    case GiveUp(i) => i < |s.producers| && s.producers[i].Sending?
    case CallClose => true
    case LockWrite(k) => k < |s.closers| && s.closers[k].Arriving? && NoReader(s) && NoWriter(s)
    case Flag(k) => k < |s.closers| && s.closers[k].Locked?
    case CloseChannel(k) => k < |s.closers| && s.closers[k].Flagged?
    case Cancel(p) => p < |s.pools| && !s.pools[p].canceled
    case Take(p) => p < |s.pools| && s.pools[p].forwarder.Taking? && s.channel != []
    case SeeClosed(p) =>
      p < |s.pools| && s.pools[p].forwarder.Taking? && s.channel == [] && s.channelClosed
    case SeeCanceled(p) => p < |s.pools| && s.pools[p].forwarder.Taking? && s.pools[p].canceled
    case Drop(p) => p < |s.pools| && s.pools[p].forwarder.Offering? && s.pools[p].canceled
    case Receive(w) =>
      && w < |s.workers| && s.workers[w].busy.Waiting? && s.workers[w].pool < |s.pools|
      && s.pools[s.workers[w].pool].forwarder.Offering?
    case Finish(w) => w < |s.workers| && s.workers[w].busy.Handling?
    case StopCanceled(w) =>
      && w < |s.workers| && s.workers[w].busy.Waiting? && s.workers[w].pool < |s.pools|
      && s.pools[s.workers[w].pool].canceled
    case StopClosed(w) =>
      && w < |s.workers| && s.workers[w].busy.Waiting? && s.workers[w].pool < |s.pools|
      && s.pools[s.workers[w].pool].forwarder.Exited?
    case NoticeCancel(p) => p < |s.pools| && s.pools[p].main.Running? && s.pools[p].canceled
    case Timeout(p) => p < |s.pools| && s.pools[p].main.Draining?
    case Return(p) => p < |s.pools| && !s.pools[p].main.Returned? && AllGone(s, p)
  }

  function WithProducer(s: State, i: nat, x: Producer): State
    requires i < |s.producers|
  {
    s.(producers := s.producers[i := x])
  }

  function WithCloser(s: State, k: nat, x: Closer): State
    requires k < |s.closers|
  {
    s.(closers := s.closers[k := x])
  }

  function WithPool(s: State, p: nat, x: Pool): State
    requires p < |s.pools|
  {
    s.(pools := s.pools[p := x])
  }

  function WithForwarder(s: State, p: nat, x: Forwarder): State
    requires p < |s.pools|
  {
    WithPool(s, p, s.pools[p].(forwarder := x))
  }

  function WithBusy(s: State, w: nat, x: Busy): State
    requires w < |s.workers|
  {
    s.(workers := s.workers[w := s.workers[w].(busy := x)])
  }

  function Apply(s: State, e: Event): State
    requires Enabled(s, e)
  {
    match e
    case Call(id) =>
      s.(producers := s.producers + [if id == "" then Refused(id) else Calling(id)])
    case LockRead(i) => WithProducer(s, i, Checking(s.producers[i].id))
    case Check(i) =>
      var id := s.producers[i].id;
      WithProducer(s, i, if s.closed then Refused(id) else Sending(id))
    case Send(i) =>
      var id := s.producers[i].id;
      if s.channelClosed then s.(panicked := true)
      else WithProducer(s, i, Accepted(id)).(channel := s.channel + [id], sent := s.sent + [id])
    case GiveUp(i) => WithProducer(s, i, Refused(s.producers[i].id))
    case CallClose => s.(closers := s.closers + [Arriving])
    case LockWrite(k) => WithCloser(s, k, Locked)
    case Flag(k) =>
      if s.closed then WithCloser(s, k, Left) else WithCloser(s, k, Flagged).(closed := true)
    case CloseChannel(k) =>
      if s.channelClosed then s.(panicked := true)
      else WithCloser(s, k, Left).(channelClosed := true)
    case Cancel(p) => WithPool(s, p, s.pools[p].(canceled := true))
    case Take(p) => WithForwarder(s, p, Offering(s.channel[0])).(channel := s.channel[1..])
    case SeeClosed(p) => WithForwarder(s, p, Exited(None))
    case SeeCanceled(p) => WithForwarder(s, p, Exited(None))
    case Drop(p) => WithForwarder(s, p, Exited(Some(s.pools[p].forwarder.id)))
    case Receive(w) =>
      var p := s.workers[w].pool;
      var id := s.pools[p].forwarder.id;
      WithBusy(WithForwarder(s, p, Taking), w, Handling(id)).(delivered := s.delivered + [id])
    case Finish(w) => WithBusy(s, w, Waiting).(handled := s.handled + [s.workers[w].busy.id])
    case StopCanceled(w) => WithBusy(s, w, Gone)
    case StopClosed(w) => WithBusy(s, w, Gone)
    case NoticeCancel(p) => WithPool(s, p, s.pools[p].(main := Draining))
    case Timeout(p) => WithPool(s, p, s.pools[p].(main := Abandoning, jobsCanceled := true))
    case Return(p) => WithPool(s, p, s.pools[p].(main := Returned(s.pools[p].main.Abandoning?)))
  }

  // Every pool runs at least one worker.
  ghost predicate Initial(s: State) {
    && s.capacity > 0 && s.channel == [] && !s.closed && !s.channelClosed && !s.panicked
    && s.producers == [] && s.closers == [] && s.sent == [] && s.delivered == [] && s.handled == []
    && (forall p :: 0 <= p < |s.pools| ==> s.pools[p] == Pool(Taking, Running, false, false))
    && (forall w :: 0 <= w < |s.workers| ==>
          s.workers[w].pool < |s.pools| && s.workers[w].busy == Waiting)
    && (forall p :: 0 <= p < |s.pools| ==> Staffed(s, p))
  }

  ghost predicate ValidRun(s: State, es: seq<Event>)
    decreases |es|
  {
    es == [] || (Enabled(s, es[0]) && ValidRun(Apply(s, es[0]), es[1..]))
  }

  ghost function Final(s: State, es: seq<Event>): State
    requires ValidRun(s, es)
    decreases |es|
  {
    if es == [] then s else Final(Apply(s, es[0]), es[1..])
  }

  // A run and one more event.
  lemma {:induction false} RunAppend(s: State, es: seq<Event>, e: Event)
    requires ValidRun(s, es) && Enabled(Final(s, es), e)
    ensures ValidRun(s, es + [e]) && Final(s, es + [e]) == Apply(Final(s, es), e)
    decreases |es|
  {
    if es == [] {
      assert ([e])[1..] == [];
    } else {
      assert (es + [e])[1..] == es[1..] + [e];
      RunAppend(Apply(s, es[0]), es[1..], e);
    }
  }

  // One run after another.
  lemma {:induction false} RunConcat(s: State, es: seq<Event>, fs: seq<Event>)
    requires ValidRun(s, es) && ValidRun(Final(s, es), fs)
    ensures ValidRun(s, es + fs) && Final(s, es + fs) == Final(Final(s, es), fs)
    decreases |es|
  {
    if es == [] {
      assert es + fs == fs;
    } else {
      assert (es + fs)[1..] == es[1..] + fs;
      RunConcat(Apply(s, es[0]), es[1..], fs);
    }
  }
}
