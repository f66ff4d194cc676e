/** The whole job pipeline as a machine of small steps: submitting requests,
    an at-least-once broker with a dead-letter queue, consumer processes with
    their receipt maps, and worker threads. Every port call is a step of its own
    and may fail, with or without having taken effect; any request or process
    may crash between two steps; visibility may expire at any time. */
module Pipeline {
  import opened Wrappers
  import opened Domain
  import opened Keys
  import opened Repository
  import opened Ports
  import opened Receipts
  import P = ProcessJob
  import C = CreateJob
  import W = WorkerPool

  datatype Place = Visible | InFlight | Deleted | DeadLettered

  // A message keeps the handle of its latest receive and counts its receives.
  datatype Msg = Msg(body: string, place: Place, receives: nat, handle: Handle)

  datatype Work =
    | Idle
    | Running(id: string, pc: P.Pc)
    | Settling(id: string, done: bool)
    | Calling(id: string, done: bool, handle: Handle)

  datatype Thread = Thread(proc: nat, work: Work)

  // One consumer process: the response its long poll is collecting, the
  // deliveries it has recorded but not handed to a worker, and its receipts.
  datatype Consumer = Consumer(response: seq<Message>, pending: seq<string>, receipts: map<string, Handle>)

  // A pool's counters.
  datatype Tally = Tally(processed: nat, failed: nat, skipped: nat)

  datatype State = State(
    data: Data,
    used: set<string>,        // identifiers handed out so far
    requests: seq<C.Pc>,
    msgs: seq<Msg>,
    handles: seq<nat>,        // the message each receipt handle was issued for
    consumers: seq<Consumer>,
    tallies: seq<Tally>,      // one for each consumer process
    threads: seq<Thread>,
    spent: seq<Handle>)       // the handles settle calls were made with, oldest first

  datatype Config = Config(processor: Processor, redrive: nat, batch: nat)

  datatype Event =
    | Submit(id: string, spec: Spec, source: Blob)
    | RequestStep(i: nat, call: Call)
    | RequestCrash(i: nat)
    | HandOut(p: nat, m: nat)
    | PollReturns(p: nat)
    | PollLost(p: nat)
    | Expire(m: nat)
    | Redrive(m: nat)
    | Pick(t: nat)
    | Step(t: nat, call: Call)
    | TakeReceipt(t: nat)
    | Settle(t: nat, call: Call, honoured: bool)
    | StopConsumer(p: nat)
    | Crash(p: nat)

  predicate Enabled(c: Config, s: State, e: Event) {
    match e
    case Submit(id, spec, source) => id != "" && id !in s.used && Usable(spec)
    case RequestStep(i, _) => i < |s.requests| && !C.Ended(s.requests[i])
    case RequestCrash(i) => i < |s.requests| && !C.Ended(s.requests[i])
    case HandOut(p, m) =>
      && p < |s.consumers| && m < |s.msgs|
      && s.msgs[m].place == Visible && s.msgs[m].receives < c.redrive
      && |s.consumers[p].response| < c.batch && s.consumers[p].pending == []
    case PollReturns(p) =>
      && p < |s.consumers| && s.consumers[p].response != [] && s.consumers[p].pending == []
    case PollLost(p) => p < |s.consumers| && s.consumers[p].response != []
    case Expire(m) => m < |s.msgs| && s.msgs[m].place == InFlight
    case Redrive(m) =>
      m < |s.msgs| && s.msgs[m].place == Visible && s.msgs[m].receives >= c.redrive
    case Pick(t) =>
      && t < |s.threads| && s.threads[t].work.Idle?
      && s.threads[t].proc < |s.consumers| && s.consumers[s.threads[t].proc].pending != []
    case Step(t, _) => t < |s.threads| && s.threads[t].work.Running? && !s.threads[t].work.pc.Returned?
    case TakeReceipt(t) =>
      t < |s.threads| && s.threads[t].work.Settling? && s.threads[t].proc < |s.consumers|
    case Settle(t, _, _) => t < |s.threads| && s.threads[t].work.Calling?
    case StopConsumer(p) => p < |s.consumers|
    case Crash(p) => p < |s.consumers|
  }

  function WithThread(s: State, t: nat, w: Work): State
    requires t < |s.threads|
  {
    s.(threads := s.threads[t := s.threads[t].(work := w)])
  }

  function WithConsumer(s: State, p: nat, k: Consumer): State
    requires p < |s.consumers|
  {
    s.(consumers := s.consumers[p := k])
  }

  function WithMsg(s: State, m: nat, msg: Msg): State
    requires m < |s.msgs|
  {
    s.(msgs := s.msgs[m := msg])
  }

  // What the pool does when an execution returns: settle a job that completed
  // or was not pending, and return any other message to the queue.
  function AfterStep(id: string, pc: P.Pc): Work {
    if pc.Returned? then Settling(id, !pc.verdict.Faulted?) else Running(id, pc)
  }

  function Plus(t: Tally, o: W.Outcome): Tally {
    match o
    case Processed => t.(processed := t.processed + 1)
    case Failed => t.(failed := t.failed + 1)
    case Skipped => t.(skipped := t.skipped + 1)
  }

  // The counters after a step: an execution that returned is counted by what
  // became of it.
  function Counted(tallies: seq<Tally>, p: nat, pc: P.Pc): seq<Tally> {
    if pc.Returned? && p < |tallies| then tallies[p := Plus(tallies[p], W.OutcomeOf(pc.verdict))]
    else tallies
  }

  // A process that starts again counts from zero.
  function Zeroed(tallies: seq<Tally>, p: nat): seq<Tally> {
    if p < |tallies| then tallies[p := Tally(0, 0, 0)] else tallies
  }

  function Published(bodies: seq<string>): seq<Msg> {
    seq(|bodies|, i requires 0 <= i < |bodies| => Msg(bodies[i], Visible, 0, 0))
  }

  // Deleting or returning a message through a receipt handle. A handle that is
  // no longer the latest may or may not be honoured.
  function Settled(s: State, h: Handle, done: bool, call: Call, honoured: bool): State {
    if !call.Effective() || h >= |s.handles| || s.handles[h] >= |s.msgs| then s
    else
      var m := s.handles[h];
      var msg := s.msgs[m];
      if msg.handle != h && !honoured then s
      else if done && (msg.place.Visible? || msg.place.InFlight?) then
        WithMsg(s, m, msg.(place := Deleted))
      else if !done && msg.place.InFlight? then
        WithMsg(s, m, msg.(place := Visible))
      else s
  }

  function Restarted(threads: seq<Thread>, p: nat): seq<Thread> {
    seq(|threads|, t requires 0 <= t < |threads| =>
      if threads[t].proc == p then threads[t].(work := Idle) else threads[t])
  }

  function Apply(c: Config, s: State, e: Event): State
    requires Enabled(c, s, e)
  {
    match e
    case Submit(id, spec, source) =>
      s.(used := s.used + {id}, requests := s.requests + [C.PutOriginal(id, spec, source)])
    case RequestStep(i, call) =>
      var (pc, data, sent) := C.Advance(s.requests[i], s.data, call);
      s.(requests := s.requests[i := pc], data := data, msgs := s.msgs + Published(sent))
    case RequestCrash(i) =>
      s.(requests := s.requests[i := C.Refused("crashed")])
    case HandOut(p, m) =>
      var h := |s.handles|;
      var msg := s.msgs[m];
      var k := s.consumers[p];
      s.(msgs := s.msgs[m := Msg(msg.body, InFlight, msg.receives + 1, h)],
         handles := s.handles + [m],
         consumers := s.consumers[p := k.(response := k.response + [Message(msg.body, h)])])
    case PollReturns(p) =>
      var k := s.consumers[p];
      WithConsumer(s, p, Consumer([], Bodies(k.response), Recorded(k.receipts, k.response)))
    case PollLost(p) =>
      WithConsumer(s, p, s.consumers[p].(response := []))
    case Expire(m) => WithMsg(s, m, s.msgs[m].(place := Visible))
    case Redrive(m) => WithMsg(s, m, s.msgs[m].(place := DeadLettered))
    case Pick(t) =>
      var p := s.threads[t].proc;
      var k := s.consumers[p];
      WithThread(WithConsumer(s, p, k.(pending := k.pending[1..])), t, Running(k.pending[0], P.Load))
    case Step(t, call) =>
      var w := s.threads[t].work;
      var (pc, data) := P.Advance(c.processor, w.id, w.pc, s.data, call);
      WithThread(s.(data := data, tallies := Counted(s.tallies, s.threads[t].proc, pc)), t,
                 AfterStep(w.id, pc))
    case TakeReceipt(t) =>
      var w := s.threads[t].work;
      var p := s.threads[t].proc;
      var k := s.consumers[p];
      if w.id in k.receipts then
        WithThread(WithConsumer(s, p, k.(receipts := k.receipts - {w.id})), t,
                   Calling(w.id, w.done, k.receipts[w.id]))
      else WithThread(s, t, Idle)
    case Settle(t, call, honoured) =>
      var w := s.threads[t].work;
      WithThread(Settled(s, w.handle, w.done, call, honoured), t, Idle).(spent := s.spent + [w.handle])
    case StopConsumer(p) =>
      WithConsumer(s, p, s.consumers[p].(response := [], pending := []))
    case Crash(p) =>
      WithConsumer(s, p, Consumer([], [], map[]))
        .(threads := Restarted(s.threads, p), tallies := Zeroed(s.tallies, p))
  }

  /** The state before the first request, for any number of processes and
      threads. */
  predicate Initial(s: State) {
    && s.data == Data(map[], map[]) && s.used == {} && s.requests == []
    && s.msgs == [] && s.handles == [] && s.spent == []
    && |s.tallies| == |s.consumers|
    && (forall p :: 0 <= p < |s.tallies| ==> s.tallies[p] == Tally(0, 0, 0))
    && (forall p :: 0 <= p < |s.consumers| ==> s.consumers[p] == Consumer([], [], map[]))
    && (forall t :: 0 <= t < |s.threads| ==>
          s.threads[t].proc < |s.consumers| && s.threads[t].work == Idle)
  }

  /** Every interleaving: a sequence of events each enabled when it happens. */
  ghost predicate ValidRun(c: Config, s: State, es: seq<Event>)
    decreases |es|
  {
    es == [] || (Enabled(c, s, es[0]) && ValidRun(c, Apply(c, s, es[0]), es[1..]))
  }

  ghost function Final(c: Config, s: State, es: seq<Event>): State
    requires ValidRun(c, s, es)
    decreases |es|
  {
    if es == [] then s else Final(c, Apply(c, s, es[0]), es[1..])
  }
}
