/** Progress without broker or repository faults. Images and object storage may
    still fail in any way; calls on the queue and the repository succeed, no
    process crashes and no visibility expires. Then every message is in exactly
    one pair of hands, is received at most twice, and the work runs out with
    every accepted job done or failed. */
module PipelineProgress {
  import opened Wrappers
  import opened Domain
  import opened Keys
  import opened Repository
  import opened Ports
  import opened Receipts
  import opened Sums
  import opened Pipeline
  import opened PipelineSafety
  import opened PipelineLifecycle
  import P = ProcessJob
  import C = CreateJob

  predicate CalmEvent(s: State, e: Event) {
    match e
    case Submit(_, _, _) => true
    case RequestStep(i, call) => i < |s.requests| && (s.requests[i].PutOriginal? || call.Ok?)
    case HandOut(_, _) => true
    case PollReturns(_) => true
    case Redrive(_) => true
    case Pick(_) => true
    case Step(t, call) =>
      && t < |s.threads| && s.threads[t].work.Running?
      && var pc := s.threads[t].work.pc;
      (pc.Read? || pc.Transform? || pc.StoreResult? || call.Ok?)
    case TakeReceipt(_) => true
    case Settle(_, call, _) => call.Ok?
    case _ => false
  }

  // -------------------------------------------------- who holds a delivery

  predicate WorksOn(t: Thread, id: string) {
    !t.work.Idle? && t.work.id == id
  }

  function Busy(id: string): Thread -> nat {
    (t: Thread) => if WorksOn(t, id) then 1 else 0
  }

  function Names(id: string): Message -> nat {
    (m: Message) => if m.body == id then 1 else 0
  }

  function Is(id: string): string -> nat {
    (s: string) => if s == id then 1 else 0
  }

  function Held(k: Consumer, id: string): nat {
    Total(k.response, Names(id)) + Total(k.pending, Is(id))
  }

  function Holds(id: string): Consumer -> nat {
    (k: Consumer) => Held(k, id)
  }

  function Flies(id: string): Msg -> nat {
    (m: Msg) => if m.place == InFlight && m.body == id then 1 else 0
  }

  // How many deliveries of a job the processes have in hand, and how many
  // messages for it are in flight.
  function InHand(s: State, id: string): nat {
    Total(s.threads, Busy(id)) + Total(s.consumers, Holds(id))
  }

  function Flying(s: State, id: string): nat {
    Total(s.msgs, Flies(id))
  }

  /** Conservation: the messages in flight are exactly the deliveries in hand. */
  ghost predicate Conserved(s: State) {
    forall id :: id != "" ==> InHand(s, id) == Flying(s, id)
  }

  predicate DistinctBodies(msgs: seq<Msg>) {
    forall m, n :: 0 <= m < n < |msgs| ==> msgs[m].body != msgs[n].body
  }

  lemma {:induction false} FlyingOnce(msgs: seq<Msg>, id: string)
    requires DistinctBodies(msgs)
    ensures Total(msgs, Flies(id)) <= 1
    ensures (forall m :: 0 <= m < |msgs| ==> msgs[m].body != id || msgs[m].place != InFlight) ==>
              Total(msgs, Flies(id)) == 0
  {
    if msgs != [] {
      FlyingOnce(msgs[..|msgs| - 1], id);
      if msgs[|msgs| - 1].body == id {
        TotalNone(msgs[..|msgs| - 1], Flies(id));
      }
    }
  }

  // No other thread or consumer has what a thread is working on.
  lemma ThreadAlone(s: State, t: nat, id: string)
    requires Conserved(s) && DistinctBodies(s.msgs) && id != ""
    requires t < |s.threads| && WorksOn(s.threads[t], id)
    ensures forall u :: 0 <= u < |s.threads| && u != t ==> !WorksOn(s.threads[u], id)
    ensures forall p :: 0 <= p < |s.consumers| ==> Held(s.consumers[p], id) == 0
  {
    FlyingOnce(s.msgs, id);
    assert InHand(s, id) <= 1;
    TotalOne(s.threads, t, Busy(id));
    forall u | 0 <= u < |s.threads| && u != t ensures !WorksOn(s.threads[u], id) {
      if u < t {
        TotalTwo(s.threads, u, t, Busy(id));
      } else {
        TotalTwo(s.threads, t, u, Busy(id));
      }
    }
    forall p | 0 <= p < |s.consumers| ensures Held(s.consumers[p], id) == 0 {
      TotalOne(s.consumers, p, Holds(id));
    }
  }

  // No thread and no other consumer has what a consumer holds, and it holds it
  // once.
  lemma ConsumerAlone(s: State, p: nat, id: string)
    requires Conserved(s) && DistinctBodies(s.msgs) && id != ""
    requires p < |s.consumers| && Held(s.consumers[p], id) > 0
    ensures Held(s.consumers[p], id) == 1
    ensures forall t :: 0 <= t < |s.threads| ==> !WorksOn(s.threads[t], id)
    ensures forall q :: 0 <= q < |s.consumers| && q != p ==> Held(s.consumers[q], id) == 0
  {
    FlyingOnce(s.msgs, id);
    assert InHand(s, id) <= 1;
    TotalOne(s.consumers, p, Holds(id));
    forall q | 0 <= q < |s.consumers| && q != p ensures Held(s.consumers[q], id) == 0 {
      if q < p {
        TotalTwo(s.consumers, q, p, Holds(id));
      } else {
        TotalTwo(s.consumers, p, q, Holds(id));
      }
    }
    forall t | 0 <= t < |s.threads| ensures !WorksOn(s.threads[t], id) {
      TotalOne(s.threads, t, Busy(id));
    }
  }

  predicate Unheld(s: State, id: string) {
    && (forall t :: 0 <= t < |s.threads| ==> !WorksOn(s.threads[t], id))
    && (forall p :: 0 <= p < |s.consumers| ==> Held(s.consumers[p], id) == 0)
  }

  // A job with no message in flight is in nobody's hands.
  lemma NobodyHolds(s: State, id: string)
    requires Conserved(s) && DistinctBodies(s.msgs) && id != ""
    requires forall m :: 0 <= m < |s.msgs| && s.msgs[m].body == id ==> s.msgs[m].place != InFlight
    ensures Unheld(s, id)
  {
    FlyingOnce(s.msgs, id);
    assert InHand(s, id) == 0;
    forall t | 0 <= t < |s.threads| ensures !WorksOn(s.threads[t], id) {
      TotalOne(s.threads, t, Busy(id));
    }
    forall p | 0 <= p < |s.consumers| ensures Held(s.consumers[p], id) == 0 {
      TotalOne(s.consumers, p, Holds(id));
    }
  }

  // ----------------------------------------------- conservation, by event

  lemma HandOutConserved(c: Config, s: State, p: nat, m: nat)
    requires Conserved(s) && Enabled(c, s, HandOut(p, m))
    ensures Conserved(Apply(c, s, HandOut(p, m)))
  {
    var s' := Apply(c, s, HandOut(p, m));
    var k, k' := s.consumers[p], s'.consumers[p];
    var x := Message(s.msgs[m].body, |s.handles|);
    forall id | id != "" ensures InHand(s', id) == Flying(s', id) {
      TotalUpdate(s.msgs, m, s'.msgs[m], Flies(id));
      TotalUpdate(s.consumers, p, k', Holds(id));
      TotalAppend(k.response, x, Names(id));
      assert InHand(s, id) == Flying(s, id);
    }
  }

  lemma {:induction false} BodiesTotal(ms: seq<Message>, id: string)
    requires id != ""
    ensures Total(Bodies(ms), Is(id)) == Total(ms, Names(id))
  {
    if ms != [] {
      var init := ms[..|ms| - 1];
      BodiesTotal(init, id);
      if ms[|ms| - 1].body != "" {
        TotalAppend(Bodies(init), ms[|ms| - 1].body, Is(id));
      }
    }
  }

  lemma PollReturnsConserved(c: Config, s: State, p: nat)
    requires Conserved(s) && Enabled(c, s, PollReturns(p))
    ensures Conserved(Apply(c, s, PollReturns(p)))
  {
    var s' := Apply(c, s, PollReturns(p));
    var k, k' := s.consumers[p], s'.consumers[p];
    forall id | id != "" ensures InHand(s', id) == Flying(s', id) {
      TotalUpdate(s.consumers, p, k', Holds(id));
      BodiesTotal(k.response, id);
      assert InHand(s, id) == Flying(s, id);
    }
  }

  lemma PickConserved(c: Config, s: State, t: nat)
    requires Conserved(s) && Enabled(c, s, Pick(t))
    ensures Conserved(Apply(c, s, Pick(t)))
  {
    var s' := Apply(c, s, Pick(t));
    var p := s.threads[t].proc;
    var k, k' := s.consumers[p], s'.consumers[p];
    forall id | id != "" ensures InHand(s', id) == Flying(s', id) {
      TotalUpdate(s.threads, t, s'.threads[t], Busy(id));
      TotalUpdate(s.consumers, p, k', Holds(id));
      TotalTail(k.pending, Is(id));
      assert InHand(s, id) == Flying(s, id);
    }
  }

  // A thread that keeps its job, and a consumer that keeps its deliveries.
  lemma HandsKeptConserved(s: State, s': State, t: nat)
    requires Conserved(s) && t < |s.threads| == |s'.threads| && s'.msgs == s.msgs
    requires s'.threads == s.threads[t := s'.threads[t]]
    requires forall id :: WorksOn(s'.threads[t], id) == WorksOn(s.threads[t], id)
    requires |s'.consumers| == |s.consumers|
    requires s'.consumers == s.consumers || (
               var p := s.threads[t].proc;
               && p < |s.consumers| && s'.consumers == s.consumers[p := s'.consumers[p]]
               && s'.consumers[p].response == s.consumers[p].response
               && s'.consumers[p].pending == s.consumers[p].pending)
    ensures Conserved(s')
  {
    var p := s.threads[t].proc;
    forall id | id != "" ensures InHand(s', id) == Flying(s', id) {
      TotalUpdate(s.threads, t, s'.threads[t], Busy(id));
      if s'.consumers != s.consumers {
        TotalUpdate(s.consumers, p, s'.consumers[p], Holds(id));
      }
      assert InHand(s, id) == Flying(s, id);
    }
  }

  lemma SettleConserved(c: Config, s: State, e: Event)
    requires Conserved(s) && Enabled(c, s, e) && e.Settle? && e.call.Ok?
    requires Live(s, s.threads[e.t].work.handle, s.threads[e.t].work.id)
    ensures Conserved(Apply(c, s, e))
  {
    var s' := Apply(c, s, e);
    var w := s.threads[e.t].work;
    var m := s.handles[w.handle];
    forall id | id != "" ensures InHand(s', id) == Flying(s', id) {
      TotalUpdate(s.threads, e.t, s'.threads[e.t], Busy(id));
      TotalUpdate(s.msgs, m, s'.msgs[m], Flies(id));
      assert InHand(s, id) == Flying(s, id);
    }
  }

  lemma RequestConserved(c: Config, s: State, i: nat, call: Call)
    requires Conserved(s) && Enabled(c, s, RequestStep(i, call))
    ensures Conserved(Apply(c, s, RequestStep(i, call)))
  {
    var s' := Apply(c, s, RequestStep(i, call));
    var sent := C.Advance(s.requests[i], s.data, call).2;
    if sent != [] {
      var x := Msg(sent[0], Visible, 0, 0);
      assert Published(sent) == [x];
      forall id | id != "" ensures InHand(s', id) == Flying(s', id) {
        TotalAppend(s.msgs, x, Flies(id));
        assert InHand(s, id) == Flying(s, id);
      }
    } else {
      assert s'.msgs == s.msgs;
      assert forall id :: id != "" ==> InHand(s', id) == InHand(s, id) && Flying(s', id) == Flying(s, id);
    }
  }

  // ----------------------------------------------------- the calm invariant

  predicate TerminalJob(d: Data, id: string) {
    id in d.jobs && Terminal(d.jobs[id].status)
  }

  predicate PendingJob(d: Data, id: string) {
    id in d.jobs && d.jobs[id].status == Pending
  }

  // A handle through which its message can be settled.
  predicate Live(s: State, h: Handle, id: string) {
    && HandleFor(s, h, id)
    && var msg := s.msgs[s.handles[h]];
    msg.place == InFlight && msg.handle == h && 1 <= msg.receives <= 2
  }

  predicate FirstReceive(s: State, h: Handle, id: string) {
    Live(s, h, id) && s.msgs[s.handles[h]].receives == 1
  }

  // A delivery nobody has looked at yet: on its first receive the job is
  // pending, on its second its outcome is already recorded.
  predicate Fresh(s: State, h: Handle, id: string) {
    && Live(s, h, id)
    && (if s.msgs[s.handles[h]].receives == 1 then PendingJob(s.data, id) else TerminalJob(s.data, id))
  }

  predicate MsgCalm(d: Data, msg: Msg) {
    && msg.receives <= 2 && msg.body != ""
    && (match msg.place
        case Visible =>
          && msg.receives <= 1
          && (if msg.receives == 0 then PendingJob(d, msg.body) else TerminalJob(d, msg.body))
        case InFlight => true
        case Deleted => TerminalJob(d, msg.body)
        case DeadLettered => false)
  }

  predicate WorkCalm(s: State, k: Consumer, w: Work) {
    match w
    case Idle => true
    case Running(id, pc) =>
      && !pc.Returned? && id in k.receipts
      && (if pc.Load? then Fresh(s, k.receipts[id], id) else FirstReceive(s, k.receipts[id], id))
    case Settling(id, done) =>
      && id in k.receipts && TerminalJob(s.data, id)
      && (if done then Live(s, k.receipts[id], id) else FirstReceive(s, k.receipts[id], id))
    case Calling(id, done, h) =>
      && TerminalJob(s.data, id)
      && (if done then Live(s, h, id) else FirstReceive(s, h, id))
  }

  predicate ConsumerCalm(s: State, k: Consumer) {
    && (forall i :: 0 <= i < |k.response| ==>
          k.response[i].body != "" && Fresh(s, k.response[i].handle, k.response[i].body))
    && (forall i :: 0 <= i < |k.pending| ==>
          k.pending[i] in k.receipts && Fresh(s, k.receipts[k.pending[i]], k.pending[i]))
  }

  ghost predicate PartsCalm(s: State) {
    && (forall m :: 0 <= m < |s.msgs| ==> MsgCalm(s.data, s.msgs[m]))
    && (forall p :: 0 <= p < |s.consumers| ==> ConsumerCalm(s, s.consumers[p]))
    && (forall t :: 0 <= t < |s.threads| ==>
          s.threads[t].proc < |s.consumers| &&
          WorkCalm(s, s.consumers[s.threads[t].proc], s.threads[t].work))
  }

  ghost predicate CalmInv(s: State) {
    && CleanInv(s)
    && Conserved(s)
    && DistinctBodies(s.msgs)
    && (forall i :: 0 <= i < |s.requests| ==> !s.requests[i].MarkFailed?)
    && PartsCalm(s)
  }

  // A worker's job has a name.
  lemma WorkNamed(s: State, t: nat)
    requires PartsCalm(s) && t < |s.threads| && !s.threads[t].work.Idle?
    ensures s.threads[t].work.id != ""
  {
    assert WorkCalm(s, s.consumers[s.threads[t].proc], s.threads[t].work);
  }

  /** One pair of hands for each message means executions never overlap. */
  lemma CalmNoOverlap(s: State)
    requires CalmInv(s)
    ensures NoOverlap(s)
  {
    forall t, u | 0 <= t < u < |s.threads| && s.threads[t].work.Running? && s.threads[u].work.Running?
      ensures s.threads[t].work.id != s.threads[u].work.id
    {
      WorkNamed(s, t);
      ThreadAlone(s, t, s.threads[t].work.id);
    }
  }

  // ----------------------------------------- changes confined to one job

  predicate Elsewhere(s: State, s': State, id: string) {
    && s.handles <= s'.handles && |s.msgs| <= |s'.msgs|
    && (forall m :: 0 <= m < |s.msgs| ==>
          s'.msgs[m].body == s.msgs[m].body && (s.msgs[m].body != id ==> s'.msgs[m] == s.msgs[m]))
    && (forall other :: other in s.data.jobs && other != id ==>
          other in s'.data.jobs && s'.data.jobs[other] == s.data.jobs[other])
  }

  lemma LiveKept(s: State, s': State, id: string, h: Handle, other: string)
    requires Elsewhere(s, s', id) && other != id && Live(s, h, other)
    ensures Live(s', h, other) && s'.handles[h] == s.handles[h]
    ensures s'.msgs[s'.handles[h]] == s.msgs[s.handles[h]]
  {
    assert s'.handles[h] == s.handles[h];
  }

  lemma WorkCalmKept(s: State, s': State, id: string, k: Consumer, k': Consumer, t: Thread)
    requires WorkCalm(s, k, t.work) && Elsewhere(s, s', id) && !WorksOn(t, id)
    requires forall other :: other in k.receipts && other != id ==>
               other in k'.receipts && k'.receipts[other] == k.receipts[other]
    ensures WorkCalm(s', k', t.work)
  {
    match t.work
    case Idle =>
    case Running(other, _) => LiveKept(s, s', id, k.receipts[other], other);
    case Settling(other, _) => LiveKept(s, s', id, k.receipts[other], other);
    case Calling(other, _, h) => LiveKept(s, s', id, h, other);
  }

  lemma ConsumerCalmKept(s: State, s': State, id: string, k: Consumer, k': Consumer)
    requires ConsumerCalm(s, k) && Elsewhere(s, s', id)
    requires k'.response == k.response && k'.pending == k.pending
    requires Held(k, id) == 0
    requires forall other :: other in k.receipts && other != id ==>
               other in k'.receipts && k'.receipts[other] == k.receipts[other]
    ensures ConsumerCalm(s', k')
  {
    forall i | 0 <= i < |k.response| ensures Fresh(s', k.response[i].handle, k.response[i].body) {
      TotalOne(k.response, i, Names(id));
      LiveKept(s, s', id, k.response[i].handle, k.response[i].body);
    }
    forall i | 0 <= i < |k.pending|
      ensures k.pending[i] in k'.receipts && Fresh(s', k'.receipts[k.pending[i]], k.pending[i])
    {
      TotalOne(k.pending, i, Is(id));
      LiveKept(s, s', id, k.receipts[k.pending[i]], k.pending[i]);
    }
  }

  lemma ConfinedCalm(s: State, s': State, id: string, t: int, p: int)
    requires PartsCalm(s) && Elsewhere(s, s', id)
    requires |s'.threads| == |s.threads| && |s'.consumers| == |s.consumers|
    requires forall u :: 0 <= u < |s.threads| ==> s'.threads[u].proc == s.threads[u].proc
    requires forall u :: 0 <= u < |s.threads| && u != t ==>
               s'.threads[u] == s.threads[u] && !WorksOn(s.threads[u], id)
    requires forall q :: 0 <= q < |s.consumers| && q != p ==>
               s'.consumers[q].response == s.consumers[q].response &&
               s'.consumers[q].pending == s.consumers[q].pending && Held(s.consumers[q], id) == 0
    requires forall q, other :: 0 <= q < |s.consumers| && other in s.consumers[q].receipts && other != id ==>
               other in s'.consumers[q].receipts &&
               s'.consumers[q].receipts[other] == s.consumers[q].receipts[other]
    requires 0 <= t < |s.threads| ==>
               WorkCalm(s', s'.consumers[s.threads[t].proc], s'.threads[t].work)
    requires 0 <= p < |s.consumers| ==> ConsumerCalm(s', s'.consumers[p])
    requires forall m :: 0 <= m < |s'.msgs| && (m < |s.msgs| ==> s.msgs[m].body == id) ==>
               MsgCalm(s'.data, s'.msgs[m])
    ensures PartsCalm(s')
  {
    forall m | 0 <= m < |s'.msgs| ensures MsgCalm(s'.data, s'.msgs[m]) {
      if m < |s.msgs| && s.msgs[m].body != id {
        assert MsgCalm(s.data, s.msgs[m]);
      }
    }
    forall q | 0 <= q < |s.consumers| ensures ConsumerCalm(s', s'.consumers[q]) {
      if q != p {
        ConsumerCalmKept(s, s', id, s.consumers[q], s'.consumers[q]);
      }
    }
    forall u | 0 <= u < |s.threads|
      ensures WorkCalm(s', s'.consumers[s.threads[u].proc], s'.threads[u].work)
    {
      if u != t {
        WorkCalmKept(s, s', id, s.consumers[s.threads[u].proc], s'.consumers[s.threads[u].proc], s.threads[u]);
      }
    }
  }

  // ---------------------------------------------------- the parts, by event

  lemma SubmitParts(c: Config, s: State, e: Event)
    requires PartsCalm(s) && Enabled(c, s, e) && e.Submit?
    ensures PartsCalm(Apply(c, s, e))
  {
    var s' := Apply(c, s, e);
    assert forall p :: 0 <= p < |s.consumers| && ConsumerCalm(s, s.consumers[p]) ==> ConsumerCalm(s', s.consumers[p]);
    assert forall t :: 0 <= t < |s.threads| ==>
        WorkCalm(s, s.consumers[s.threads[t].proc], s.threads[t].work);
  }

  lemma RequestParts(c: Config, s: State, i: nat, call: Call)
    requires PartsCalm(s) && Enabled(c, s, RequestStep(i, call))
    requires var pc := s.requests[i];
             && RequestId(pc) != "" && !HasMessage(s, RequestId(pc)) && Unheld(s, RequestId(pc))
             && !pc.MarkFailed?
             && (pc.Enqueue? ==> PendingJob(s.data, RequestId(pc)))
    ensures PartsCalm(Apply(c, s, RequestStep(i, call)))
  {
    var s' := Apply(c, s, RequestStep(i, call));
    var id := RequestId(s.requests[i]);
    assert forall m :: 0 <= m < |s.msgs| ==> s.msgs[m].body != id;
    ConfinedCalm(s, s', id, -1, -1);
  }

  lemma HandOutParts(c: Config, s: State, p: nat, m: nat)
    requires PartsCalm(s) && DistinctBodies(s.msgs) && Enabled(c, s, HandOut(p, m))
    requires Unheld(s, s.msgs[m].body)
    ensures PartsCalm(Apply(c, s, HandOut(p, m)))
  {
    var s' := Apply(c, s, HandOut(p, m));
    var id := s.msgs[m].body;
    var k := s.consumers[p];
    assert MsgCalm(s.data, s.msgs[m]) && ConsumerCalm(s, k);
    ConsumerCalmKept(s, s', id, k, k);
    assert Fresh(s', |s.handles|, id);
    assert ConsumerCalm(s', s'.consumers[p]);
    ConfinedCalm(s, s', id, -1, p);
  }

  // A consumer that has handed its first delivery to a worker.
  lemma PickedCalm(s: State, s': State, k: Consumer)
    requires ConsumerCalm(s, k) && k.pending != []
    requires s'.data == s.data && s'.msgs == s.msgs && s'.handles == s.handles
    ensures ConsumerCalm(s', k.(pending := k.pending[1..]))
    ensures k.pending[0] in k.receipts && Fresh(s', k.receipts[k.pending[0]], k.pending[0])
  {
    var rest := k.pending[1..];
    forall i | 0 <= i < |rest| ensures rest[i] in k.receipts && Fresh(s', k.receipts[rest[i]], rest[i]) {
      assert rest[i] == k.pending[i + 1];
    }
    forall i | 0 <= i < |k.response|
      ensures k.response[i].body != "" && Fresh(s', k.response[i].handle, k.response[i].body)
    {
      assert Fresh(s, k.response[i].handle, k.response[i].body);
    }
  }

  lemma PickParts(c: Config, s: State, t: nat)
    requires PartsCalm(s) && Conserved(s) && DistinctBodies(s.msgs) && Enabled(c, s, Pick(t))
    ensures PartsCalm(Apply(c, s, Pick(t)))
  {
    var s' := Apply(c, s, Pick(t));
    var p := s.threads[t].proc;
    var k := s.consumers[p];
    var id := k.pending[0];
    PickedCalm(s, s', k);
    TotalOne(k.pending, 0, Is(id));
    assert MsgCalm(s.data, s.msgs[s.handles[k.receipts[id]]]);
    ConsumerAlone(s, p, id);
    ConfinedCalm(s, s', id, t, p);
  }

  // What a calm step of the use case does to the delivery it works on.
  lemma StepWork(c: Config, s: State, t: nat, call: Call)
    requires Enabled(c, s, Step(t, call)) && CalmEvent(s, Step(t, call))
    requires s.threads[t].proc < |s.consumers|
    requires var w := s.threads[t].work;
             && WorkCalm(s, s.consumers[s.threads[t].proc], w)
             && PcOk(c.processor, s.data, w.id, w.pc) && StatusAt(s.data, w.id, w.pc)
             && w.id in s.data.jobs && KnownStatus(s.data.jobs[w.id].status)
    ensures var s' := Apply(c, s, Step(t, call));
            WorkCalm(s', s'.consumers[s.threads[t].proc], s'.threads[t].work)
  {
    var s' := Apply(c, s, Step(t, call));
    var w := s.threads[t].work;
    var h := s.consumers[s.threads[t].proc].receipts[w.id];
    assert Live(s, h, w.id) && Live(s', h, w.id);
  }

  // An event of one thread: its delivery is in nobody else's hands, so all that
  // has to be seen to are the thread itself and its message.
  lemma ThreadParts(s: State, s': State, t: nat, mine: nat)
    requires PartsCalm(s) && Conserved(s) && DistinctBodies(s.msgs)
    requires t < |s.threads| && !s.threads[t].work.Idle?
    requires Elsewhere(s, s', s.threads[t].work.id) && |s'.msgs| == |s.msgs|
    requires |s'.threads| == |s.threads| && s'.threads[t].proc == s.threads[t].proc
    requires forall u :: 0 <= u < |s.threads| && u != t ==> s'.threads[u] == s.threads[u]
    requires |s'.consumers| == |s.consumers|
    requires forall q :: 0 <= q < |s.consumers| ==>
               KeepsReceipts(s.consumers[q], s'.consumers[q], s.threads[t].work.id)
    requires WorkCalm(s', s'.consumers[s.threads[t].proc], s'.threads[t].work)
    requires mine < |s.msgs| && s.msgs[mine].body == s.threads[t].work.id
    requires MsgCalm(s'.data, s'.msgs[mine])
    ensures PartsCalm(s')
  {
    WorkNamed(s, t);
    ThreadAlone(s, t, s.threads[t].work.id);
    ConfinedCalm(s, s', s.threads[t].work.id, t, -1);
  }

  predicate KeepsReceipts(k: Consumer, k': Consumer, id: string) {
    && k'.response == k.response && k'.pending == k.pending
    && (forall other :: other in k.receipts && other != id ==>
          other in k'.receipts && k'.receipts[other] == k.receipts[other])
  }

  lemma StepParts(c: Config, s: State, t: nat, call: Call)
    requires PartsCalm(s) && Conserved(s) && DistinctBodies(s.msgs)
    requires Enabled(c, s, Step(t, call)) && CalmEvent(s, Step(t, call))
    requires var w := s.threads[t].work;
             && PcOk(c.processor, s.data, w.id, w.pc) && StatusAt(s.data, w.id, w.pc)
             && w.id in s.data.jobs && KnownStatus(s.data.jobs[w.id].status)
    ensures PartsCalm(Apply(c, s, Step(t, call)))
  {
    var s' := Apply(c, s, Step(t, call));
    var w := s.threads[t].work;
    var mine := s.handles[s.consumers[s.threads[t].proc].receipts[w.id]];
    AdvanceStatus(c.processor, s.data, w.id, w.pc, call);
    StepWork(c, s, t, call);
    assert WorkCalm(s, s.consumers[s.threads[t].proc], w) && MsgCalm(s.data, s.msgs[mine]);
    ThreadParts(s, s', t, mine);
  }

  lemma TakeReceiptParts(c: Config, s: State, t: nat)
    requires PartsCalm(s) && Conserved(s) && DistinctBodies(s.msgs) && Enabled(c, s, TakeReceipt(t))
    ensures PartsCalm(Apply(c, s, TakeReceipt(t)))
    ensures Apply(c, s, TakeReceipt(t)).threads[t].work.Calling?
  {
    var w := s.threads[t].work;
    assert WorkCalm(s, s.consumers[s.threads[t].proc], w);
    var mine := s.handles[s.consumers[s.threads[t].proc].receipts[w.id]];
    assert MsgCalm(s.data, s.msgs[mine]);
    ThreadParts(s, Apply(c, s, TakeReceipt(t)), t, mine);
  }

  lemma SettleParts(c: Config, s: State, e: Event)
    requires PartsCalm(s) && Conserved(s) && DistinctBodies(s.msgs)
    requires Enabled(c, s, e) && e.Settle? && e.call.Ok?
    ensures PartsCalm(Apply(c, s, e))
  {
    var w := s.threads[e.t].work;
    assert WorkCalm(s, s.consumers[s.threads[e.t].proc], w);
    var mine := s.handles[w.handle];
    assert MsgCalm(s.data, s.msgs[mine]);
    ThreadParts(s, Apply(c, s, e), e.t, mine);
  }

  // The receipts after one response: each of its bodies now has the handle it
  // came with, and every other receipt is unchanged.
  lemma {:induction false} RecordedFresh(s: State, receipts: map<string, Handle>, ms: seq<Message>)
    requires forall i :: 0 <= i < |ms| ==> ms[i].body != "" && Fresh(s, ms[i].handle, ms[i].body)
    ensures forall i :: 0 <= i < |Bodies(ms)| ==>
              Bodies(ms)[i] in Recorded(receipts, ms) &&
              Fresh(s, Recorded(receipts, ms)[Bodies(ms)[i]], Bodies(ms)[i])
    ensures forall id :: Total(ms, Names(id)) == 0 && id in receipts ==>
              id in Recorded(receipts, ms) && Recorded(receipts, ms)[id] == receipts[id]
  {
    if ms != [] {
      RecordedFresh(s, receipts, ms[..|ms| - 1]);
    }
  }

  lemma PollReturnsParts(c: Config, s: State, p: nat)
    requires PartsCalm(s) && Conserved(s) && DistinctBodies(s.msgs) && Enabled(c, s, PollReturns(p))
    ensures PartsCalm(Apply(c, s, PollReturns(p)))
  {
    var s' := Apply(c, s, PollReturns(p));
    var k := s.consumers[p];
    assert ConsumerCalm(s, k);
    RecordedFresh(s, k.receipts, k.response);
    forall q | 0 <= q < |s.consumers| ensures ConsumerCalm(s', s'.consumers[q]) {
      assert ConsumerCalm(s, s.consumers[q]);
      if q == p {
        forall i | 0 <= i < |s'.consumers[p].pending|
          ensures s'.consumers[p].pending[i] in s'.consumers[p].receipts
          ensures Fresh(s', s'.consumers[p].receipts[s'.consumers[p].pending[i]], s'.consumers[p].pending[i])
        {
          assert Fresh(s, s'.consumers[p].receipts[s'.consumers[p].pending[i]], s'.consumers[p].pending[i]);
        }
      } else {
        SameConsumer(s, s', s.consumers[q]);
      }
    }
    forall t | 0 <= t < |s.threads|
      ensures WorkCalm(s', s'.consumers[s.threads[t].proc], s'.threads[t].work)
    {
      var w := s.threads[t].work;
      assert WorkCalm(s, s.consumers[s.threads[t].proc], w);
      if s.threads[t].proc == p && !w.Idle? {
        WorkNamed(s, t);
        ThreadAlone(s, t, w.id);
        assert Total(k.response, Names(w.id)) == 0;
      }
    }
  }

  lemma SameConsumer(s: State, s': State, k: Consumer)
    requires ConsumerCalm(s, k) && s'.msgs == s.msgs && s'.handles == s.handles && s'.data == s.data
    ensures ConsumerCalm(s', k)
  {
    forall i | 0 <= i < |k.response| ensures Fresh(s', k.response[i].handle, k.response[i].body) {
      assert Fresh(s, k.response[i].handle, k.response[i].body);
    }
    forall i | 0 <= i < |k.pending|
      ensures k.pending[i] in k.receipts && Fresh(s', k.receipts[k.pending[i]], k.pending[i])
    {
      assert Fresh(s, k.receipts[k.pending[i]], k.pending[i]);
    }
  }

  // ----------------------------------------------------------- whole events

  lemma CalmEventIsClean(c: Config, s: State, e: Event)
    requires Enabled(c, s, e) && CalmEvent(s, e)
    ensures CleanEvent(s, e)
  {
  }

  lemma CalmKeepsClean(c: Config, s: State, e: Event)
    requires Inv(c, s) && CleanInv(s) && NoOverlap(s) && Enabled(c, s, e) && CalmEvent(s, e)
    ensures var s' := Apply(c, s, e); Inv(c, s') && CleanInv(s')
  {
    CalmEventIsClean(c, s, e);
    EventKeepsInv(c, s, e);
    EventInOrder(c, s, e);
  }

  // The job of a request under way has a name and no message.
  lemma RequestNamed(c: Config, s: State, i: nat)
    requires Inv(c, s) && CalmInv(s) && i < |s.requests| && !C.Ended(s.requests[i])
    ensures var pc := s.requests[i];
            && RequestId(pc) != "" && !HasMessage(s, RequestId(pc)) && !pc.MarkFailed?
            && (pc.Enqueue? ==> PendingJob(s.data, RequestId(pc)))
  {
    var pc := s.requests[i];
    RequestHasNoMessage(c, s, i);
    if pc.Enqueue? {
      assert JobOk(s.data, RequestId(pc));
    }
  }

  // A request publishes only while no message for its job exists.
  lemma RequestCalm(c: Config, s: State, i: nat, call: Call)
    requires Inv(c, s) && CalmInv(s)
    requires Enabled(c, s, RequestStep(i, call)) && CalmEvent(s, RequestStep(i, call))
    ensures var s' := Apply(c, s, RequestStep(i, call));
            && PartsCalm(s') && Conserved(s') && DistinctBodies(s'.msgs)
            && (forall k :: 0 <= k < |s'.requests| ==> !s'.requests[k].MarkFailed?)
  {
    RequestNamed(c, s, i);
    NamedRequestCalm(c, s, i, call);
  }

  lemma NamedRequestCalm(c: Config, s: State, i: nat, call: Call)
    requires CalmInv(s)
    requires Enabled(c, s, RequestStep(i, call)) && CalmEvent(s, RequestStep(i, call))
    requires var pc := s.requests[i];
             && RequestId(pc) != "" && !HasMessage(s, RequestId(pc)) && !pc.MarkFailed?
             && (pc.Enqueue? ==> PendingJob(s.data, RequestId(pc)))
    ensures var s' := Apply(c, s, RequestStep(i, call));
            && PartsCalm(s') && Conserved(s') && DistinctBodies(s'.msgs)
            && (forall k :: 0 <= k < |s'.requests| ==> !s'.requests[k].MarkFailed?)
  {
    var id := RequestId(s.requests[i]);
    assert forall m :: 0 <= m < |s.msgs| ==> s.msgs[m].body != id;
    NobodyHolds(s, id);
    RequestParts(c, s, i, call);
    RequestConserved(c, s, i, call);
  }

  lemma StepCalm(c: Config, s: State, t: nat, call: Call)
    requires Inv(c, s) && CalmInv(s)
    requires Enabled(c, s, Step(t, call)) && CalmEvent(s, Step(t, call))
    ensures var s' := Apply(c, s, Step(t, call)); PartsCalm(s') && Conserved(s')
  {
    var s' := Apply(c, s, Step(t, call));
    var w := s.threads[t].work;
    assert ThreadOk(c.processor, s, s.threads[t]) && WorkClean(s, w);
    assert JobOk(s.data, w.id);
    StepParts(c, s, t, call);
    HandsKeptConserved(s, s', t);
  }

  lemma SettlingCalm(c: Config, s: State, e: Event)
    requires CalmInv(s) && Enabled(c, s, e) && CalmEvent(s, e) && (e.TakeReceipt? || e.Settle?)
    ensures var s' := Apply(c, s, e); PartsCalm(s') && Conserved(s') && DistinctBodies(s'.msgs)
  {
    var s' := Apply(c, s, e);
    if e.TakeReceipt? {
      TakeReceiptParts(c, s, e.t);
      HandsKeptConserved(s, s', e.t);
    } else {
      SettleParts(c, s, e);
      assert WorkCalm(s, s.consumers[s.threads[e.t].proc], s.threads[e.t].work);
      SettleConserved(c, s, e);
    }
  }

  lemma DeliveryCalm(c: Config, s: State, e: Event)
    requires CalmInv(s) && Enabled(c, s, e) && (e.HandOut? || e.PollReturns? || e.Pick?)
    ensures var s' := Apply(c, s, e); PartsCalm(s') && Conserved(s') && DistinctBodies(s'.msgs)
  {
    if e.HandOut? {
      var id := s.msgs[e.m].body;
      assert MsgCalm(s.data, s.msgs[e.m]);
      NobodyHolds(s, id);
      HandOutParts(c, s, e.p, e.m);
      HandOutConserved(c, s, e.p, e.m);
    } else if e.PollReturns? {
      PollReturnsParts(c, s, e.p);
      PollReturnsConserved(c, s, e.p);
    } else {
      PickParts(c, s, e.t);
      PickConserved(c, s, e.t);
    }
  }

  lemma SubmitCalm(c: Config, s: State, e: Event)
    requires CalmInv(s) && Enabled(c, s, e) && e.Submit?
    ensures var s' := Apply(c, s, e); PartsCalm(s') && Conserved(s')
  {
    var s' := Apply(c, s, e);
    SubmitParts(c, s, e);
    forall id | id != "" ensures InHand(s', id) == Flying(s', id) {
      assert InHand(s, id) == Flying(s, id);
    }
  }

  /** Redriving never happens: with a bound of at least two receives no message
      ever comes back for a third. */
  lemma NeverRedriven(c: Config, s: State, m: nat)
    requires PartsCalm(s) && c.redrive >= 2
    ensures !Enabled(c, s, Redrive(m))
  {
    if m < |s.msgs| {
      assert MsgCalm(s.data, s.msgs[m]);
    }
  }

  lemma EventKeepsParts(c: Config, s: State, e: Event)
    requires Inv(c, s) && CalmInv(s) && c.redrive >= 2 && Enabled(c, s, e) && CalmEvent(s, e)
    ensures var s' := Apply(c, s, e);
            && PartsCalm(s') && Conserved(s') && DistinctBodies(s'.msgs)
            && (forall k :: 0 <= k < |s'.requests| ==> !s'.requests[k].MarkFailed?)
  {
    match e
    case Submit(_, _, _) => SubmitCalm(c, s, e);
    case RequestStep(i, call) => RequestCalm(c, s, i, call);
    case HandOut(_, _) => DeliveryCalm(c, s, e);
    case PollReturns(_) => DeliveryCalm(c, s, e);
    case Pick(_) => DeliveryCalm(c, s, e);
    case Step(t, call) => StepCalm(c, s, t, call);
    case TakeReceipt(_) => SettlingCalm(c, s, e);
    case Settle(_, _, _) => SettlingCalm(c, s, e);
    case Redrive(m) => NeverRedriven(c, s, m);
  }

  /** Every calm event keeps the calm invariant. */
  lemma EventKeepsCalm(c: Config, s: State, e: Event)
    requires Inv(c, s) && CalmInv(s) && c.redrive >= 2 && Enabled(c, s, e) && CalmEvent(s, e)
    ensures Inv(c, Apply(c, s, e)) && CalmInv(Apply(c, s, e))
  {
    CalmNoOverlap(s);
    CalmKeepsClean(c, s, e);
    EventKeepsParts(c, s, e);
  }

  // ---------------------------------------------------------- termination

  function RequestWeight(pc: C.Pc): nat {
    match pc
    case PutOriginal(_, _, _) => 103
    case SaveRecord(_, _) => 102
    case Enqueue(_) => 101
    case MarkFailed(_, _) => 1
    case Accepted(_) => 0
    case Refused(_) => 0
  }

  function MsgWeight(m: Msg): nat {
    match m.place
    case Visible => if m.receives == 0 then 100 else if m.receives == 1 then 30 else 0
    case InFlight => if m.receives == 1 then 30 else 0
    case Deleted => 0
    case DeadLettered => 0
  }

  function ConsumerWeight(k: Consumer): nat {
    13 * |k.response| + 12 * |k.pending|
  }

  function ThreadWeight(t: Thread): nat {
    match t.work
    case Idle => 0
    case Running(_, pc) => 4 + P.Rank(pc)
    case Settling(_, _) => 2
    case Calling(_, _, _) => 1
  }

  /** An upper bound on the number of calm events still to come. */
  function Measure(s: State): nat {
    Total(s.requests, RequestWeight) + Total(s.msgs, MsgWeight)
    + Total(s.consumers, ConsumerWeight) + Total(s.threads, ThreadWeight)
  }

  lemma {:induction false} BodiesLength(ms: seq<Message>)
    ensures |Bodies(ms)| <= |ms|
  {
    if ms != [] {
      BodiesLength(ms[..|ms| - 1]);
    }
  }

  lemma RequestLowers(c: Config, s: State, i: nat, call: Call)
    requires Enabled(c, s, RequestStep(i, call)) && CalmEvent(s, RequestStep(i, call))
    ensures Measure(Apply(c, s, RequestStep(i, call))) < Measure(s)
  {
    var s' := Apply(c, s, RequestStep(i, call));
    TotalUpdate(s.requests, i, s'.requests[i], RequestWeight);
    var sent := C.Advance(s.requests[i], s.data, call).2;
    if sent != [] {
      var x := Msg(sent[0], Visible, 0, 0);
      assert Published(sent) == [x];
      TotalAppend(s.msgs, x, MsgWeight);
    } else {
      assert s'.msgs == s.msgs;
    }
  }

  lemma HandOutLowers(c: Config, s: State, p: nat, m: nat)
    requires PartsCalm(s) && Enabled(c, s, HandOut(p, m))
    ensures Measure(Apply(c, s, HandOut(p, m))) < Measure(s)
  {
    var s' := Apply(c, s, HandOut(p, m));
    assert MsgCalm(s.data, s.msgs[m]);
    TotalUpdate(s.msgs, m, s'.msgs[m], MsgWeight);
    TotalUpdate(s.consumers, p, s'.consumers[p], ConsumerWeight);
  }

  lemma PollReturnsLowers(c: Config, s: State, p: nat)
    requires Enabled(c, s, PollReturns(p))
    ensures Measure(Apply(c, s, PollReturns(p))) < Measure(s)
  {
    BodiesLength(s.consumers[p].response);
    TotalUpdate(s.consumers, p, Apply(c, s, PollReturns(p)).consumers[p], ConsumerWeight);
  }

  lemma PickLowers(c: Config, s: State, t: nat)
    requires Enabled(c, s, Pick(t))
    ensures Measure(Apply(c, s, Pick(t))) < Measure(s)
  {
    var s' := Apply(c, s, Pick(t));
    var p := s.threads[t].proc;
    TotalUpdate(s.consumers, p, s'.consumers[p], ConsumerWeight);
    TotalUpdate(s.threads, t, s'.threads[t], ThreadWeight);
  }

  lemma StepLowers(c: Config, s: State, t: nat, call: Call)
    requires Enabled(c, s, Step(t, call))
    ensures Measure(Apply(c, s, Step(t, call))) < Measure(s)
  {
    var s' := Apply(c, s, Step(t, call));
    TotalUpdate(s.threads, t, s'.threads[t], ThreadWeight);
  }

  lemma TakeReceiptLowers(c: Config, s: State, t: nat)
    requires Enabled(c, s, TakeReceipt(t))
    ensures Measure(Apply(c, s, TakeReceipt(t))) < Measure(s)
  {
    var s' := Apply(c, s, TakeReceipt(t));
    var p := s.threads[t].proc;
    TotalUpdate(s.threads, t, s'.threads[t], ThreadWeight);
    TotalUpdate(s.consumers, p, s'.consumers[p], ConsumerWeight);
  }

  lemma SettleLowers(c: Config, s: State, e: Event)
    requires PartsCalm(s) && Enabled(c, s, e) && e.Settle? && e.call.Ok?
    ensures Measure(Apply(c, s, e)) < Measure(s)
  {
    var s' := Apply(c, s, e);
    var w := s.threads[e.t].work;
    assert WorkCalm(s, s.consumers[s.threads[e.t].proc], w);
    var m := s.handles[w.handle];
    TotalUpdate(s.threads, e.t, s'.threads[e.t], ThreadWeight);
    TotalUpdate(s.msgs, m, s'.msgs[m], MsgWeight);
  }

  lemma EventLowers(c: Config, s: State, e: Event)
    requires PartsCalm(s) && c.redrive >= 2 && Enabled(c, s, e) && CalmEvent(s, e)
    ensures Measure(Apply(c, s, e)) + 1 <= Measure(s) + if e.Submit? then 104 else 0
  {
    match e
    case Submit(id, spec, source) =>
      TotalAppend(s.requests, C.PutOriginal(id, spec, source), RequestWeight);
    case RequestStep(i, call) => RequestLowers(c, s, i, call);
    case HandOut(p, m) => HandOutLowers(c, s, p, m);
    case PollReturns(p) => PollReturnsLowers(c, s, p);
    case Pick(t) => PickLowers(c, s, t);
    case Redrive(m) => NeverRedriven(c, s, m);
    case Step(t, call) => StepLowers(c, s, t, call);
    case TakeReceipt(t) => TakeReceiptLowers(c, s, t);
    case Settle(_, _, _) => SettleLowers(c, s, e);
  }

  ghost predicate CalmRun(c: Config, s: State, es: seq<Event>)
    decreases |es|
  {
    es == [] || (Enabled(c, s, es[0]) && CalmEvent(s, es[0]) && CalmRun(c, Apply(c, s, es[0]), es[1..]))
  }

  ghost function CalmFinal(c: Config, s: State, es: seq<Event>): State
    requires CalmRun(c, s, es)
    decreases |es|
  {
    if es == [] then s else CalmFinal(c, Apply(c, s, es[0]), es[1..])
  }

  function Submits(es: seq<Event>): nat {
    if es == [] then 0 else (if es[0].Submit? then 1 else 0) + Submits(es[1..])
  }

  lemma {:induction false} CalmRunBound(c: Config, s: State, es: seq<Event>)
    requires Inv(c, s) && CalmInv(s) && c.redrive >= 2 && CalmRun(c, s, es)
    ensures var end := CalmFinal(c, s, es);
            Inv(c, end) && CalmInv(end) && |es| + Measure(end) <= Measure(s) + 104 * Submits(es)
    decreases |es|
  {
    if es != [] {
      EventKeepsCalm(c, s, es[0]);
      EventLowers(c, s, es[0]);
      CalmRunBound(c, Apply(c, s, es[0]), es[1..]);
    }
  }

  lemma InitialCalm(c: Config, s: State)
    requires Initial(s)
    ensures Inv(c, s) && CalmInv(s) && Measure(s) == 0
  {
    InitialInv(c, s);
    TotalNone(s.threads, ThreadWeight);
    TotalNone(s.consumers, ConsumerWeight);
    forall id | id != "" ensures InHand(s, id) == Flying(s, id) {
      TotalNone(s.threads, Busy(id));
      TotalNone(s.consumers, Holds(id));
    }
  }

  /** The work runs out: a calm run with n submissions, whatever the image and
      storage failures, the interleaving and the number of processes, has at
      most 104 n events. */
  lemma CalmRunsEnd(c: Config, s: State, es: seq<Event>)
    requires Initial(s) && c.redrive >= 2 && CalmRun(c, s, es)
    ensures |es| <= 104 * Submits(es)
  {
    InitialCalm(c, s);
    CalmRunBound(c, s, es);
  }

  /** At every moment of a calm run no message has been received more than
      twice, none is on the dead-letter queue, and the messages in flight are
      exactly the deliveries in hand. */
  lemma ReceivedAtMostTwice(c: Config, s: State, es: seq<Event>)
    requires Initial(s) && c.redrive >= 2 && CalmRun(c, s, es)
    ensures
      var end := CalmFinal(c, s, es);
      && (forall m :: 0 <= m < |end.msgs| ==>
            end.msgs[m].receives <= 2 && end.msgs[m].place != DeadLettered)
      && Conserved(end)
  {
    InitialCalm(c, s);
    CalmRunBound(c, s, es);
    CalmMessages(CalmFinal(c, s, es));
  }

  lemma CalmMessages(s: State)
    requires PartsCalm(s)
    ensures forall m :: 0 <= m < |s.msgs| ==> s.msgs[m].receives <= 2 && s.msgs[m].place != DeadLettered
  {
    assert forall m :: 0 <= m < |s.msgs| ==> MsgCalm(s.data, s.msgs[m]);
  }

  /** Nothing but new submissions is left to happen. */
  ghost predicate Quiescent(c: Config, s: State) {
    forall e :: Enabled(c, s, e) && CalmEvent(s, e) ==> e.Submit?
  }

  lemma Stuck(c: Config, s: State, e: Event)
    requires Quiescent(c, s) && !e.Submit?
    ensures !(Enabled(c, s, e) && CalmEvent(s, e))
  {
  }

  predicate Serves(s: State, t: nat, p: nat) {
    t < |s.threads| && s.threads[t].proc == p
  }

  // Every process runs at least one worker.
  ghost predicate Staffed(s: State) {
    && |s.consumers| > 0
    && (forall p {:trigger s.consumers[p]} :: 0 <= p < |s.consumers| ==> exists t :: Serves(s, t, p))
  }

  lemma QuiescentThread(c: Config, s: State, t: nat)
    requires CalmInv(s) && Quiescent(c, s) && t < |s.threads|
    ensures s.threads[t].work.Idle?
  {
    var w := s.threads[t].work;
    assert WorkCalm(s, s.consumers[s.threads[t].proc], w) && WorkClean(s, w);
    Stuck(c, s, Step(t, Ok(0)));
    Stuck(c, s, TakeReceipt(t));
    Stuck(c, s, Settle(t, Ok(0), true));
  }

  lemma QuiescentConsumer(c: Config, s: State, p: nat)
    requires CalmInv(s) && Quiescent(c, s) && Staffed(s) && p < |s.consumers|
    ensures s.consumers[p].response == [] && s.consumers[p].pending == []
  {
    assert s.consumers[p] == s.consumers[p];
    var t :| Serves(s, t, p);
    QuiescentThread(c, s, t);
    Stuck(c, s, Pick(t));
    Stuck(c, s, PollReturns(p));
  }

  // In a quiescent state nobody holds anything and every message is deleted.
  lemma QuiescentMessage(c: Config, s: State, m: nat)
    requires CalmInv(s) && Quiescent(c, s) && Staffed(s) && c.redrive >= 2 && c.batch >= 1
    requires m < |s.msgs|
    ensures s.msgs[m].place == Deleted && TerminalJob(s.data, s.msgs[m].body)
  {
    var id := s.msgs[m].body;
    assert MsgCalm(s.data, s.msgs[m]);
    forall t | 0 <= t < |s.threads| ensures Busy(id)(s.threads[t]) == 0 {
      QuiescentThread(c, s, t);
    }
    forall p | 0 <= p < |s.consumers| ensures Holds(id)(s.consumers[p]) == 0 {
      QuiescentConsumer(c, s, p);
    }
    TotalNone(s.threads, Busy(id));
    TotalNone(s.consumers, Holds(id));
    TotalOne(s.msgs, m, Flies(id));
    assert InHand(s, id) == Flying(s, id);
    QuiescentConsumer(c, s, 0);
    Stuck(c, s, HandOut(0, m));
  }

  lemma QuiescentRequest(c: Config, s: State, i: nat)
    requires RequestsOk(s) && Quiescent(c, s) && i < |s.requests|
    ensures C.Ended(s.requests[i])
    ensures s.requests[i].Accepted? ==> HasMessage(s, s.requests[i].job.id)
  {
    Stuck(c, s, RequestStep(i, Ok(0)));
    assert RequestOk(s, s.requests[i]);
  }

  predicate Finished(s: State) {
    && (forall i :: 0 <= i < |s.requests| ==>
          && C.Ended(s.requests[i])
          && (s.requests[i].Accepted? ==>
                var id := s.requests[i].job.id;
                id in s.data.jobs && (s.data.jobs[id].status == Done || s.data.jobs[id].status == Failed)))
    && (forall m :: 0 <= m < |s.msgs| ==> s.msgs[m].place == Deleted)
  }

  lemma QuiescentFinished(c: Config, s: State)
    requires RequestsOk(s) && CalmInv(s) && Quiescent(c, s) && Staffed(s) && c.redrive >= 2 && c.batch >= 1
    ensures Finished(s)
  {
    forall m | 0 <= m < |s.msgs|
      ensures s.msgs[m].place == Deleted && TerminalJob(s.data, s.msgs[m].body)
    {
      QuiescentMessage(c, s, m);
    }
    forall i | 0 <= i < |s.requests|
      ensures C.Ended(s.requests[i])
      ensures s.requests[i].Accepted? ==> TerminalJob(s.data, s.requests[i].job.id)
    {
      QuiescentRequest(c, s, i);
    }
  }

  /** Every accepted job finishes: when a calm run can only be continued by new
      submissions, every request has been answered, every message has been
      deleted, and every accepted job is done or failed. */
  lemma AcceptedJobsFinish(c: Config, s: State, es: seq<Event>)
    requires Initial(s) && c.redrive >= 2 && c.batch >= 1 && CalmRun(c, s, es)
    requires Quiescent(c, CalmFinal(c, s, es)) && Staffed(CalmFinal(c, s, es))
    ensures Finished(CalmFinal(c, s, es))
  {
    InitialCalm(c, s);
    CalmRunBound(c, s, es);
    QuiescentFinished(c, CalmFinal(c, s, es));
  }
}
