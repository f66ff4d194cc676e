/** The life of one job over every run: the exact condition under which its
    statuses follow the lifecycle, two hypotheses that are enough for it (no two
    executions of the job overlap, and failed writes have no effect), and for
    each of them a run without it that goes wrong. */
module PipelineLifecycle {
  import opened Wrappers
  import opened Domain
  import opened Keys
  import opened Repository
  import opened Ports
  import opened Receipts
  import opened Pipeline
  import opened PipelineSafety
  import P = ProcessJob
  import C = CreateJob

  /** No two threads execute the same job at once. */
  predicate NoOverlap(s: State) {
    forall t, u :: 0 <= t < u < |s.threads| && s.threads[t].work.Running? && s.threads[u].work.Running? ==>
      s.threads[t].work.id != s.threads[u].work.id
  }

  // The positions at which a worker writes a status.
  predicate Writes(pc: P.Pc) {
    pc.Claim? || pc.MarkDone? || pc.MarkFailed?
  }

  /** A failed write to the repository or the queue has no effect. Nothing is
      asked of the object store. */
  predicate CleanEvent(s: State, e: Event) {
    match e
    case RequestStep(i, call) =>
      i < |s.requests| && !s.requests[i].PutOriginal? ==> !call.FailsLate?
    case Step(t, call) =>
      t < |s.threads| && s.threads[t].work.Running? && Writes(s.threads[t].work.pc) ==> !call.FailsLate?
    case _ => true
  }

  predicate Awaiting(pc: C.Pc) {
    pc.Enqueue? || pc.MarkFailed?
  }

  function RequestId(pc: C.Pc): string {
    match pc
    case PutOriginal(id, _, _) => id
    case SaveRecord(id, _) => id
    case Enqueue(job) => job.id
    case MarkFailed(id, _) => id
    case Accepted(job) => job.id
    case Refused(_) => ""
  }

  // A request that has saved its record and not sent its message is the only
  // one that can touch the job.
  ghost predicate RequestsClean(s: State) {
    && (forall i :: 0 <= i < |s.requests| && Awaiting(s.requests[i]) ==>
          var id := RequestId(s.requests[i]);
          !HasMessage(s, id) && id in s.data.jobs && s.data.jobs[id].status == Pending)
    && (forall i, k :: 0 <= i < k < |s.requests| && !C.Ended(s.requests[i]) && !C.Ended(s.requests[k]) ==>
          RequestId(s.requests[i]) != RequestId(s.requests[k]))
  }

  // The status a worker at each position finds.
  predicate StatusAt(d: Data, id: string, pc: P.Pc) {
    match pc
    case Load => true
    case Claim(_) => id in d.jobs && d.jobs[id].status == Pending
    case Returned(_, _) => true
    case _ => id in d.jobs && d.jobs[id].status == Processing
  }

  ghost predicate WorkClean(s: State, w: Work) {
    w.Running? ==> HasMessage(s, w.id) && StatusAt(s.data, w.id, w.pc)
  }

  ghost predicate ConsumerClean(s: State, k: Consumer) {
    forall i :: 0 <= i < |k.pending| ==> HasMessage(s, k.pending[i])
  }

  ghost predicate CleanInv(s: State) {
    && RequestsClean(s)
    && (forall t :: 0 <= t < |s.threads| ==> WorkClean(s, s.threads[t].work))
    && (forall p :: 0 <= p < |s.consumers| ==> ConsumerClean(s, s.consumers[p]))
  }

  /** The lifecycle: pending, then processing, then done or failed; a request
      whose message could not be sent takes its job from pending to failed. */
  predicate Follows(before: Option<JobStatus>, after: JobStatus) {
    match before
    case None => after == Pending
    case Some(st) =>
      || (st == Pending && (after == Processing || after == Failed))
      || (st == Processing && (after == Done || after == Failed))
  }

  function StatusOf(s: State, id: string): Option<JobStatus> {
    if id in s.data.jobs then Some(s.data.jobs[id].status) else None
  }

  predicate InOrder(s: State, s': State, id: string) {
    || StatusOf(s', id) == StatusOf(s, id)
    || (StatusOf(s', id).Some? && Follows(StatusOf(s, id), StatusOf(s', id).value))
  }

  lemma MessageKept(s: State, s': State, id: string)
    requires Grows(s, s') && HasMessage(s, id)
    ensures HasMessage(s', id)
  {
    var m :| 0 <= m < |s.msgs| && s.msgs[m].body == id;
    assert s'.msgs[m].body == id;
  }

  lemma HandleHasMessage(s: State, h: Handle, id: string)
    requires HandleFor(s, h, id)
    ensures HasMessage(s, id)
  {
    assert s.msgs[s.handles[h]].body == id;
  }

  lemma ConsumerCleanKept(s: State, s': State, k: Consumer)
    requires Grows(s, s') && ConsumerClean(s, k)
    ensures ConsumerClean(s', k)
  {
    forall i | 0 <= i < |k.pending| ensures HasMessage(s', k.pending[i]) {
      MessageKept(s, s', k.pending[i]);
    }
  }

  // What a worker's step does to the job it executes, and to no other.
  lemma AdvanceStatus(p: Processor, d: Data, id: string, pc: P.Pc, call: Call)
    requires PcOk(p, d, id, pc) && StatusAt(d, id, pc) && !pc.Returned? && (Writes(pc) ==> !call.FailsLate?)
    ensures
      var (pc', d') := P.Advance(p, id, pc, d, call);
      && d'.jobs.Keys == d.jobs.Keys
      && StatusAt(d', id, pc')
      && (d'.jobs[id].status == d.jobs[id].status || Follows(Some(d.jobs[id].status), d'.jobs[id].status))
      && (forall other :: other in d.jobs && other != id ==> d'.jobs[other] == d.jobs[other])
  {
  }

  // A change confined to the record of one job keeps the threads, the
  // consumers and the requests that concern other jobs.
  lemma ConfinedClean(s: State, s': State, id: string, t: int)
    requires CleanInv(s) && Grows(s, s') && s'.consumers == s.consumers
    requires forall u :: 0 <= u < |s.threads| && u != t ==>
               s'.threads[u] == s.threads[u] &&
               (s.threads[u].work.Running? ==> s.threads[u].work.id != id)
    requires forall other :: other in s.data.jobs && other != id ==> s'.data.jobs[other] == s.data.jobs[other]
    requires 0 <= t < |s.threads| ==> WorkClean(s', s'.threads[t].work)
    ensures forall u :: 0 <= u < |s'.threads| ==> WorkClean(s', s'.threads[u].work)
    ensures forall p :: 0 <= p < |s'.consumers| ==> ConsumerClean(s', s'.consumers[p])
  {
    forall u | 0 <= u < |s'.threads| ensures WorkClean(s', s'.threads[u].work) {
      if u != t && s.threads[u].work.Running? {
        assert WorkClean(s, s.threads[u].work);
        MessageKept(s, s', s.threads[u].work.id);
      }
    }
    forall p | 0 <= p < |s'.consumers| ensures ConsumerClean(s', s'.consumers[p]) {
      ConsumerCleanKept(s, s', s.consumers[p]);
    }
  }

  // A worker's step under no overlap.
  lemma StepClean(c: Config, s: State, t: nat, call: Call)
    requires CleanInv(s) && NoOverlap(s)
    requires Enabled(c, s, Step(t, call)) && CleanEvent(s, Step(t, call))
    requires ThreadOk(c.processor, s, s.threads[t]) && Grows(s, Apply(c, s, Step(t, call)))
    ensures CleanInv(Apply(c, s, Step(t, call)))
  {
    var s' := Apply(c, s, Step(t, call));
    var w := s.threads[t].work;
    assert WorkClean(s, w);
    AdvanceStatus(c.processor, s.data, w.id, w.pc, call);
    MessageKept(s, s', w.id);
    ConfinedClean(s, s', w.id, t);
    SameMessages(s, s');
  }

  lemma StepInOrder(c: Config, s: State, t: nat, call: Call)
    requires Enabled(c, s, Step(t, call)) && CleanEvent(s, Step(t, call))
    requires ThreadOk(c.processor, s, s.threads[t]) && WorkClean(s, s.threads[t].work)
    ensures forall id :: InOrder(s, Apply(c, s, Step(t, call)), id)
  {
    var w := s.threads[t].work;
    AdvanceStatus(c.processor, s.data, w.id, w.pc, call);
  }

  lemma SameMessages(s: State, s': State)
    requires RequestsClean(s) && s'.msgs == s.msgs && s'.requests == s.requests
    requires forall id :: id in s.data.jobs && !HasMessage(s, id) ==>
               id in s'.data.jobs && s'.data.jobs[id] == s.data.jobs[id]
    ensures RequestsClean(s')
  {
    assert forall id :: HasMessage(s', id) == HasMessage(s, id);
  }

  lemma RequestHasNoMessage(c: Config, s: State, i: nat)
    requires Inv(c, s) && RequestsClean(s) && i < |s.requests| && !C.Ended(s.requests[i])
    ensures RequestOk(s, s.requests[i]) && !HasMessage(s, RequestId(s.requests[i]))
  {
    assert RequestOk(s, s.requests[i]);
  }

  // What a request's step does to its job and its message, and to no other.
  lemma RequestEffect(c: Config, s: State, i: nat, call: Call)
    requires RequestsClean(s)
    requires Enabled(c, s, RequestStep(i, call)) && CleanEvent(s, RequestStep(i, call))
    requires RequestOk(s, s.requests[i])
    ensures
      var s' := Apply(c, s, RequestStep(i, call));
      var rid := RequestId(s.requests[i]);
      && (forall id :: id in s.data.jobs && id != rid ==> id in s'.data.jobs && s'.data.jobs[id] == s.data.jobs[id])
      && (forall id :: id != rid ==> (id in s'.data.jobs <==> id in s.data.jobs))
      && InOrder(s, s', rid)
  {
  }

  lemma RequestMessages(c: Config, s: State, i: nat, call: Call)
    requires Enabled(c, s, RequestStep(i, call))
    ensures
      var s' := Apply(c, s, RequestStep(i, call));
      forall id :: id != RequestId(s.requests[i]) ==> HasMessage(s', id) ==> HasMessage(s, id)
  {
    var s' := Apply(c, s, RequestStep(i, call));
    forall id | id != RequestId(s.requests[i]) && HasMessage(s', id) ensures HasMessage(s, id) {
      var m :| 0 <= m < |s'.msgs| && s'.msgs[m].body == id;
      assert m < |s.msgs|;
      assert s.msgs[m].body == id;
    }
  }

  // A request's step.
  lemma RequestStepClean(c: Config, s: State, i: nat, call: Call)
    requires Inv(c, s) && CleanInv(s)
    requires Enabled(c, s, RequestStep(i, call)) && CleanEvent(s, RequestStep(i, call))
    requires Grows(s, Apply(c, s, RequestStep(i, call)))
    ensures var s' := Apply(c, s, RequestStep(i, call));
            && CleanInv(s')
            && (forall id :: InOrder(s, s', id))
  {
    var s' := Apply(c, s, RequestStep(i, call));
    RequestHasNoMessage(c, s, i);
    RequestEffect(c, s, i, call);
    RequestMessages(c, s, i, call);
    forall t | 0 <= t < |s.threads| && s.threads[t].work.Running?
      ensures s.threads[t].work.id != RequestId(s.requests[i])
    {
      assert WorkClean(s, s.threads[t].work);
    }
    ConfinedClean(s, s', RequestId(s.requests[i]), -1);
    RequestsStayClean(c, s, i, call);
  }

  lemma RequestsStayClean(c: Config, s: State, i: nat, call: Call)
    requires RequestsClean(s)
    requires Enabled(c, s, RequestStep(i, call)) && CleanEvent(s, RequestStep(i, call))
    requires RequestOk(s, s.requests[i])
    requires var s' := Apply(c, s, RequestStep(i, call));
             && (forall id :: id != RequestId(s.requests[i]) ==> HasMessage(s', id) ==> HasMessage(s, id))
             && (forall id :: id in s.data.jobs && id != RequestId(s.requests[i]) ==>
                   id in s'.data.jobs && s'.data.jobs[id] == s.data.jobs[id])
    requires !HasMessage(s, RequestId(s.requests[i]))
    ensures RequestsClean(Apply(c, s, RequestStep(i, call)))
  {
    var s' := Apply(c, s, RequestStep(i, call));
    assert C.Ended(s'.requests[i]) || RequestId(s'.requests[i]) == RequestId(s.requests[i]);
    assert s'.msgs != s.msgs ==> C.Ended(s'.requests[i]);
    assert s'.msgs == s.msgs ==> (forall id :: HasMessage(s', id) == HasMessage(s, id));
  }

  // Every other event leaves the data alone.
  predicate Quiet(e: Event) {
    !e.Step? && !e.RequestStep?
  }

  lemma QuietMessages(c: Config, s: State, e: Event)
    requires Enabled(c, s, e) && Quiet(e) && Grows(s, Apply(c, s, e))
    ensures Apply(c, s, e).data == s.data
    ensures forall id :: HasMessage(Apply(c, s, e), id) == HasMessage(s, id)
  {
    var s' := Apply(c, s, e);
    forall id ensures HasMessage(s', id) == HasMessage(s, id) {
      if HasMessage(s, id) {
        MessageKept(s, s', id);
      }
      if HasMessage(s', id) {
        var m :| 0 <= m < |s'.msgs| && s'.msgs[m].body == id;
        assert s.msgs[m].body == id;
      }
    }
  }

  lemma QuietClean(c: Config, s: State, e: Event)
    requires Inv(c, s) && CleanInv(s) && Enabled(c, s, e) && Quiet(e)
    requires Grows(s, Apply(c, s, e))
    ensures CleanInv(Apply(c, s, e))
    ensures forall id :: InOrder(s, Apply(c, s, e), id)
  {
    QuietMessages(c, s, e);
    if e.Submit? {
      SubmitIsFresh(c, s, e);
    }
    QuietRequests(c, s, e);
    QuietThreads(c, s, e);
    if e.PollReturns? {
      ConsumerFound(c, s, e.p);
    }
    QuietConsumers(c, s, e);
  }

  lemma SubmitIsFresh(c: Config, s: State, e: Event)
    requires DataOk(c.processor, s.data, s.used) && RequestsOk(s) && Enabled(c, s, e) && e.Submit?
    ensures forall i :: 0 <= i < |s.requests| && !C.Ended(s.requests[i]) ==>
              RequestId(s.requests[i]) != e.id
  {
    forall i | 0 <= i < |s.requests| && !C.Ended(s.requests[i]) ensures RequestId(s.requests[i]) != e.id {
      assert RequestOk(s, s.requests[i]);
    }
  }

  lemma QuietRequests(c: Config, s: State, e: Event)
    requires RequestsClean(s) && Enabled(c, s, e) && Quiet(e)
    requires e.Submit? ==>
               forall i :: 0 <= i < |s.requests| && !C.Ended(s.requests[i]) ==>
                 RequestId(s.requests[i]) != e.id
    requires forall id :: HasMessage(Apply(c, s, e), id) == HasMessage(s, id)
    ensures RequestsClean(Apply(c, s, e))
  {
  }

  lemma QuietThreads(c: Config, s: State, e: Event)
    requires CleanInv(s) && Enabled(c, s, e) && Quiet(e)
    requires forall id :: HasMessage(Apply(c, s, e), id) == HasMessage(s, id)
    ensures forall t :: 0 <= t < |s.threads| ==> WorkClean(Apply(c, s, e), Apply(c, s, e).threads[t].work)
  {
    var s' := Apply(c, s, e);
    if e.Pick? {
      assert ConsumerClean(s, s.consumers[s.threads[e.t].proc]);
    }
    forall t | 0 <= t < |s.threads| ensures WorkClean(s', s'.threads[t].work) {
      assert WorkClean(s, s.threads[t].work);
    }
  }

  lemma {:induction false} BodiesHaveMessages(s: State, k: Consumer, n: nat)
    requires ConsumerOk(s, k) && n <= |k.response|
    ensures forall i :: 0 <= i < |Bodies(k.response[..n])| ==> HasMessage(s, Bodies(k.response[..n])[i])
  {
    if n > 0 {
      BodiesHaveMessages(s, k, n - 1);
      assert k.response[..n][..n - 1] == k.response[..n - 1];
      HandleHasMessage(s, k.response[n - 1].handle, k.response[n - 1].body);
    }
  }

  lemma PolledClean(s: State, s': State, k: Consumer)
    requires ConsumerOk(s, k) && (forall id :: HasMessage(s', id) == HasMessage(s, id))
    ensures ConsumerClean(s', Consumer([], Bodies(k.response), Recorded(k.receipts, k.response)))
  {
    BodiesHaveMessages(s, k, |k.response|);
    assert k.response[..|k.response|] == k.response;
  }

  lemma ConsumerFound(c: Config, s: State, p: nat)
    requires ProcessesOk(c.processor, s) && p < |s.consumers|
    ensures ConsumerOk(s, s.consumers[p])
  {
  }

  lemma QuietConsumers(c: Config, s: State, e: Event)
    requires CleanInv(s) && Enabled(c, s, e) && Quiet(e)
    requires e.PollReturns? ==> ConsumerOk(s, s.consumers[e.p])
    requires forall id :: HasMessage(Apply(c, s, e), id) == HasMessage(s, id)
    ensures forall p :: 0 <= p < |s.consumers| ==> ConsumerClean(Apply(c, s, e), Apply(c, s, e).consumers[p])
  {
    var s' := Apply(c, s, e);
    forall p | 0 <= p < |s.consumers| ensures ConsumerClean(s', s'.consumers[p]) {
      assert ConsumerClean(s, s.consumers[p]);
      if e.PollReturns? && e.p == p {
        PolledClean(s, s', s.consumers[p]);
      }
    }
  }

  lemma EventGrows(c: Config, s: State, e: Event)
    requires Inv(c, s) && Enabled(c, s, e)
    ensures Grows(s, Apply(c, s, e))
  {
    EventKeepsInv(c, s, e);
  }

  lemma WorkerOk(c: Config, s: State, t: nat)
    requires Inv(c, s) && t < |s.threads|
    ensures ThreadOk(c.processor, s, s.threads[t])
  {
  }

  /** Each event takes every job along its lifecycle or leaves it where it is;
      in particular done and failed are final. */
  lemma EventInOrder(c: Config, s: State, e: Event)
    requires Inv(c, s) && CleanInv(s) && NoOverlap(s) && Enabled(c, s, e) && CleanEvent(s, e)
    ensures CleanInv(Apply(c, s, e))
    ensures forall id :: InOrder(s, Apply(c, s, e), id)
  {
    EventGrows(c, s, e);
    match e
    case Step(t, call) =>
      WorkerOk(c, s, t);
      assert WorkClean(s, s.threads[t].work);
      StepClean(c, s, t, call);
      StepInOrder(c, s, t, call);
      assert e == Step(t, call);
    case RequestStep(i, call) =>
      RequestStepClean(c, s, i, call);
      assert e == RequestStep(i, call);
    case _ => QuietClean(c, s, e);
  }

  /** The two hypotheses, for one event of a run. */
  datatype Hypothesis = ExecutionsApart | FailuresClean

  predicate Keeps(h: Hypothesis, s: State, e: Event) {
    match h
    case ExecutionsApart => NoOverlap(s)
    case FailuresClean => CleanEvent(s, e)
  }

  ghost predicate Under(h: Hypothesis, c: Config, s: State, es: seq<Event>)
    requires ValidRun(c, s, es)
    decreases |es|
  {
    es == [] || (Keeps(h, s, es[0]) && Under(h, c, Apply(c, s, es[0]), es[1..]))
  }

  /** The runs the lifecycle is promised for. */
  ghost predicate CleanRun(c: Config, s: State, es: seq<Event>) {
    ValidRun(c, s, es) && Under(ExecutionsApart, c, s, es) && Under(FailuresClean, c, s, es)
  }

  /** The statuses a job takes over a run, each new one once. */
  ghost function History(c: Config, s: State, es: seq<Event>, id: string): seq<JobStatus>
    requires ValidRun(c, s, es)
    decreases |es|
  {
    if es == [] then []
    else
      var s' := Apply(c, s, es[0]);
      var rest := History(c, s', es[1..], id);
      if StatusOf(s', id) == StatusOf(s, id) || StatusOf(s', id).None? then rest
      else [StatusOf(s', id).value] + rest
  }

  predicate Legal(start: Option<JobStatus>, h: seq<JobStatus>)
    decreases |h|
  {
    h == [] || (Follows(start, h[0]) && Legal(Some(h[0]), h[1..]))
  }

  lemma {:induction false} HistoryIsLegal(c: Config, s: State, es: seq<Event>, id: string)
    requires Inv(c, s) && CleanInv(s) && CleanRun(c, s, es)
    ensures Legal(StatusOf(s, id), History(c, s, es, id))
    decreases |es|
  {
    if es != [] {
      var s' := Apply(c, s, es[0]);
      EventKeepsInv(c, s, es[0]);
      EventInOrder(c, s, es[0]);
      HistoryIsLegal(c, s', es[1..], id);
      assert InOrder(s, s', id);
    }
  }

  const LIFECYCLES: set<seq<JobStatus>> := {
    [], [Pending], [Pending, Failed], [Pending, Processing],
    [Pending, Processing, Done], [Pending, Processing, Failed]}

  /** Every job's history over every such run from the start is one of six. */
  lemma LifecycleHistories(c: Config, s: State, es: seq<Event>, id: string)
    requires Initial(s) && CleanRun(c, s, es)
    ensures History(c, s, es, id) in LIFECYCLES
  {
    InitialInv(c, s);
    HistoryIsLegal(c, s, es, id);
    LegalHistories(History(c, s, es, id));
  }

  lemma LegalHistories(h: seq<JobStatus>)
    ensures Legal(None, h) <==> h in LIFECYCLES
  {
    if Legal(None, h) {
      LegalIsListed(h);
    } else if h in LIFECYCLES {
      ListedIsLegal(h);
    }
  }

  lemma LegalIsListed(h: seq<JobStatus>)
    requires Legal(None, h)
    ensures h in LIFECYCLES
  {
    if |h| >= 1 {
      assert Legal(Some(h[0]), h[1..]);
      if |h| >= 2 {
        assert Legal(Some(h[1]), h[1..][1..]);
        if |h| >= 3 {
          assert h[1..][1..][0] == h[2];
          assert Legal(Some(h[2]), h[1..][1..][1..]);
          assert |h| == 3;
          assert h == [h[0], h[1], h[2]];
        } else {
          assert h == [h[0], h[1]];
        }
      } else {
        assert h == [h[0]];
      }
    }
  }

  lemma ListedIsLegal(h: seq<JobStatus>)
    requires h in LIFECYCLES
    ensures Legal(None, h)
  {
    if |h| >= 2 {
      assert h[1..][0] == h[1];
      if |h| == 3 {
        assert h[1..][1..] == [h[2]];
        assert Legal(Some(h[2]), [h[2]][1..]);
      }
    }
  }

  // Events at which an execution of a job gets past the claim.
  predicate IsClaim(s: State, e: Event, id: string) {
    && e.Step? && e.call.Ok? && e.t < |s.threads|
    && s.threads[e.t].work.Running? && s.threads[e.t].work.id == id
    && s.threads[e.t].work.pc.Claim?
  }

  lemma ClaimTakesPending(c: Config, s: State, e: Event, id: string)
    requires Enabled(c, s, e) && IsClaim(s, e, id) && WorkClean(s, s.threads[e.t].work)
    ensures !LeftPending(s.data, id) && LeftPending(Apply(c, s, e).data, id)
  {
  }

  ghost function Claims(c: Config, s: State, es: seq<Event>, id: string): nat
    requires ValidRun(c, s, es)
    decreases |es|
  {
    if es == [] then 0
    else
      var e := es[0];
      (if IsClaim(s, e, id) then 1 else 0) + Claims(c, Apply(c, s, e), es[1..], id)
  }

  lemma {:induction false} ClaimsBounded(c: Config, s: State, es: seq<Event>, id: string)
    requires Inv(c, s) && CleanInv(s) && CleanRun(c, s, es)
    ensures Claims(c, s, es, id) <= if LeftPending(s.data, id) then 0 else 1
    decreases |es|
  {
    if es != [] {
      EventKeepsInv(c, s, es[0]);
      EventInOrder(c, s, es[0]);
      ClaimsBounded(c, Apply(c, s, es[0]), es[1..], id);
      if IsClaim(s, es[0], id) {
        ClaimTakesPending(c, s, es[0], id);
      }
    }
  }

  /** However many duplicates of a message arrive, at most one delivery of a job
      gets past the claim. */
  lemma AtMostOneClaim(c: Config, s: State, es: seq<Event>, id: string)
    requires Initial(s) && CleanRun(c, s, es)
    ensures Claims(c, s, es, id) <= 1
  {
    InitialInv(c, s);
    ClaimsBounded(c, s, es, id);
  }

  // ----------------------------------------------------- every run, exactly

  /** The events that write a job's status, when their call takes effect. */
  predicate WritesStatus(s: State, e: Event, id: string) {
    match e
    case RequestStep(i, call) =>
      && i < |s.requests| && call.Effective()
      && (s.requests[i].SaveRecord? || s.requests[i].MarkFailed?) && s.requests[i].id == id
    case Step(t, call) =>
      && t < |s.threads| && call.Effective()
      && s.threads[t].work.Running? && Writes(s.threads[t].work.pc) && s.threads[t].work.id == id
    case _ => false
  }

  function Written(s: State, e: Event, id: string): JobStatus
    requires WritesStatus(s, e, id)
  {
    match e
    case RequestStep(i, _) => if s.requests[i].SaveRecord? then Pending else Failed
    case Step(t, _) =>
      var pc := s.threads[t].work.pc;
      if pc.Claim? then Processing else if pc.MarkDone? then Done else Failed
  }

  // The stored status a writer's position goes with. A request that gives up on
  // its message may find the job pending, or already taken by a worker that got
  // the message all the same; what it must not find is an outcome.
  predicate Expects(s: State, e: Event, id: string, stored: Option<JobStatus>)
    requires WritesStatus(s, e, id)
  {
    match e
    case RequestStep(i, _) =>
      if s.requests[i].SaveRecord? then stored == None
      else stored == Some(Pending) || stored == Some(Processing)
    case Step(t, _) =>
      if s.threads[t].work.pc.Claim? then stored == Some(Pending) else stored == Some(Processing)
  }

  /** An event's write to a job, if it makes one, changes nothing or finds the
      status its position expects. */
  predicate AsExpected(s: State, e: Event, id: string) {
    WritesStatus(s, e, id) ==>
      StatusOf(s, id) == Some(Written(s, e, id)) || Expects(s, e, id, StatusOf(s, id))
  }

  ghost predicate AllExpected(c: Config, s: State, es: seq<Event>, id: string)
    requires ValidRun(c, s, es)
    decreases |es|
  {
    es == [] || (AsExpected(s, es[0], id) && AllExpected(c, Apply(c, s, es[0]), es[1..], id))
  }

  // What a position writes, in terms of the data alone.
  lemma AdvanceWrites(p: Processor, d: Data, id: string, pc: P.Pc, call: Call)
    requires PcOk(p, d, id, pc) && !pc.Returned?
    ensures
      var d' := P.Advance(p, id, pc, d, call).1;
      && id in d.jobs && id in d'.jobs
      && (forall other :: other != id ==>
            (other in d'.jobs <==> other in d.jobs) && (other in d.jobs ==> d'.jobs[other] == d.jobs[other]))
      && d'.jobs[id].status ==
         (if !Writes(pc) || !call.Effective() then d.jobs[id].status
          else if pc.Claim? then Processing else if pc.MarkDone? then Done else Failed)
      && (Writes(pc) && !pc.Claim? ==> d.jobs[id].status != Pending)
  {
  }

  // A worker's step changes the status only by a write.
  lemma StepInOrderIff(c: Config, s: State, t: nat, call: Call, id: string)
    requires Enabled(c, s, Step(t, call)) && ThreadOk(c.processor, s, s.threads[t])
    ensures InOrder(s, Apply(c, s, Step(t, call)), id) <==> AsExpected(s, Step(t, call), id)
  {
    var w := s.threads[t].work;
    AdvanceWrites(c.processor, s.data, w.id, w.pc, call);
  }

  lemma RequestInOrderIff(c: Config, s: State, i: nat, call: Call, id: string)
    requires Enabled(c, s, RequestStep(i, call)) && RequestOk(s, s.requests[i])
    ensures InOrder(s, Apply(c, s, RequestStep(i, call)), id) <==> AsExpected(s, RequestStep(i, call), id)
  {
  }

  // Every other event leaves the data alone.
  lemma QuietInOrder(c: Config, s: State, e: Event, id: string)
    requires Enabled(c, s, e) && Quiet(e)
    ensures InOrder(s, Apply(c, s, e), id) && AsExpected(s, e, id)
  {
    assert Apply(c, s, e).data == s.data;
  }

  /** An event takes a job along its lifecycle, or leaves it where it is, exactly
      when its write finds what it expects. */
  lemma EventInOrderIff(c: Config, s: State, e: Event, id: string)
    requires Inv(c, s) && Enabled(c, s, e)
    ensures InOrder(s, Apply(c, s, e), id) <==> AsExpected(s, e, id)
  {
    match e
    case Step(t, call) =>
      WorkerOk(c, s, t);
      StepInOrderIff(c, s, t, call, id);
      assert e == Step(t, call);
    case RequestStep(i, call) =>
      RequestFound(c, s, i);
      RequestInOrderIff(c, s, i, call, id);
      assert e == RequestStep(i, call);
    case _ => QuietInOrder(c, s, e, id);
  }

  // A record that is there stays there.
  lemma StatusStays(s: State, s': State, id: string)
    requires Grows(s, s') && StatusOf(s, id).Some?
    ensures StatusOf(s', id).Some?
  {
  }

  lemma {:induction false} LegalIffExpected(c: Config, s: State, es: seq<Event>, id: string)
    requires Inv(c, s) && ValidRun(c, s, es)
    ensures Legal(StatusOf(s, id), History(c, s, es, id)) <==> AllExpected(c, s, es, id)
    decreases |es|
  {
    if es != [] {
      var s' := Apply(c, s, es[0]);
      EventKeepsInv(c, s, es[0]);
      EventInOrderIff(c, s, es[0], id);
      LegalIffExpected(c, s', es[1..], id);
      LegalStep(s, s', id, History(c, s', es[1..], id));
    }
  }

  // Putting one event in front of a history.
  lemma LegalStep(s: State, s': State, id: string, rest: seq<JobStatus>)
    requires Grows(s, s')
    ensures
      var st, st' := StatusOf(s, id), StatusOf(s', id);
      var h := if st' == st || st'.None? then rest else [st'.value] + rest;
      Legal(st, h) <==> InOrder(s, s', id) && Legal(st', rest)
  {
    var st, st' := StatusOf(s, id), StatusOf(s', id);
    if st.Some? {
      StatusStays(s, s', id);
    }
    if st' != st && st'.Some? {
      assert ([st'.value] + rest)[1..] == rest;
    }
  }

  /** Over every run from the start, with whatever overlaps, crashes, duplicates
      and late failures, the history of a job is one of the six exactly when
      every write to it that changed its status, by a worker or by a request,
      found the status its position expects. Checking that before each write is
      what a conditional write would do, and what the code does not. */
  lemma LifecycleIff(c: Config, s: State, es: seq<Event>, id: string)
    requires Initial(s) && ValidRun(c, s, es)
    ensures History(c, s, es, id) in LIFECYCLES <==> AllExpected(c, s, es, id)
  {
    InitialInv(c, s);
    LegalIffExpected(c, s, es, id);
    LegalHistories(History(c, s, es, id));
  }

  // ------------------------------------------------- without the hypotheses

  // A run from one state to another under one of the hypotheses.
  ghost predicate Leads(h: Hypothesis, c: Config, s: State, es: seq<Event>, s': State) {
    ValidRun(c, s, es) && Final(c, s, es) == s' && Under(h, c, s, es)
  }

  lemma {:induction false} LeadsOn(h: Hypothesis, c: Config, s: State, es: seq<Event>, mid: State,
                                   fs: seq<Event>, end: State)
    requires Leads(h, c, s, es, mid) && Leads(h, c, mid, fs, end)
    ensures Leads(h, c, s, es + fs, end)
    decreases |es|
  {
    if es == [] {
      assert es + fs == fs;
    } else {
      assert (es + fs)[1..] == es[1..] + fs;
      LeadsOn(h, c, Apply(c, s, es[0]), es[1..], mid, fs, end);
    }
  }

  lemma LeadsOne(h: Hypothesis, c: Config, s: State, es: seq<Event>, mid: State, e: Event)
    returns (es': seq<Event>, end: State)
    requires Leads(h, c, s, es, mid) && Enabled(c, mid, e) && Keeps(h, mid, e)
    ensures Leads(h, c, s, es', end) && end == Apply(c, mid, e)
  {
    end := Apply(c, mid, e);
    es' := es + [e];
    assert [e][1..] == [];
    assert Leads(h, c, mid, [e], end);
    LeadsOn(h, c, s, es, mid, [e], end);
  }

  // With one thread executions never overlap.
  predicate Suits(h: Hypothesis, s: State) {
    h.ExecutionsApart? ==> |s.threads| == 1
  }

  // A number of processes of one thread each.
  function Start(n: nat): State {
    State(Data(map[], map[]), {}, [], [], [],
          seq(n, _ => Consumer([], [], map[])), seq(n, _ => Tally(0, 0, 0)),
          seq(n, p requires 0 <= p < n => Thread(p, Idle)), [])
  }

  // A request with its original and its record in place.
  lemma RunToSaved(h: Hypothesis, c: Config, n: nat, id: string, spec: Spec, source: Blob)
    returns (es: seq<Event>, s: State)
    requires id != "" && Usable(spec) && Suits(h, Start(n))
    ensures Leads(h, c, Start(n), es, s)
    ensures s == Start(n).(
              data := Data(map[id := C.NewJob(id, spec, 0)], map[OriginalKey(id) := source]),
              used := {id},
              requests := [C.Enqueue(C.NewJob(id, spec, 0))])
  {
    s := Start(n);
    es, s := LeadsOne(h, c, s, [], s, Submit(id, spec, source));
    es, s := LeadsOne(h, c, Start(n), es, s, RequestStep(0, Ok(0)));
    es, s := LeadsOne(h, c, Start(n), es, s, RequestStep(0, Ok(0)));
    assert s.msgs == [];
    assert s.requests == [C.Enqueue(C.NewJob(id, spec, 0))];
  }

  // A request whose message is sent, whether or not it hears so.
  lemma RunToSent(h: Hypothesis, c: Config, n: nat, id: string, spec: Spec, source: Blob, last: Call)
    returns (es: seq<Event>, s: State)
    requires id != "" && Usable(spec) && Suits(h, Start(n))
    requires last.Effective() && (h.FailuresClean? ==> last.Ok?)
    ensures Leads(h, c, Start(n), es, s)
    ensures s == Start(n).(
              data := Data(map[id := C.NewJob(id, spec, 0)], map[OriginalKey(id) := source]),
              used := {id},
              requests := s.requests,
              msgs := [Msg(id, Visible, 0, 0)])
    ensures |s.requests| == 1
    ensures !last.Ok? ==> s.requests[0].MarkFailed? && s.requests[0].id == id
  {
    es, s := RunToSaved(h, c, n, id, spec, source);
    es, s := LeadsOne(h, c, Start(n), es, s, RequestStep(0, last));
    assert s.msgs == [Msg(id, Visible, 0, 0)];
  }

  // Process p is handed message 0.
  lemma RunToHanded(h: Hypothesis, c: Config, s0: State, id: string, p: nat)
    returns (es: seq<Event>, s: State)
    requires p < |s0.consumers| && s0.consumers[p] == Consumer([], [], map[]) && Suits(h, s0)
    requires |s0.msgs| == 1 && s0.msgs[0].body == id && s0.msgs[0].place == Visible
    requires s0.msgs[0].receives < c.redrive && c.batch > 0
    ensures Leads(h, c, s0, es, s)
    ensures s == s0.(msgs := s.msgs, handles := s.handles, consumers := s.consumers)
    ensures s.consumers == s0.consumers[p := Consumer([Message(id, |s0.handles|)], [], map[])]
    ensures |s.msgs| == 1 && s.msgs[0].body == id && s.msgs[0].place == InFlight
    ensures s.msgs[0].receives == s0.msgs[0].receives + 1
  {
    es, s := LeadsOne(h, c, s0, [], s0, HandOut(p, 0));
    assert s.consumers[p].response == [Message(id, |s0.handles|)];
  }

  lemma OneBody(m: Message)
    requires m.body != ""
    ensures Bodies([m]) == [m.body]
  {
    assert [m][..0] == [];
  }

  // Process p receives message 0.
  lemma RunToReceived(h: Hypothesis, c: Config, s0: State, id: string, p: nat)
    returns (es: seq<Event>, s: State)
    requires p < |s0.consumers| && s0.consumers[p] == Consumer([], [], map[]) && Suits(h, s0)
    requires |s0.msgs| == 1 && s0.msgs[0].body == id && s0.msgs[0].place == Visible
    requires s0.msgs[0].receives < c.redrive && c.batch > 0 && id != ""
    ensures Leads(h, c, s0, es, s)
    ensures s.data == s0.data && s.threads == s0.threads && |s.consumers| == |s0.consumers|
    ensures s.requests == s0.requests && s.consumers[p].pending == [id]
    ensures forall q :: 0 <= q < |s0.consumers| && q != p ==> s.consumers[q] == s0.consumers[q]
    ensures |s.msgs| == 1 && s.msgs[0].body == id && s.msgs[0].place == InFlight
    ensures s.msgs[0].receives == s0.msgs[0].receives + 1
  {
    es, s := RunToHanded(h, c, s0, id, p);
    OneBody(Message(id, |s0.handles|));
    es, s := LeadsOne(h, c, s0, es, s, PollReturns(p));
  }

  // Process p receives message 0 and its thread loads the pending job.
  lemma RunToLoaded(h: Hypothesis, c: Config, s0: State, id: string, p: nat)
    returns (es: seq<Event>, s: State)
    requires p < |s0.consumers| && p < |s0.threads| && s0.threads[p] == Thread(p, Idle) && Suits(h, s0)
    requires s0.consumers[p] == Consumer([], [], map[])
    requires |s0.msgs| == 1 && s0.msgs[0].body == id && s0.msgs[0].place == Visible
    requires s0.msgs[0].receives < c.redrive && c.batch > 0
    requires id != "" && id in s0.data.jobs && s0.data.jobs[id].status == Pending
    ensures Leads(h, c, s0, es, s)
    ensures s.data == s0.data && |s.consumers| == |s0.consumers| && s.requests == s0.requests
    ensures s.threads == s0.threads[p := Thread(p, Running(id, P.Claim(s0.data.jobs[id])))]
    ensures forall q :: 0 <= q < |s0.consumers| && q != p ==> s.consumers[q] == s0.consumers[q]
    ensures |s.msgs| == 1 && s.msgs[0].body == id && s.msgs[0].place == InFlight
    ensures s.msgs[0].receives == s0.msgs[0].receives + 1
  {
    es, s := RunToReceived(h, c, s0, id, p);
    es, s := LeadsOne(h, c, s0, es, s, Pick(p));
    es, s := LeadsOne(h, c, s0, es, s, Step(p, Ok(0)));
  }

  // Thread 0 runs from the claim to the transformed image.
  lemma RunToTransformed(h: Hypothesis, c: Config, s0: State, id: string, job: Job, source: Blob)
    returns (es: seq<Event>, s: State)
    requires |s0.threads| > 0 && s0.threads[0].work == Running(id, P.Claim(job)) && Suits(h, s0)
    requires id in s0.data.jobs && job.originalKey in s0.data.store
    requires s0.data.store[job.originalKey] == source && c.processor(source, job.spec).Success?
    ensures Leads(h, c, s0, es, s)
    ensures id in s.data.jobs && |s.threads| == |s0.threads| && s.threads[1..] == s0.threads[1..]
    ensures s.requests == s0.requests
    ensures s.threads[0].work ==
            Running(id, P.StoreResult(job.(status := Processing), c.processor(source, job.spec).value))
  {
    es, s := LeadsOne(h, c, s0, [], s0, Step(0, Ok(0)));
    es, s := LeadsOne(h, c, s0, es, s, Step(0, Ok(0)));
    es, s := LeadsOne(h, c, s0, es, s, Step(0, Ok(0)));
  }

  // Thread 0 runs from the claim to the recorded result.
  lemma RunToDone(h: Hypothesis, c: Config, s0: State, id: string, job: Job, source: Blob)
    returns (es: seq<Event>, s: State)
    requires |s0.threads| > 0 && s0.threads[0].work == Running(id, P.Claim(job)) && Suits(h, s0)
    requires id in s0.data.jobs && job.originalKey in s0.data.store
    requires s0.data.store[job.originalKey] == source && c.processor(source, job.spec).Success?
    ensures Leads(h, c, s0, es, s)
    ensures id in s.data.jobs && s.data.jobs[id].status == Done && s.requests == s0.requests
    ensures |s.threads| == |s0.threads| && s.threads[1..] == s0.threads[1..]
  {
    es, s := RunToTransformed(h, c, s0, id, job, source);
    es, s := LeadsOne(h, c, s0, es, s, Step(0, Ok(0)));
    es, s := LeadsOne(h, c, s0, es, s, Step(0, Ok(0)));
  }

  // Thread 1 claims and cannot read the original.
  lemma RunToCause(c: Config, s0: State, id: string, job: Job)
    returns (es: seq<Event>, s: State)
    requires |s0.threads| > 1 && s0.threads[1].work == Running(id, P.Claim(job))
    requires id in s0.data.jobs
    ensures Leads(FailuresClean, c, s0, es, s)
    ensures id in s.data.jobs && |s.threads| > 1
    ensures s.threads[1].work.Running? && s.threads[1].work.id == id
    ensures var pc := s.threads[1].work.pc; pc.MarkFailed? && pc.job == job.(status := Processing)
  {
    es, s := LeadsOne(FailuresClean, c, s0, [], s0, Step(1, Ok(0)));
    es, s := LeadsOne(FailuresClean, c, s0, es, s, Step(1, Fails("storage is down")));
  }

  // Thread 1 claims and fails.
  lemma RunToFailed(c: Config, s0: State, id: string, job: Job)
    returns (es: seq<Event>, s: State)
    requires |s0.threads| > 1 && s0.threads[1].work == Running(id, P.Claim(job))
    requires id in s0.data.jobs && job.id == id
    ensures Leads(FailuresClean, c, s0, es, s)
    ensures id in s.data.jobs && s.data.jobs[id].status == Failed
  {
    es, s := RunToCause(c, s0, id, job);
    es, s := LeadsOne(FailuresClean, c, s0, es, s, Step(1, Ok(0)));
  }

  // Request 0, told that its message was not sent, marks its job failed.
  lemma RunToCompensated(c: Config, s0: State, id: string)
    returns (es: seq<Event>, s: State)
    requires |s0.threads| == 1 && id in s0.data.jobs
    requires |s0.requests| == 1 && s0.requests[0].MarkFailed? && s0.requests[0].id == id
    ensures Leads(ExecutionsApart, c, s0, es, s)
    ensures id in s.data.jobs && s.data.jobs[id].status == Failed
  {
    es, s := LeadsOne(ExecutionsApart, c, s0, [], s0, RequestStep(0, Ok(0)));
  }

  // A run that records a job done and then failed.
  ghost predicate UndoesDone(h: Hypothesis, c: Config, start: State, before: seq<Event>, after: seq<Event>, id: string) {
    && Initial(start)
    && ValidRun(c, start, before) && Under(h, c, start, before)
    && var mid := Final(c, start, before);
    && StatusOf(mid, id) == Some(Done)
    && ValidRun(c, mid, after) && Under(h, c, mid, after)
    && StatusOf(Final(c, mid, after), id) == Some(Failed)
  }

  // Two processes, after one expiry, each with the pending job loaded.
  lemma RunToOverlap(c: Config, id: string, spec: Spec, source: Blob)
    returns (es: seq<Event>, s: State)
    requires id != "" && Usable(spec) && c.redrive >= 2 && c.batch >= 1
    ensures Leads(FailuresClean, c, Start(2), es, s)
    ensures s.data == Data(map[id := C.NewJob(id, spec, 0)], map[OriginalKey(id) := source])
    ensures s.threads == [Thread(0, Running(id, P.Claim(C.NewJob(id, spec, 0)))),
                          Thread(1, Running(id, P.Claim(C.NewJob(id, spec, 0))))]
  {
    es, s := RunToSent(FailuresClean, c, 2, id, spec, source, Ok(0));
    var fs, s1 := RunToLoaded(FailuresClean, c, s, id, 0);
    LeadsOn(FailuresClean, c, Start(2), es, s, fs, s1);
    var gs, s2 := LeadsOne(FailuresClean, c, Start(2), es + fs, s1, Expire(0));
    var hs, s3 := RunToLoaded(FailuresClean, c, s2, id, 1);
    LeadsOn(FailuresClean, c, Start(2), gs, s2, hs, s3);
    es, s := gs + hs, s3;
  }

  /** Done is not final once executions overlap: for every job the processor can
      transform there is a run in which no failed write has an effect, visibility
      expires once, the job is recorded done, and then failed. */
  lemma OverlapUndoesDone(c: Config, id: string, spec: Spec, source: Blob)
    returns (start: State, before: seq<Event>, after: seq<Event>)
    requires id != "" && Usable(spec) && c.processor(source, spec).Success?
    requires c.redrive >= 2 && c.batch >= 1
    ensures UndoesDone(FailuresClean, c, start, before, after, id)
  {
    start := Start(2);
    var es, s := RunToOverlap(c, id, spec, source);
    var job := C.NewJob(id, spec, 0);
    var fs, s1 := RunToDone(FailuresClean, c, s, id, job, source);
    LeadsOn(FailuresClean, c, start, es, s, fs, s1);
    before := es + fs;
    assert s1.threads[1] == s1.threads[1..][0] == s.threads[1];
    var s2;
    after, s2 := RunToFailed(c, s1, id, job);
  }

  /** Nor is it when an enqueue fails late, with a single worker: the message is
      sent, the worker records the job done, and the request, told that the
      message was not sent, goes on to mark the job failed. */
  lemma LateEnqueueUndoesDone(c: Config, id: string, spec: Spec, source: Blob)
    returns (start: State, before: seq<Event>, after: seq<Event>)
    requires id != "" && Usable(spec) && c.processor(source, spec).Success?
    requires c.redrive >= 1 && c.batch >= 1
    ensures UndoesDone(ExecutionsApart, c, start, before, after, id) && |start.threads| == 1
  {
    start := Start(1);
    var es, s := RunToSent(ExecutionsApart, c, 1, id, spec, source, FailsLate("timed out", 0));
    var job := C.NewJob(id, spec, 0);
    var fs, s1 := RunToLoaded(ExecutionsApart, c, s, id, 0);
    LeadsOn(ExecutionsApart, c, start, es, s, fs, s1);
    var gs, s2 := RunToDone(ExecutionsApart, c, s1, id, job, source);
    LeadsOn(ExecutionsApart, c, start, es + fs, s1, gs, s2);
    before := es + fs + gs;
    var s3;
    after, s3 := RunToCompensated(c, s2, id);
  }

  // A worker has the job claimed, and the request that sent it does not know.
  lemma RunToMidway(c: Config, id: string, spec: Spec, source: Blob)
    returns (es: seq<Event>, s: State)
    requires id != "" && Usable(spec) && c.redrive >= 1 && c.batch >= 1
    ensures Leads(ExecutionsApart, c, Start(1), es, s)
    ensures id in s.data.jobs && s.data.jobs[id].status == Processing
    ensures |s.requests| == 1 && s.requests[0].MarkFailed? && s.requests[0].id == id
  {
    var s0, s1;
    es, s0 := RunToSent(ExecutionsApart, c, 1, id, spec, source, FailsLate("timed out", 0));
    var fs;
    fs, s1 := RunToLoaded(ExecutionsApart, c, s0, id, 0);
    LeadsOn(ExecutionsApart, c, Start(1), es, s0, fs, s1);
    es, s := LeadsOne(ExecutionsApart, c, Start(1), es + fs, s1, Step(0, Ok(0)));
  }

  lemma MarkMidway(c: Config, s: State, id: string, marks: Event)
    requires id in s.data.jobs && s.data.jobs[id].status == Processing && marks == RequestStep(0, Ok(0))
    requires |s.requests| == 1 && s.requests[0].MarkFailed? && s.requests[0].id == id
    ensures Enabled(c, s, marks) && WritesStatus(s, marks, id) && AsExpected(s, marks, id)
    ensures StatusOf(s, id) == Some(Processing) && StatusOf(Apply(c, s, marks), id) == Some(Failed)
  {
  }

  /** A request can come to mark its job failed while a worker has it processing,
      and that too is along the lifecycle: pending is not all it may find. */
  lemma MarkingMidway(c: Config, id: string, spec: Spec, source: Blob)
    returns (start: State, before: seq<Event>, marks: Event)
    requires id != "" && Usable(spec) && c.redrive >= 1 && c.batch >= 1
    ensures Initial(start) && ValidRun(c, start, before)
    ensures
      var mid := Final(c, start, before);
      && Enabled(c, mid, marks) && marks.RequestStep? && WritesStatus(mid, marks, id)
      && StatusOf(mid, id) == Some(Processing)
      && StatusOf(Apply(c, mid, marks), id) == Some(Failed) && AsExpected(mid, marks, id)
  {
    start, marks := Start(1), RequestStep(0, Ok(0));
    var s;
    before, s := RunToMidway(c, id, spec, source);
    MarkMidway(c, s, id, marks);
  }
}
