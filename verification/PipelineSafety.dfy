/** One inductive invariant of the pipeline that survives every interleaving,
    duplicate, crash and failing call, and what it says about jobs, objects and
    messages. */
module PipelineSafety {
  import opened Wrappers
  import opened Domain
  import opened Keys
  import opened Repository
  import opened Ports
  import opened Receipts
  import opened Pipeline
  import P = ProcessJob
  import C = CreateJob

  // ---------------------------------------------------------------- jobs

  predicate LeftPending(d: Data, id: string) {
    id in d.jobs && d.jobs[id].status != Pending
  }

  /** A record is filed under its identifier with its original in place; a
      result key is the one its format calls for and names a stored object; a
      done job has one; and the error text is there exactly for failed jobs. */
  predicate JobOk(d: Data, id: string)
    requires id in d.jobs
  {
    var job := d.jobs[id];
    && id != "" && job.id == id && Usable(job.spec)
    && KnownStatus(job.status)
    && job.originalKey == OriginalKey(id) && OriginalKey(id) in d.store
    && (job.resultKey != "" ==>
          job.resultKey == ResultKey(id, job.spec) && job.resultKey in d.store)
    && (job.status == Done ==> job.resultKey != "")
    && (job.error != "" <==> job.status == Failed)
  }

  /** The object under a job's result key, if there is one, is the transform of
      that job's original. */
  predicate ResultOk(p: Processor, d: Data, id: string)
    requires id in d.jobs
  {
    var job := d.jobs[id];
    var key := ResultKey(id, job.spec);
    key in d.store ==>
      OriginalKey(id) in d.store &&
      p(d.store[OriginalKey(id)], job.spec) == Success(d.store[key])
  }

  ghost predicate DataOk(p: Processor, d: Data, used: set<string>) {
    && d.jobs.Keys <= used
    && (forall id :: id in d.jobs ==> JobOk(d, id) && ResultOk(p, d, id))
    && (forall id :: OriginalKey(id) in d.store ==> id in used)
    && (forall id, spec: Spec :: KnownFormat(spec.format) && ResultKey(id, spec) in d.store ==> id in d.jobs)
  }

  // -------------------------------------------------------------- broker

  predicate HandleFor(s: State, h: Handle, id: string) {
    h < |s.handles| && s.handles[h] < |s.msgs| && s.msgs[s.handles[h]].body == id
  }

  predicate MsgOk(s: State, msg: Msg) {
    && msg.body in s.data.jobs
    && (msg.place == Deleted ==> LeftPending(s.data, msg.body))
  }

  ghost predicate BrokerOk(s: State) {
    && (forall m :: 0 <= m < |s.msgs| ==> MsgOk(s, s.msgs[m]))
    && (forall h :: 0 <= h < |s.handles| ==> s.handles[h] < |s.msgs|)
  }

  ghost predicate HasMessage(s: State, id: string) {
    exists m :: 0 <= m < |s.msgs| && s.msgs[m].body == id
  }

  // ------------------------------------------------------------ requests

  predicate Unsaved(pc: C.Pc) {
    pc.PutOriginal? || pc.SaveRecord?
  }

  ghost predicate RequestOk(s: State, pc: C.Pc) {
    match pc
    case PutOriginal(id, spec, _) =>
      && id != "" && id in s.used && id !in s.data.jobs && Usable(spec)
      && OriginalKey(id) !in s.data.store
    case SaveRecord(id, spec) =>
      && id != "" && id in s.used && id !in s.data.jobs && Usable(spec)
      && OriginalKey(id) in s.data.store
    case Enqueue(job) => job.id in s.data.jobs
    case MarkFailed(id, cause) => id in s.data.jobs && cause != ""
    case Accepted(job) => job.id in s.data.jobs && HasMessage(s, job.id)
    case Refused(_) => true
  }

  ghost predicate RequestsOk(s: State) {
    && (forall i :: 0 <= i < |s.requests| ==> RequestOk(s, s.requests[i]))
    && (forall i, k :: 0 <= i < k < |s.requests| && Unsaved(s.requests[i]) && Unsaved(s.requests[k]) ==>
          s.requests[i].id != s.requests[k].id)
  }

  // ------------------------------------------------------------- workers

  // The copy of the record a worker loaded. Its status may be out of date; its
  // key and specification never are.
  predicate Snapshot(d: Data, id: string, job: Job) {
    && id in d.jobs
    && job.id == id && job.originalKey == OriginalKey(id) && job.spec == d.jobs[id].spec
  }

  predicate PcOk(p: Processor, d: Data, id: string, pc: P.Pc) {
    match pc
    case Load => id in d.jobs
    case Claim(job) => Snapshot(d, id, job)
    case Read(job) => Snapshot(d, id, job) && LeftPending(d, id)
    case Transform(job, source) =>
      && Snapshot(d, id, job) && LeftPending(d, id)
      && OriginalKey(id) in d.store && d.store[OriginalKey(id)] == source
    case StoreResult(job, output) =>
      && Snapshot(d, id, job) && LeftPending(d, id)
      && OriginalKey(id) in d.store
      && p(d.store[OriginalKey(id)], job.spec) == Success(output)
    case MarkDone(job) =>
      Snapshot(d, id, job) && LeftPending(d, id) && ResultKey(id, job.spec) in d.store
    case MarkFailed(job, _) => Snapshot(d, id, job) && LeftPending(d, id)
    case Returned(_, _) => false
  }

  predicate WorkOk(p: Processor, s: State, w: Work) {
    match w
    case Idle => true
    case Running(id, pc) => PcOk(p, s.data, id, pc)
    case Settling(id, done) => id in s.data.jobs && (done ==> LeftPending(s.data, id))
    case Calling(id, done, h) =>
      id in s.data.jobs && HandleFor(s, h, id) && (done ==> LeftPending(s.data, id))
  }

  predicate ThreadOk(p: Processor, s: State, t: Thread) {
    t.proc < |s.consumers| && WorkOk(p, s, t.work)
  }

  predicate ConsumerOk(s: State, k: Consumer) {
    && (forall i :: 0 <= i < |k.response| ==>
          HandleFor(s, k.response[i].handle, k.response[i].body) && k.response[i].body in s.data.jobs)
    && (forall i :: 0 <= i < |k.pending| ==> k.pending[i] in s.data.jobs)
    && (forall id :: id in k.receipts ==> HandleFor(s, k.receipts[id], id))
  }

  ghost predicate ProcessesOk(p: Processor, s: State) {
    && (forall t :: 0 <= t < |s.threads| ==> ThreadOk(p, s, s.threads[t]))
    && (forall q :: 0 <= q < |s.consumers| ==> ConsumerOk(s, s.consumers[q]))
  }

  ghost predicate Inv(c: Config, s: State) {
    && DataOk(c.processor, s.data, s.used)
    && BrokerOk(s)
    && RequestsOk(s)
    && ProcessesOk(c.processor, s)
  }

  // ------------------------------------------------------- what only grows

  /** What no event undoes: records stay and keep their specification, no job
      returns to pending, objects stay, an original never changes, messages keep
      their body and handles their message. */
  ghost predicate DataGrows(d: Data, d': Data) {
    && (forall id :: id in d.jobs ==>
          && id in d'.jobs && d'.jobs[id].spec == d.jobs[id].spec
          && (LeftPending(d, id) ==> LeftPending(d', id)))
    && (forall key :: key in d.store ==> key in d'.store)
    && (forall id :: OriginalKey(id) in d.store ==>
          d'.store[OriginalKey(id)] == d.store[OriginalKey(id)])
  }

  ghost predicate Grows(s: State, s': State) {
    && DataGrows(s.data, s'.data)
    && s.used <= s'.used
    && |s.msgs| <= |s'.msgs| && s.handles <= s'.handles
    && (forall m :: 0 <= m < |s.msgs| ==> s'.msgs[m].body == s.msgs[m].body)
    && |s.consumers| == |s'.consumers| && |s.threads| == |s'.threads|
  }

  lemma GrowsTransitive(a: State, b: State, c: State)
    requires Grows(a, b) && Grows(b, c)
    ensures Grows(a, c)
  {
  }

  lemma HandleKept(s: State, s': State, h: Handle, id: string)
    requires Grows(s, s') && HandleFor(s, h, id)
    ensures HandleFor(s', h, id)
  {
    assert s'.handles[h] == s.handles[h];
  }

  lemma WorkKept(p: Processor, s: State, s': State, w: Work)
    requires Grows(s, s') && WorkOk(p, s, w)
    ensures WorkOk(p, s', w)
  {
    if w.Calling? {
      HandleKept(s, s', w.handle, w.id);
    }
  }

  lemma ConsumerKept(s: State, s': State, k: Consumer)
    requires Grows(s, s') && ConsumerOk(s, k)
    ensures ConsumerOk(s', k)
  {
    forall i | 0 <= i < |k.response| ensures HandleFor(s', k.response[i].handle, k.response[i].body) {
      HandleKept(s, s', k.response[i].handle, k.response[i].body);
    }
    forall id | id in k.receipts ensures HandleFor(s', k.receipts[id], id) {
      HandleKept(s, s', k.receipts[id], id);
    }
  }

  lemma RequestKept(s: State, s': State, pc: C.Pc)
    requires Grows(s, s') && RequestOk(s, pc)
    requires Unsaved(pc) ==> pc.id !in s'.data.jobs
    requires pc.PutOriginal? ==> OriginalKey(pc.id) !in s'.data.store
    ensures RequestOk(s', pc)
  {
    if pc.Accepted? {
      var m :| 0 <= m < |s.msgs| && s.msgs[m].body == pc.job.id;
      assert s'.msgs[m].body == pc.job.id;
    }
  }

  // Everything an event does not touch carries over.
  lemma ProcessesKept(p: Processor, s: State, s': State, t: int, q: int)
    requires Grows(s, s') && ProcessesOk(p, s)
    requires forall i :: 0 <= i < |s.threads| && i != t ==> s'.threads[i] == s.threads[i]
    requires forall i :: 0 <= i < |s.consumers| && i != q ==> s'.consumers[i] == s.consumers[i]
    requires 0 <= t < |s.threads| ==> ThreadOk(p, s', s'.threads[t])
    requires 0 <= q < |s.consumers| ==> ConsumerOk(s', s'.consumers[q])
    ensures ProcessesOk(p, s')
  {
    forall i | 0 <= i < |s'.threads| ensures ThreadOk(p, s', s'.threads[i]) {
      if i != t {
        WorkKept(p, s, s', s.threads[i].work);
      }
    }
    forall i | 0 <= i < |s'.consumers| ensures ConsumerOk(s', s'.consumers[i]) {
      if i != q {
        ConsumerKept(s, s', s.consumers[i]);
      }
    }
  }

  lemma RequestsKept(s: State, s': State)
    requires Grows(s, s') && RequestsOk(s) && s'.requests == s.requests
    requires s'.data.jobs.Keys == s.data.jobs.Keys
    requires forall id :: OriginalKey(id) in s'.data.store ==> OriginalKey(id) in s.data.store
    ensures RequestsOk(s')
  {
    forall i | 0 <= i < |s.requests| ensures RequestOk(s', s.requests[i]) {
      RequestKept(s, s', s.requests[i]);
    }
  }

  lemma BrokerKept(s: State, s': State)
    requires Grows(s, s') && BrokerOk(s)
    requires |s'.msgs| == |s.msgs|
    requires forall h :: |s.handles| <= h < |s'.handles| ==> s'.handles[h] < |s'.msgs|
    requires forall m :: 0 <= m < |s.msgs| && s'.msgs[m].place == Deleted ==>
               s.msgs[m].place == Deleted || LeftPending(s'.data, s'.msgs[m].body)
    ensures BrokerOk(s')
  {
    forall m | 0 <= m < |s'.msgs| ensures MsgOk(s', s'.msgs[m]) {
      assert MsgOk(s, s.msgs[m]);
      assert LeftPending(s.data, s.msgs[m].body) ==> LeftPending(s'.data, s.msgs[m].body);
    }
    forall h | 0 <= h < |s'.handles| ensures s'.handles[h] < |s'.msgs| {
      assert h < |s.handles| ==> s'.handles[h] == s.handles[h];
    }
  }

  // ------------------------------------------------- writes to the data

  // A status update on a known job. The caller shows that the new record is in
  // order; everything about other jobs is untouched.
  lemma UpdateOk(p: Processor, d: Data, used: set<string>, id: string, status: JobStatus,
                 key: string, failure: Option<string>, now: Instant)
    requires DataOk(p, d, used) && id in d.jobs
    requires KnownStatus(status) && status != Pending
    requires key != "" ==> key == ResultKey(id, d.jobs[id].spec) && key in d.store
    requires status == Done ==> key != ""
    requires status == Failed <==> failure.Some?
    requires failure.Some? ==> failure.value != ""
    ensures var d' := d.(jobs := d.jobs[id := Updated(d.jobs[id], status, key, failure, now)]);
            DataOk(p, d', used) && DataGrows(d, d')
  {
    var d' := d.(jobs := d.jobs[id := Updated(d.jobs[id], status, key, failure, now)]);
    forall other | other in d'.jobs ensures JobOk(d', other) && ResultOk(p, d', other) {
      assert JobOk(d, other) && ResultOk(p, d, other);
    }
  }

  // A first write of an original.
  lemma PutOriginalOk(p: Processor, d: Data, used: set<string>, id: string, blob: Blob)
    requires DataOk(p, d, used) && id in used && OriginalKey(id) !in d.store
    ensures var d' := d.(store := d.store[OriginalKey(id) := blob]);
            DataOk(p, d', used) && DataGrows(d, d')
    ensures forall other :: OriginalKey(other) in d.store[OriginalKey(id) := blob] ==>
              OriginalKey(other) in d.store || other == id
  {
    var d' := d.(store := d.store[OriginalKey(id) := blob]);
    forall other | OriginalKey(other) == OriginalKey(id) ensures other == id {
      OriginalKeyInjective(other, id);
    }
    forall other, spec ensures ResultKey(other, spec) != OriginalKey(id) {
      OriginalIsNotResult(id, other, spec);
    }
    forall other | other in d'.jobs ensures JobOk(d', other) && ResultOk(p, d', other) {
      assert JobOk(d, other) && ResultOk(p, d, other);
    }
  }

  // A write of a result, first or repeated: the object is the same each time.
  lemma PutResultOk(p: Processor, d: Data, used: set<string>, id: string, blob: Blob)
    requires DataOk(p, d, used) && id in d.jobs
    requires p(d.store[OriginalKey(id)], d.jobs[id].spec) == Success(blob)
    ensures var d' := d.(store := d.store[ResultKey(id, d.jobs[id].spec) := blob]);
            DataOk(p, d', used) && DataGrows(d, d')
    ensures forall other :: OriginalKey(other) != ResultKey(id, d.jobs[id].spec)
  {
    var key := ResultKey(id, d.jobs[id].spec);
    var d' := d.(store := d.store[key := blob]);
    assert JobOk(d, id);
    forall other ensures OriginalKey(other) != key {
      OriginalIsNotResult(other, id, d.jobs[id].spec);
    }
    forall other, spec: Spec | KnownFormat(spec.format) && ResultKey(other, spec) == key ensures other == id {
      ResultKeyInjective(other, spec, id, d.jobs[id].spec);
    }
    forall other | other in d'.jobs ensures JobOk(d', other) && ResultOk(p, d', other) {
      assert JobOk(d, other) && ResultOk(p, d, other);
    }
  }

  // The first write of a record.
  lemma SaveOk(p: Processor, d: Data, used: set<string>, id: string, spec: Spec, now: Instant)
    requires DataOk(p, d, used) && id != "" && Usable(spec) && id in used && id !in d.jobs
    requires OriginalKey(id) in d.store
    ensures var d' := d.(jobs := d.jobs[id := C.NewJob(id, spec, now)]);
            DataOk(p, d', used) && DataGrows(d, d')
  {
    var d' := d.(jobs := d.jobs[id := C.NewJob(id, spec, now)]);
    forall other | other in d'.jobs ensures JobOk(d', other) && ResultOk(p, d', other) {
      if other != id {
        assert JobOk(d, other) && ResultOk(p, d, other);
      }
    }
  }

  // --------------------------------------------------------- every event

  // What executing one position of the use case must keep.
  ghost predicate Advanced(c: Config, d: Data, used: set<string>, id: string, pc': P.Pc, d': Data) {
    && DataOk(c.processor, d', used) && DataGrows(d, d')
    && d'.jobs.Keys == d.jobs.Keys
    && (forall other :: OriginalKey(other) in d'.store ==> OriginalKey(other) in d.store)
    && (!pc'.Returned? ==> PcOk(c.processor, d', id, pc'))
    && (pc'.Returned? && !pc'.verdict.Faulted? ==> LeftPending(d', id))
  }

  lemma AdvanceReads(c: Config, d: Data, used: set<string>, id: string, pc: P.Pc, call: Call)
    requires DataOk(c.processor, d, used) && PcOk(c.processor, d, id, pc)
    requires pc.Load? || pc.Read? || pc.Transform?
    ensures var (pc', d') := P.Advance(c.processor, id, pc, d, call); Advanced(c, d, used, id, pc', d')
  {
    assert JobOk(d, id);
  }

  lemma AdvanceClaim(c: Config, d: Data, used: set<string>, id: string, pc: P.Pc, call: Call)
    requires DataOk(c.processor, d, used) && PcOk(c.processor, d, id, pc)
    requires pc.Claim?
    ensures var (pc', d') := P.Advance(c.processor, id, pc, d, call); Advanced(c, d, used, id, pc', d')
  {
    if call.Effective() {
      UpdateOk(c.processor, d, used, id, Processing, "", None, call.now);
    }
  }

  lemma AdvanceStore(c: Config, d: Data, used: set<string>, id: string, pc: P.Pc, call: Call)
    requires DataOk(c.processor, d, used) && PcOk(c.processor, d, id, pc)
    requires pc.StoreResult?
    ensures var (pc', d') := P.Advance(c.processor, id, pc, d, call); Advanced(c, d, used, id, pc', d')
  {
    PutResultOk(c.processor, d, used, id, pc.output);
  }

  lemma AdvanceDone(c: Config, d: Data, used: set<string>, id: string, pc: P.Pc, call: Call)
    requires DataOk(c.processor, d, used) && PcOk(c.processor, d, id, pc)
    requires pc.MarkDone?
    ensures var (pc', d') := P.Advance(c.processor, id, pc, d, call); Advanced(c, d, used, id, pc', d')
  {
    var key := ResultKey(id, pc.job.spec);
    assert key[0] == 'r';
    if call.Effective() {
      UpdateOk(c.processor, d, used, id, Done, key, None, call.now);
    }
  }

  lemma AdvanceFailed(c: Config, d: Data, used: set<string>, id: string, pc: P.Pc, call: Call)
    requires DataOk(c.processor, d, used) && PcOk(c.processor, d, id, pc)
    requires pc.MarkFailed?
    ensures var (pc', d') := P.Advance(c.processor, id, pc, d, call); Advanced(c, d, used, id, pc', d')
  {
    var text := P.Wrapped(id, pc.cause);
    assert text[0] == 'p';
    if call.Effective() {
      UpdateOk(c.processor, d, used, id, Failed, "", Some(text), call.now);
    }
  }

  lemma AdvanceOk(c: Config, d: Data, used: set<string>, id: string, pc: P.Pc, call: Call)
    requires DataOk(c.processor, d, used) && PcOk(c.processor, d, id, pc)
    ensures var (pc', d') := P.Advance(c.processor, id, pc, d, call); Advanced(c, d, used, id, pc', d')
  {
    match pc
    case Claim(_) => AdvanceClaim(c, d, used, id, pc, call);
    case StoreResult(_, _) => AdvanceStore(c, d, used, id, pc, call);
    case MarkDone(_) => AdvanceDone(c, d, used, id, pc, call);
    case MarkFailed(_, _) => AdvanceFailed(c, d, used, id, pc, call);
    case _ => AdvanceReads(c, d, used, id, pc, call);
  }

  lemma StepOk(c: Config, s: State, t: nat, call: Call)
    requires Inv(c, s) && Enabled(c, s, Step(t, call))
    ensures var s' := Apply(c, s, Step(t, call)); Inv(c, s') && Grows(s, s')
  {
    var s' := Apply(c, s, Step(t, call));
    var w := s.threads[t].work;
    assert ThreadOk(c.processor, s, s.threads[t]);
    AdvanceOk(c, s.data, s.used, w.id, w.pc, call);
    RequestsKept(s, s');
    ProcessesKept(c.processor, s, s', t, -1);
    BrokerKept(s, s');
  }

  // What one position of a request must keep.
  ghost predicate RequestAdvanced(p: Processor, s: State, pc: C.Pc, d: Data, sent: seq<string>) {
    && DataOk(p, d, s.used) && DataGrows(s.data, d)
    && (forall k :: 0 <= k < |sent| ==> sent[k] in d.jobs)
    && (forall id :: id in d.jobs && id !in s.data.jobs ==> Unsaved(pc) && id == pc.id)
    && (forall id :: OriginalKey(id) in d.store && OriginalKey(id) !in s.data.store ==>
          Unsaved(pc) && id == pc.id)
  }

  lemma PutOriginalAdvances(p: Processor, s: State, pc: C.Pc, call: Call)
    requires DataOk(p, s.data, s.used) && RequestOk(s, pc) && pc.PutOriginal?
    ensures var (_, d, sent) := C.Advance(pc, s.data, call); RequestAdvanced(p, s, pc, d, sent)
  {
    PutOriginalOk(p, s.data, s.used, pc.id, pc.source);
  }

  lemma SaveAdvances(p: Processor, s: State, pc: C.Pc, call: Call)
    requires DataOk(p, s.data, s.used) && RequestOk(s, pc) && pc.SaveRecord?
    ensures var (_, d, sent) := C.Advance(pc, s.data, call); RequestAdvanced(p, s, pc, d, sent)
  {
    if call.Effective() {
      SaveOk(p, s.data, s.used, pc.id, pc.spec, call.now);
    }
  }

  lemma EnqueueAdvances(p: Processor, s: State, pc: C.Pc, call: Call)
    requires DataOk(p, s.data, s.used) && RequestOk(s, pc) && pc.Enqueue?
    ensures var (_, d, sent) := C.Advance(pc, s.data, call); RequestAdvanced(p, s, pc, d, sent)
  {
  }

  lemma MarkFailedAdvances(p: Processor, s: State, pc: C.Pc, call: Call)
    requires DataOk(p, s.data, s.used) && RequestOk(s, pc) && pc.MarkFailed?
    ensures var (_, d, sent) := C.Advance(pc, s.data, call); RequestAdvanced(p, s, pc, d, sent)
  {
    if call.Effective() {
      UpdateOk(p, s.data, s.used, pc.id, Failed, "", Some(pc.cause), call.now);
    }
  }

  lemma RequestAdvanceOk(c: Config, s: State, i: nat, call: Call)
    requires Inv(c, s) && Enabled(c, s, RequestStep(i, call))
    ensures var (_, d, sent) := C.Advance(s.requests[i], s.data, call);
            RequestAdvanced(c.processor, s, s.requests[i], d, sent)
  {
    var pc := s.requests[i];
    assert RequestOk(s, pc);
    match pc
    case PutOriginal(_, _, _) => PutOriginalAdvances(c.processor, s, pc, call);
    case SaveRecord(_, _) => SaveAdvances(c.processor, s, pc, call);
    case Enqueue(_) => EnqueueAdvances(c.processor, s, pc, call);
    case MarkFailed(_, _) => MarkFailedAdvances(c.processor, s, pc, call);
  }

  lemma RequestStepGrows(c: Config, s: State, i: nat, call: Call)
    requires Inv(c, s) && Enabled(c, s, RequestStep(i, call))
    ensures var s' := Apply(c, s, RequestStep(i, call));
            Grows(s, s') && DataOk(c.processor, s'.data, s'.used) && BrokerOk(s')
  {
    var s' := Apply(c, s, RequestStep(i, call));
    RequestAdvanceOk(c, s, i, call);
    assert Grows(s, s');
    forall m | 0 <= m < |s'.msgs| ensures MsgOk(s', s'.msgs[m]) {
      if m < |s.msgs| {
        assert MsgOk(s, s.msgs[m]);
      }
    }
  }

  // The position a request moves to is in order.
  lemma NextRequestOk(c: Config, s: State, i: nat, call: Call)
    requires Inv(c, s) && Enabled(c, s, RequestStep(i, call))
    ensures var s' := Apply(c, s, RequestStep(i, call)); RequestOk(s', s'.requests[i])
    ensures Unsaved(Apply(c, s, RequestStep(i, call)).requests[i]) ==>
              Unsaved(s.requests[i]) &&
              Apply(c, s, RequestStep(i, call)).requests[i].id == s.requests[i].id
  {
    var s' := Apply(c, s, RequestStep(i, call));
    var pc := s.requests[i];
    assert RequestOk(s, pc);
    if pc.Enqueue? {
      if call.Ok? {
        assert s'.msgs[|s.msgs|].body == pc.job.id;
      } else {
        assert C.Wrapped(pc.job.id, "enqueue: " + call.cause)[0] == 'c';
      }
    }
  }

  lemma RequestsStayOk(c: Config, s: State, i: nat, call: Call)
    requires RequestsOk(s) && Enabled(c, s, RequestStep(i, call))
    requires Grows(s, Apply(c, s, RequestStep(i, call)))
    requires var (_, d, sent) := C.Advance(s.requests[i], s.data, call);
             RequestAdvanced(c.processor, s, s.requests[i], d, sent)
    requires var s' := Apply(c, s, RequestStep(i, call));
             && RequestOk(s', s'.requests[i])
             && (Unsaved(s'.requests[i]) ==> Unsaved(s.requests[i]) && s'.requests[i].id == s.requests[i].id)
    ensures RequestsOk(Apply(c, s, RequestStep(i, call)))
  {
    var s' := Apply(c, s, RequestStep(i, call));
    forall k | 0 <= k < |s'.requests| ensures RequestOk(s', s'.requests[k]) {
      if k != i {
        assert RequestOk(s, s.requests[k]);
        RequestKept(s, s', s.requests[k]);
      }
    }
  }

  lemma RequestStepOk(c: Config, s: State, i: nat, call: Call)
    requires Inv(c, s) && Enabled(c, s, RequestStep(i, call))
    ensures var s' := Apply(c, s, RequestStep(i, call)); Inv(c, s') && Grows(s, s')
  {
    var s' := Apply(c, s, RequestStep(i, call));
    RequestStepGrows(c, s, i, call);
    RequestAdvanceOk(c, s, i, call);
    NextRequestOk(c, s, i, call);
    ProcessesKept(c.processor, s, s', -1, -1);
    RequestsStayOk(c, s, i, call);
  }

  lemma SubmitOk(c: Config, s: State, e: Event)
    requires Inv(c, s) && Enabled(c, s, e) && (e.Submit? || e.RequestCrash?)
    ensures var s' := Apply(c, s, e); Inv(c, s') && Grows(s, s')
  {
    var s' := Apply(c, s, e);
    ProcessesKept(c.processor, s, s', -1, -1);
    forall k | 0 <= k < |s.requests| ensures RequestOk(s', s.requests[k]) {
      RequestKept(s, s', s.requests[k]);
    }
    BrokerKept(s, s');
  }

  lemma HandOutOk(c: Config, s: State, p: nat, m: nat)
    requires Inv(c, s) && Enabled(c, s, HandOut(p, m))
    ensures var s' := Apply(c, s, HandOut(p, m)); Inv(c, s') && Grows(s, s')
  {
    var s' := Apply(c, s, HandOut(p, m));
    assert ConsumerOk(s, s.consumers[p]) && MsgOk(s, s.msgs[m]);
    RequestsKept(s, s');
    BrokerKept(s, s');
    ConsumerKept(s, s', s.consumers[p]);
    ProcessesKept(c.processor, s, s', -1, p);
  }

  lemma BrokerEventOk(c: Config, s: State, e: Event)
    requires Inv(c, s) && Enabled(c, s, e) && (e.Expire? || e.Redrive?)
    ensures var s' := Apply(c, s, e); Inv(c, s') && Grows(s, s')
  {
    var s' := Apply(c, s, e);
    RequestsKept(s, s');
    BrokerKept(s, s');
    ProcessesKept(c.processor, s, s', -1, -1);
  }

  lemma {:induction false} RecordedOk(s: State, k: Consumer, n: nat)
    requires ConsumerOk(s, k) && n <= |k.response|
    ensures var ms := k.response[..n];
            && (forall id :: id in Recorded(k.receipts, ms) ==> HandleFor(s, Recorded(k.receipts, ms)[id], id))
            && (forall i :: 0 <= i < |Bodies(ms)| ==> Bodies(ms)[i] in s.data.jobs)
  {
    if n > 0 {
      RecordedOk(s, k, n - 1);
      assert k.response[..n][..n - 1] == k.response[..n - 1];
      assert HandleFor(s, k.response[n - 1].handle, k.response[n - 1].body);
    }
  }

  lemma PolledOk(s: State, k: Consumer)
    requires ConsumerOk(s, k)
    ensures ConsumerOk(s, Consumer([], Bodies(k.response), Recorded(k.receipts, k.response)))
  {
    RecordedOk(s, k, |k.response|);
    assert k.response[..|k.response|] == k.response;
  }

  // A change to one consumer alone.
  lemma ConsumerChangeOk(c: Config, s: State, p: nat, k: Consumer)
    requires Inv(c, s) && p < |s.consumers| && ConsumerOk(s, k)
    ensures Inv(c, WithConsumer(s, p, k)) && Grows(s, WithConsumer(s, p, k))
  {
    var s' := WithConsumer(s, p, k);
    RequestsKept(s, s');
    BrokerKept(s, s');
    ConsumerKept(s, s', k);
    ProcessesKept(c.processor, s, s', -1, p);
  }

  lemma ConsumerEventOk(c: Config, s: State, e: Event)
    requires Inv(c, s) && Enabled(c, s, e) && (e.PollReturns? || e.PollLost? || e.StopConsumer?)
    ensures var s' := Apply(c, s, e); Inv(c, s') && Grows(s, s')
  {
    var k := s.consumers[e.p];
    assert ConsumerOk(s, k);
    match e
    case PollReturns(p) =>
      PolledOk(s, k);
      ConsumerChangeOk(c, s, p, Consumer([], Bodies(k.response), Recorded(k.receipts, k.response)));
    case PollLost(p) => ConsumerChangeOk(c, s, p, k.(response := []));
    case StopConsumer(p) => ConsumerChangeOk(c, s, p, k.(response := [], pending := []));
  }

  // A change to one thread and its consumer.
  lemma ThreadChangeOk(c: Config, s: State, t: nat, p: nat, w: Work, k: Consumer)
    requires Inv(c, s) && t < |s.threads| && p < |s.consumers|
    requires WorkOk(c.processor, s, w) && ConsumerOk(s, k)
    ensures var s' := WithThread(WithConsumer(s, p, k), t, w); Inv(c, s') && Grows(s, s')
  {
    var s' := WithThread(WithConsumer(s, p, k), t, w);
    assert ThreadOk(c.processor, s, s.threads[t]);
    RequestsKept(s, s');
    BrokerKept(s, s');
    ConsumerKept(s, s', k);
    WorkKept(c.processor, s, s', w);
    ProcessesKept(c.processor, s, s', t, p);
  }

  lemma PickOk(c: Config, s: State, t: nat)
    requires Inv(c, s) && Enabled(c, s, Pick(t))
    ensures var s' := Apply(c, s, Pick(t)); Inv(c, s') && Grows(s, s')
  {
    var p := s.threads[t].proc;
    var k := s.consumers[p];
    assert ConsumerOk(s, k) && k.pending[0] in s.data.jobs;
    ThreadChangeOk(c, s, t, p, Running(k.pending[0], P.Load), k.(pending := k.pending[1..]));
  }

  lemma TakeReceiptOk(c: Config, s: State, t: nat)
    requires Inv(c, s) && Enabled(c, s, TakeReceipt(t))
    ensures var s' := Apply(c, s, TakeReceipt(t)); Inv(c, s') && Grows(s, s')
  {
    var p := s.threads[t].proc;
    var w, k := s.threads[t].work, s.consumers[p];
    assert ThreadOk(c.processor, s, s.threads[t]) && ConsumerOk(s, k);
    if w.id in k.receipts {
      ThreadChangeOk(c, s, t, p, Calling(w.id, w.done, k.receipts[w.id]),
                     k.(receipts := k.receipts - {w.id}));
    } else {
      ThreadChangeOk(c, s, t, p, Idle, k);
      assert WithConsumer(s, p, k) == s;
    }
  }

  predicate SettledFrom(s: State, mid: State, h: Handle, done: bool) {
    && mid == s.(msgs := mid.msgs) && |mid.msgs| == |s.msgs|
    && (forall m :: 0 <= m < |s.msgs| ==>
          && mid.msgs[m].body == s.msgs[m].body
          && (mid.msgs[m].place == Deleted ==>
                s.msgs[m].place == Deleted || (done && HandleFor(s, h, s.msgs[m].body))))
  }

  lemma SettledOnly(s: State, h: Handle, done: bool, call: Call, honoured: bool)
    ensures SettledFrom(s, Settled(s, h, done, call, honoured), h, done)
  {
  }

  lemma SettledKeepsInv(c: Config, s: State, mid: State, t: nat)
    requires Inv(c, s) && t < |s.threads| && s.threads[t].work.Calling?
    requires SettledFrom(s, mid, s.threads[t].work.handle, s.threads[t].work.done)
    ensures var s' := WithThread(mid, t, Idle).(spent := s.spent + [s.threads[t].work.handle]);
            Inv(c, s') && Grows(s, s')
  {
    var s' := WithThread(mid, t, Idle).(spent := s.spent + [s.threads[t].work.handle]);
    assert ThreadOk(c.processor, s, s.threads[t]);
    RequestsKept(s, s');
    BrokerKept(s, s');
    ProcessesKept(c.processor, s, s', t, -1);
  }

  lemma SettleOk(c: Config, s: State, t: nat, call: Call, honoured: bool)
    requires Inv(c, s) && Enabled(c, s, Settle(t, call, honoured))
    ensures var s' := Apply(c, s, Settle(t, call, honoured)); Inv(c, s') && Grows(s, s')
  {
    var w := s.threads[t].work;
    SettledOnly(s, w.handle, w.done, call, honoured);
    SettledKeepsInv(c, s, Settled(s, w.handle, w.done, call, honoured), t);
  }

  lemma CrashOk(c: Config, s: State, e: Event)
    requires Inv(c, s) && Enabled(c, s, e) && e.Crash?
    ensures var s' := Apply(c, s, e); Inv(c, s') && Grows(s, s')
  {
    var s' := Apply(c, s, e);
    RequestsKept(s, s');
    BrokerKept(s, s');
    forall i | 0 <= i < |s'.threads| ensures ThreadOk(c.processor, s', s'.threads[i]) {
      assert ThreadOk(c.processor, s, s.threads[i]);
      WorkKept(c.processor, s, s', s.threads[i].work);
    }
    forall i | 0 <= i < |s'.consumers| ensures ConsumerOk(s', s'.consumers[i]) {
      if i != e.p {
        ConsumerKept(s, s', s.consumers[i]);
      }
    }
  }

  /** Every event keeps the invariant and undoes nothing. */
  lemma EventKeepsInv(c: Config, s: State, e: Event)
    requires Inv(c, s) && Enabled(c, s, e)
    ensures Inv(c, Apply(c, s, e))
    ensures Grows(s, Apply(c, s, e))
  {
    match e
    case Submit(_, _, _) => SubmitOk(c, s, e);
    case RequestCrash(_) => SubmitOk(c, s, e);
    case RequestStep(i, call) => RequestStepOk(c, s, i, call);
    case HandOut(p, m) => HandOutOk(c, s, p, m);
    case Expire(_) => BrokerEventOk(c, s, e);
    case Redrive(_) => BrokerEventOk(c, s, e);
    case PollReturns(_) => ConsumerEventOk(c, s, e);
    case PollLost(_) => ConsumerEventOk(c, s, e);
    case StopConsumer(_) => ConsumerEventOk(c, s, e);
    case Pick(t) => PickOk(c, s, t);
    case TakeReceipt(t) => TakeReceiptOk(c, s, t);
    case Step(t, call) => StepOk(c, s, t, call);
    case Settle(t, call, honoured) => SettleOk(c, s, t, call, honoured);
    case Crash(_) => CrashOk(c, s, e);
  }

  // ----------------------------------------------------------- whole runs

  lemma {:induction false} RunKeepsInv(c: Config, s: State, es: seq<Event>)
    requires Inv(c, s) && ValidRun(c, s, es)
    ensures Inv(c, Final(c, s, es))
    ensures Grows(s, Final(c, s, es))
    decreases |es|
  {
    if es != [] {
      EventKeepsInv(c, s, es[0]);
      RunKeepsInv(c, Apply(c, s, es[0]), es[1..]);
      GrowsTransitive(s, Apply(c, s, es[0]), Final(c, s, es));
    }
  }

  lemma InitialInv(c: Config, s: State)
    requires Initial(s)
    ensures Inv(c, s)
  {
  }

  /** Every reachable state satisfies the invariant. */
  lemma ReachableInv(c: Config, s: State, es: seq<Event>)
    requires Initial(s) && ValidRun(c, s, es)
    ensures Inv(c, Final(c, s, es))
  {
    InitialInv(c, s);
    RunKeepsInv(c, s, es);
  }

  /** No accepted job is lost: in every reachable state, a job whose request was
      answered with success and that is still pending has a message that is
      waiting, in flight or on the dead-letter queue. */
  lemma AcceptedNotLost(c: Config, s: State, es: seq<Event>, i: nat)
    requires Initial(s) && ValidRun(c, s, es)
    requires var end := Final(c, s, es); i < |end.requests| && end.requests[i].Accepted?
    ensures
      var end := Final(c, s, es);
      var id := end.requests[i].job.id;
      && id in end.data.jobs
      && (end.data.jobs[id].status == Pending ==>
            exists m :: 0 <= m < |end.msgs| && end.msgs[m].body == id && end.msgs[m].place != Deleted)
  {
    ReachableInv(c, s, es);
    var end := Final(c, s, es);
    assert RequestOk(end, end.requests[i]);
    var m :| 0 <= m < |end.msgs| && end.msgs[m].body == end.requests[i].job.id;
    assert MsgOk(end, end.msgs[m]);
  }

  /** A message is deleted only after its job has left pending, and no job ever
      returns to pending: both survive any continuation of any run. */
  lemma DeletedMeansTaken(c: Config, s: State, before: seq<Event>, after: seq<Event>, m: nat)
    requires Initial(s) && ValidRun(c, s, before) && ValidRun(c, Final(c, s, before), after)
    requires var mid := Final(c, s, before); m < |mid.msgs| && mid.msgs[m].place == Deleted
    ensures var mid := Final(c, s, before); LeftPending(mid.data, mid.msgs[m].body)
    ensures LeftPending(Final(c, Final(c, s, before), after).data, Final(c, s, before).msgs[m].body)
  {
    ReachableInv(c, s, before);
    var mid := Final(c, s, before);
    assert MsgOk(mid, mid.msgs[m]);
    RunKeepsInv(c, mid, after);
  }

  /** Confluence: whatever duplicates and concurrent executions happened, the
      object at a job's result key is absent or the transform of that job's
      original, and a job that is done has it. */
  lemma ResultsAreTransforms(c: Config, s: State, es: seq<Event>, id: string)
    requires Initial(s) && ValidRun(c, s, es)
    requires id in Final(c, s, es).data.jobs
    ensures
      var d := Final(c, s, es).data;
      var job := d.jobs[id];
      var key := ResultKey(id, job.spec);
      && OriginalKey(id) in d.store
      && (key in d.store ==> c.processor(d.store[OriginalKey(id)], job.spec) == Success(d.store[key]))
      && (job.status == Done ==> job.resultKey == key && key in d.store)
  {
    ReachableInv(c, s, es);
    var d := Final(c, s, es).data;
    assert JobOk(d, id) && ResultOk(c.processor, d, id);
  }

  /** An original, once stored, is never changed by any continuation. */
  lemma OriginalsNeverChange(c: Config, s: State, before: seq<Event>, after: seq<Event>, id: string)
    requires Initial(s) && ValidRun(c, s, before) && ValidRun(c, Final(c, s, before), after)
    requires OriginalKey(id) in Final(c, s, before).data.store
    ensures
      var mid := Final(c, s, before).data.store;
      var end := Final(c, Final(c, s, before), after).data.store;
      OriginalKey(id) in end && end[OriginalKey(id)] == mid[OriginalKey(id)]
  {
    ReachableInv(c, s, before);
    RunKeepsInv(c, Final(c, s, before), after);
  }

  // The job on whose behalf an event touches the object store.
  function Actor(s: State, e: Event): string {
    match e
    case RequestStep(i, _) =>
      if i < |s.requests| && Unsaved(s.requests[i]) then s.requests[i].id else ""
    case Step(t, _) =>
      if t < |s.threads| && s.threads[t].work.Running? then s.threads[t].work.id else ""
    case _ => ""
  }

  // The objects of one job are the same in two stores.
  predicate SameObjects(before: Store, after: Store, id: string, spec: Spec) {
    && (OriginalKey(id) in before <==> OriginalKey(id) in after)
    && (OriginalKey(id) in before ==> after[OriginalKey(id)] == before[OriginalKey(id)])
    && (ResultKey(id, spec) in before <==> ResultKey(id, spec) in after)
    && (ResultKey(id, spec) in before ==> after[ResultKey(id, spec)] == before[ResultKey(id, spec)])
  }

  lemma PutIsIsolated(before: Store, id: string, spec: Spec, result: bool, blob: Blob,
                      other: string, otherSpec: Spec)
    requires KnownFormat(spec.format) && KnownFormat(otherSpec.format) && other != id
    ensures var key := if result then ResultKey(id, spec) else OriginalKey(id);
            SameObjects(before, before[key := blob], other, otherSpec)
  {
    OriginalIsNotResult(id, other, otherSpec);
    OriginalIsNotResult(other, id, spec);
    if OriginalKey(other) == OriginalKey(id) {
      OriginalKeyInjective(other, id);
    }
    if ResultKey(other, otherSpec) == ResultKey(id, spec) {
      ResultKeyInjective(other, otherSpec, id, spec);
    }
  }

  lemma RequestIsIsolated(c: Config, s: State, i: nat, call: Call, other: string, spec: Spec)
    requires Enabled(c, s, RequestStep(i, call)) && RequestOk(s, s.requests[i])
    requires KnownFormat(spec.format) && other != Actor(s, RequestStep(i, call))
    ensures SameObjects(s.data.store, Apply(c, s, RequestStep(i, call)).data.store, other, spec)
  {
    var pc := s.requests[i];
    if pc.PutOriginal? {
      PutIsIsolated(s.data.store, pc.id, pc.spec, false, pc.source, other, spec);
    }
  }

  lemma StepIsIsolated(c: Config, s: State, t: nat, call: Call, other: string, spec: Spec)
    requires Enabled(c, s, Step(t, call)) && other != s.threads[t].work.id && KnownFormat(spec.format)
    requires var w := s.threads[t].work;
             w.pc.StoreResult? ==> w.pc.job.id == w.id && Usable(w.pc.job.spec)
    ensures SameObjects(s.data.store, Apply(c, s, Step(t, call)).data.store, other, spec)
  {
    var w := s.threads[t].work;
    if w.pc.StoreResult? {
      PutIsIsolated(s.data.store, w.id, w.pc.job.spec, true, w.pc.output, other, spec);
    }
  }

  lemma WorkerJobOk(c: Config, s: State, t: nat)
    requires Inv(c, s) && t < |s.threads| && s.threads[t].work.Running? && s.threads[t].work.pc.StoreResult?
    ensures var w := s.threads[t].work; w.pc.job.id == w.id && Usable(w.pc.job.spec)
  {
    assert ThreadOk(c.processor, s, s.threads[t]);
    assert JobOk(s.data, s.threads[t].work.id);
  }

  lemma RequestFound(c: Config, s: State, i: nat)
    requires Inv(c, s) && i < |s.requests|
    ensures RequestOk(s, s.requests[i])
  {
  }

  /** No event touches the objects of a job other than the one it acts for. */
  lemma ObjectsAreIsolated(c: Config, s: State, e: Event, other: string, spec: Spec)
    requires Inv(c, s) && Enabled(c, s, e)
    requires KnownFormat(spec.format) && other != Actor(s, e)
    ensures SameObjects(s.data.store, Apply(c, s, e).data.store, other, spec)
  {
    match e
    case RequestStep(i, call) =>
      RequestFound(c, s, i);
      RequestIsIsolated(c, s, i, call, other, spec);
      assert e == RequestStep(i, call);
    case Step(t, call) =>
      if s.threads[t].work.pc.StoreResult? {
        WorkerJobOk(c, s, t);
      }
      StepIsIsolated(c, s, t, call, other, spec);
      assert e == Step(t, call);
    case _ => assert Apply(c, s, e).data == s.data;
  }
}
