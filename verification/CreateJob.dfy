/** The submitting use case, as the port calls one request makes: the original
    first, then the record, then the message, with a compensating update when
    the message cannot be sent. */
module CreateJob {
  import opened Wrappers
  import opened Domain
  import opened Keys
  import opened Repository
  import opened Ports

  datatype Pc =
    | PutOriginal(id: string, spec: Spec, source: Blob)
    | SaveRecord(id: string, spec: Spec)
    | Enqueue(job: Job)
    | MarkFailed(id: string, cause: string)
    | Accepted(job: Job)
    | Refused(text: string)

  predicate Ended(pc: Pc) {
    pc.Accepted? || pc.Refused?
  }

  function NewJob(id: string, spec: Spec, now: Instant): Job {
    Job(id, OriginalKey(id), "", Pending, spec, now, now, "")
  }

  function Wrapped(id: string, cause: string): string {
    "create job " + id + ": " + cause
  }

  /** The call made at a position, where it leads, and the messages it sends. */
  function Advance(pc: Pc, d: Data, c: Call): (Pc, Data, seq<string>)
    requires !Ended(pc)
  {
    match pc
    case PutOriginal(id, spec, source) =>
      var (d', seen) := PutObject(d, OriginalKey(id), source, c);
      (if seen.Failure? then Refused(Wrapped(id, "store original: " + seen.error))
       else SaveRecord(id, spec),
       d', [])
    case SaveRecord(id, spec) =>
      // The clock is read just before the record is written.
      var job := NewJob(id, spec, if c.Effective() then c.now else 0);
      var (d', seen) := WriteJob(d, SaveJob(Some(job)), c);
      (if seen.Failure? then Refused(Wrapped(id, "save: " + seen.error)) else Enqueue(job),
       d', [])
    case Enqueue(job) =>
      (if c.Ok? then Accepted(job) else MarkFailed(job.id, Wrapped(job.id, "enqueue: " + c.cause)),
       d, if c.Effective() then [job.id] else [])
    case MarkFailed(id, cause) =>
      var (d', seen) := MarkStatus(d, id, Failed, "", Some(cause), c);
      (Refused(if seen.Failure? then cause + "\nmark failed: " + seen.error else cause), d', [])
  }

  function Rank(pc: Pc): nat {
    match pc
    case PutOriginal(_, _, _) => 4
    case SaveRecord(_, _) => 3
    case Enqueue(_) => 2
    case MarkFailed(_, _) => 1
    case Accepted(_) => 0
    case Refused(_) => 0
  }

  type Plan = nat -> Call

  /** One request with no other thread in between. */
  function Solo(pc: Pc, d: Data, plan: Plan): (r: (Pc, Data, seq<string>))
    ensures Ended(r.0)
    decreases Rank(pc)
  {
    if Ended(pc) then (pc, d, [])
    else
      var (pc', d', sent) := Advance(pc, d, plan(Rank(pc)));
      var (end, final, more) := Solo(pc', d', plan);
      (end, final, sent + more)
  }

  lemma SoloStep(pc: Pc, d: Data, plan: Plan)
    requires !Ended(pc)
    ensures var (pc', d', sent) := Advance(pc, d, plan(Rank(pc)));
            var (end, final, more) := Solo(pc', d', plan);
            Solo(pc, d, plan) == (end, final, sent + more)
  {
  }

  // From a saved record to the end.
  lemma SoloEnqueue(job: Job, d: Data, plan: Plan)
    requires job.id in d.jobs
    ensures
      var (pc, end, sent) := Solo(Enqueue(job), d, plan);
      && end.store == d.store
      && sent == (if plan(2).Effective() then [job.id] else [])
      && (pc.Accepted? <==> plan(2).Ok?)
      && (pc.Accepted? ==> pc.job == job)
      && (plan(2).Ok? || plan(1).Fails? ==> end.jobs == d.jobs)
      && (!plan(2).Ok? ==>
            var text := "create job " + job.id + ": " + ("enqueue: " + plan(2).cause);
            && pc == Refused(if plan(1).Ok? then text else text + "\nmark failed: " + plan(1).cause)
            && (plan(1).Effective() ==>
                  end.jobs == d.jobs[job.id := Updated(d.jobs[job.id], Failed, "", Some(text), plan(1).now)]))
  {
    SoloStep(Enqueue(job), d, plan);
    if !plan(2).Ok? {
      var text := Wrapped(job.id, "enqueue: " + plan(2).cause);
      SoloStep(MarkFailed(job.id, text), d, plan);
      assert text[0] == 'c';
    }
  }

  /** What one undisturbed request leaves behind, for every way its calls can
      end. It is accepted exactly when all three writes succeed, and the job
      handed back is the one stored: pending, as requested, with both instants
      read from the clock, no result and no error. A message is only ever sent
      for a job whose record and original are in place. A record left pending
      with no message remains exactly when the save or the enqueue failed and the
      compensation did not happen. */
  lemma SoloOutcome(id: string, spec: Spec, source: Blob, d: Data, plan: Plan)
    requires id != "" && id !in d.jobs
    ensures
      var (pc, end, sent) := Solo(PutOriginal(id, spec, source), d, plan);
      && (pc.Accepted? <==> plan(4).Ok? && plan(3).Ok? && plan(2).Ok?)
      && (pc.Accepted? ==>
            && pc.job == Job(id, OriginalKey(id), "", Pending, spec, plan(3).now, plan(3).now, "")
            && end == Data(d.jobs[id := pc.job], d.store[OriginalKey(id) := source])
            && sent == [id])
      && (sent != [] ==>
            && sent == [id]
            && id in end.jobs && OriginalKey(id) in end.store
            && end.store[OriginalKey(id)] == source)
      && (id in end.jobs <==> plan(4).Ok? && plan(3).Effective())
      && (id in end.jobs ==> end.jobs[id].status == Pending || end.jobs[id].status == Failed)
      && (id in end.jobs && end.jobs[id].status == Pending && sent == [] <==>
            && plan(4).Ok?
            && (plan(3).FailsLate? || (plan(3).Ok? && plan(2).Fails? && plan(1).Fails?)))
      && (forall other :: other in d.jobs ==> other in end.jobs && end.jobs[other] == d.jobs[other])
  {
    SoloStep(PutOriginal(id, spec, source), d, plan);
    if plan(4).Ok? {
      var d1 := d.(store := d.store[OriginalKey(id) := source]);
      SoloStep(SaveRecord(id, spec), d1, plan);
      if plan(3).Ok? {
        var job := NewJob(id, spec, plan(3).now);
        SoloEnqueue(job, d1.(jobs := d1.jobs[id := job]), plan);
      }
    }
  }

  // The first two writes, and where they lead.
  lemma SoloSaved(id: string, spec: Spec, source: Blob, d: Data, plan: Plan)
    requires id != ""
    ensures
      var (pc, end, _) := Solo(PutOriginal(id, spec, source), d, plan);
      var job := NewJob(id, spec, if plan(3).Effective() then plan(3).now else 0);
      var saved := Data(d.jobs[id := job], d.store[OriginalKey(id) := source]);
      && (!plan(4).Ok? ==>
            pc == Refused(Wrapped(id, "store original: " + plan(4).cause)) && end.jobs == d.jobs)
      && (plan(4).Ok? && !plan(3).Ok? ==> pc == Refused(Wrapped(id, "save: " + plan(3).cause)))
      && (plan(4).Ok? && plan(3).Ok? ==>
            pc == Solo(Enqueue(job), saved, plan).0 && end == Solo(Enqueue(job), saved, plan).1)
  {
    SoloStep(PutOriginal(id, spec, source), d, plan);
    if plan(4).Ok? {
      SoloStep(SaveRecord(id, spec), d.(store := d.store[OriginalKey(id) := source]), plan);
    }
  }

  /** What a request is told when one of its first two writes fails: the text
      names the job, the write and the cause. */
  lemma SoloNotSaved(id: string, spec: Spec, source: Blob, d: Data, plan: Plan)
    requires id != ""
    ensures
      var (pc, end, _) := Solo(PutOriginal(id, spec, source), d, plan);
      && (!plan(4).Ok? ==>
            && pc == Refused("create job " + id + ": " + ("store original: " + plan(4).cause))
            && end.jobs == d.jobs)
      && (plan(4).Ok? && !plan(3).Ok? ==>
            pc == Refused("create job " + id + ": " + ("save: " + plan(3).cause)))
  {
    SoloSaved(id, spec, source, d, plan);
  }

  /** And when its message cannot be sent: the text names the job and the cause,
      and is the error text of the record, if that could be marked failed. */
  lemma SoloNotSent(id: string, spec: Spec, source: Blob, d: Data, plan: Plan)
    requires id != "" && plan(4).Ok? && plan(3).Ok? && !plan(2).Ok?
    ensures
      var (pc, end, _) := Solo(PutOriginal(id, spec, source), d, plan);
      var text := "create job " + id + ": " + ("enqueue: " + plan(2).cause);
      var job := Job(id, OriginalKey(id), "", Pending, spec, plan(3).now, plan(3).now, "");
      && pc == Refused(if plan(1).Ok? then text else text + "\nmark failed: " + plan(1).cause)
      && end.jobs == d.jobs[id := if plan(1).Fails? then job
                                  else job.(status := Failed, updatedAt := plan(1).now, error := text)]
  {
    SoloSaved(id, spec, source, d, plan);
    var job := NewJob(id, spec, plan(3).now);
    SoloEnqueue(job, Data(d.jobs[id := job], d.store[OriginalKey(id) := source]), plan);
  }

  datatype Error = NoSource | InvalidSpec(problems: seq<SpecError>) | PortError(text: string)

  /** The use case itself. */
  class UseCase {
    const services: Services

    constructor (services: Services)
      ensures this.services == services
    {
      this.services := services;
    }

    /** An unusable request touches nothing and is told why: that it has no source,
        or every problem with its specification. A usable one runs the program
        above under the identifier newID hands out. */
    method Execute(source: Option<Blob>, spec: Spec, newId: string, plan: Plan)
      returns (r: Result<Job, Error>)
      modifies services
      ensures source.None? || !Usable(spec) ==>
                && services.Contents() == old(services.Contents())
                && services.queued == old(services.queued)
      ensures r == Failure(NoSource) <==> source.None?
      ensures source.Some? && !Usable(spec) ==> r.Failure? && r.error.InvalidSpec?
      ensures r.Failure? && r.error.InvalidSpec? ==>
                && source.Some? && r.error.problems != []
                && (InvalidDimensions in r.error.problems <==>
                      spec.width < 0 || spec.height < 0 || spec.width + spec.height == 0 ||
                      spec.width > 10000 || spec.height > 10000)
                && (InvalidFormat in r.error.problems <==> spec.format.OtherFormat?)
                && (InvalidQuality in r.error.problems <==>
                      spec.quality < 0 || spec.quality > 100 || (spec.quality > 0 && spec.format == PNG))
      ensures source.Some? && Usable(spec) ==>
                var (pc, end, sent) :=
                  Solo(PutOriginal(newId, spec, source.value), old(services.Contents()), plan);
                && services.Contents() == end
                && services.queued == old(services.queued) + sent
                && r == (if pc.Accepted? then Success(pc.job) else Failure(PortError(pc.text)))
    {
      if source.None? {
        return Failure(NoSource);
      }
      var problems := Validate(spec);
      if problems != [] {
        return Failure(InvalidSpec(problems));
      }

      r := Submit(newId, spec, source.value, plan);
    }

    // The three writes, and the compensation.
    method Submit(id: string, spec: Spec, source: Blob, plan: Plan) returns (r: Result<Job, Error>)
      modifies services
      ensures var (pc, end, sent) := Solo(PutOriginal(id, spec, source), old(services.Contents()), plan);
              && services.Contents() == end
              && services.queued == old(services.queued) + sent
              && r == (if pc.Accepted? then Success(pc.job) else Failure(PortError(pc.text)))
    {
      SoloStep(PutOriginal(id, spec, source), services.Contents(), plan);
      var put := services.Put(OriginalKey(id), source, plan(4));
      if put.Failure? {
        return Failure(PortError(Wrapped(id, "store original: " + put.error)));
      }

      SoloStep(SaveRecord(id, spec), services.Contents(), plan);
      var job := NewJob(id, spec, if plan(3).Effective() then plan(3).now else 0);
      var saved := services.Write(SaveJob(Some(job)), plan(3));
      if saved.Failure? {
        return Failure(PortError(Wrapped(id, "save: " + saved.error)));
      }
      r := Publish(job, plan);
    }

    // The message, or the record of why there is none.
    method Publish(job: Job, plan: Plan) returns (r: Result<Job, Error>)
      modifies services
      ensures var (pc, end, sent) := Solo(Enqueue(job), old(services.Contents()), plan);
              && services.Contents() == end
              && services.queued == old(services.queued) + sent
              && r == (if pc.Accepted? then Success(pc.job) else Failure(PortError(pc.text)))
    {
      SoloStep(Enqueue(job), services.Contents(), plan);
      var sent := services.Enqueue(job.id, plan(2));
      if sent.Failure? {
        var text := Wrapped(job.id, "enqueue: " + sent.error);
        SoloStep(MarkFailed(job.id, text), services.Contents(), plan);
        var marked := services.UpdateStatus(job.id, Failed, "", Some(text), plan(1));
        if marked.Failure? {
          return Failure(PortError(text + "\nmark failed: " + marked.error));
        }
        return Failure(PortError(text));
      }
      return Success(job);
    }
  }
}
