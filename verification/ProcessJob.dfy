/** The processing use case, as the port calls one worker makes for one
    delivery. Each position of the program is followed by exactly one call. */
module ProcessJob {
  import opened Wrappers
  import opened Domain
  import opened Keys
  import opened Repository
  import opened Ports

  datatype Verdict = Completed | NotPending | Faulted(text: string)

  datatype Pc =
    | Load
    | Claim(job: Job)
    | Read(job: Job)
    | Transform(job: Job, source: Blob)
    | StoreResult(job: Job, output: Blob)
    | MarkDone(job: Job)
    | MarkFailed(job: Job, cause: string)
    | Returned(result: Option<Job>, verdict: Verdict)

  function Wrapped(id: string, cause: string): string {
    "process job " + id + ": " + cause
  }

  /** The one call made at a position, and the position it leads to. */
  function Advance(p: Processor, id: string, pc: Pc, d: Data, c: Call): (Pc, Data)
    requires !pc.Returned?
  {
    match pc
    case Load =>
      (match LoadJob(d, id, c)
       case Failure(e) => Returned(None, Faulted(Wrapped(id, "load: " + e)))
       case Success(job) =>
         if job.status != Pending then Returned(Some(job), NotPending) else Claim(job),
       d)
    case Claim(job) =>
      var (d', seen) := MarkStatus(d, id, Processing, "", None, c);
      (if seen.Failure? then Returned(None, Faulted(Wrapped(id, "claim: " + seen.error)))
       else Read(job.(status := Processing)),
       d')
    case Read(job) =>
      (match GetObject(d, job.originalKey, c)
       case Failure(e) => MarkFailed(job, "read original " + job.originalKey + ": " + e)
       case Success(source) => Transform(job, source),
       d)
    case Transform(job, source) =>
      (if !c.Ok? then MarkFailed(job, "transform: " + c.cause)
       else match p(source, job.spec)
         case Failure(e) => MarkFailed(job, "transform: " + e)
         case Success(output) => StoreResult(job, output),
       d)
    case StoreResult(job, output) =>
      var key := ResultKey(job.id, job.spec);
      var (d', seen) := PutObject(d, key, output, c);
      (if seen.Failure? then MarkFailed(job, "store result " + key + ": " + seen.error)
       else MarkDone(job),
       d')
    case MarkDone(job) =>
      var key := ResultKey(job.id, job.spec);
      var (d', seen) := MarkStatus(d, id, Done, key, None, c);
      (if seen.Failure? then Returned(None, Faulted(Wrapped(id, "mark done: " + seen.error)))
       else Returned(Some(job.(status := Done, resultKey := key, error := "")), Completed),
       d')
    case MarkFailed(job, cause) =>
      var text := Wrapped(job.id, cause);
      var (d', seen) := MarkStatus(d, job.id, Failed, "", Some(text), c);
      (if seen.Failure? then Returned(None, Faulted(text + "\nmark failed: " + seen.error))
       else Returned(Some(job.(status := Failed, error := text)), Faulted(text)),
       d')
  }

  // How far a position is from the end, in calls.
  function Rank(pc: Pc): nat {
    match pc
    case Load => 6
    case Claim(_) => 5
    case Read(_) => 4
    case Transform(_, _) => 3
    case StoreResult(_, _) => 2
    case MarkDone(_) => 1
    case MarkFailed(_, _) => 1
    case Returned(_, _) => 0
  }

  // How the call made at each rank ends.
  type Plan = nat -> Call

  /** One execution with no other thread in between. */
  function Solo(p: Processor, id: string, pc: Pc, d: Data, plan: Plan): (r: (Pc, Data))
    ensures r.0.Returned?
    decreases Rank(pc)
  {
    if pc.Returned? then (pc, d)
    else
      var (pc', d') := Advance(p, id, pc, d, plan(Rank(pc)));
      Solo(p, id, pc', d', plan)
  }

  // One unrolling of Solo.
  lemma SoloStep(p: Processor, id: string, pc: Pc, d: Data, plan: Plan)
    requires !pc.Returned?
    ensures var (pc', d') := Advance(p, id, pc, d, plan(Rank(pc)));
            Solo(p, id, pc, d, plan) == Solo(p, id, pc', d', plan)
  {
  }

  // The calls between the claim and the record: reading the original,
  // transforming it and storing the result.
  predicate WorkSucceeds(p: Processor, job: Job, d: Data, plan: Plan) {
    && plan(4).Ok? && plan(3).Ok? && plan(2).Ok?
    && job.originalKey in d.store
    && p(d.store[job.originalKey], job.spec).Success?
  }

  /** Why the work did not succeed: the first of its three steps that failed, in
      the words of the fetch, the processor or the put. */
  function FailureCause(p: Processor, job: Job, d: Data, plan: Plan): string
    requires !WorkSucceeds(p, job, d, plan)
  {
    var key := job.originalKey;
    if !plan(4).Ok? then "read original " + key + ": " + plan(4).cause
    else if key !in d.store then "read original " + key + ": " + "object does not exist"
    else if !plan(3).Ok? then "transform: " + plan(3).cause
    else if p(d.store[key], job.spec).Failure? then "transform: " + p(d.store[key], job.spec).error
    else "store result " + ResultKey(job.id, job.spec) + ": " + plan(2).cause
  }

  // Two stores that differ in one object at most.
  ghost predicate SameBut(store: Store, store': Store, key: string) {
    forall k :: k != key ==> (k in store' <==> k in store) && (k in store' ==> store'[k] == store[k])
  }

  // The same program from the claim on: where the middle leads.
  lemma SoloWork(p: Processor, id: string, job: Job, d: Data, plan: Plan)
    ensures
      var r := Solo(p, id, Read(job), d, plan);
      if WorkSucceeds(p, job, d, plan) then
        var key := ResultKey(job.id, job.spec);
        var output := p(d.store[job.originalKey], job.spec).value;
        r == Solo(p, id, MarkDone(job), d.(store := d.store[key := output]), plan)
      else
        exists store ::
          && r == Solo(p, id, MarkFailed(job, FailureCause(p, job, d, plan)), d.(store := store), plan)
          && SameBut(d.store, store, ResultKey(job.id, job.spec))
  {
    SoloStep(p, id, Read(job), d, plan);
    var (read, d1) := Advance(p, id, Read(job), d, plan(4));
    assert d1 == d.(store := d.store);
    if read.Transform? {
      SoloStep(p, id, read, d, plan);
      var (done, d2) := Advance(p, id, read, d, plan(3));
      if done.StoreResult? {
        SoloStep(p, id, done, d, plan);
        var (stored, d3) := Advance(p, id, done, d, plan(2));
        assert d3 == d.(store := d3.store);
      }
    }
  }

  // The data a completed execution leaves.
  function CompletedData(p: Processor, job: Job, d: Data, now: Instant): Data
    requires job.originalKey in d.store && p(d.store[job.originalKey], job.spec).Success?
    requires job.id in d.jobs
  {
    var key := ResultKey(job.id, job.spec);
    var output := p(d.store[job.originalKey], job.spec).value;
    Data(d.jobs[job.id := Updated(d.jobs[job.id], Done, key, None, now)], d.store[key := output])
  }

  // The last call of an execution, recording a result or a failure.
  lemma SoloMarkDone(p: Processor, job: Job, d: Data, plan: Plan)
    requires job.id in d.jobs
    ensures
      var (pc, end) := Solo(p, job.id, MarkDone(job), d, plan);
      var key := ResultKey(job.id, job.spec);
      && end == (if plan(1).Fails? then d
                 else d.(jobs := d.jobs[job.id := Updated(d.jobs[job.id], Done, key, None, plan(1).now)]))
      && (if plan(1).Ok? then
            pc == Returned(Some(job.(status := Done, resultKey := key, error := "")), Completed)
          else pc.verdict.Faulted?)
  {
    SoloStep(p, job.id, MarkDone(job), d, plan);
  }

  lemma SoloMarkFailed(p: Processor, job: Job, cause: string, d: Data, plan: Plan)
    requires job.id in d.jobs
    ensures
      var (pc, end) := Solo(p, job.id, MarkFailed(job, cause), d, plan);
      var text := "process job " + job.id + ": " + cause;
      && end == (if plan(1).Fails? then d
                 else d.(jobs := d.jobs[job.id :=
                        Updated(d.jobs[job.id], Failed, "", Some(text), plan(1).now)]))
      && pc == (if plan(1).Ok? then Returned(Some(job.(status := Failed, error := text)), Faulted(text))
                else Returned(None, Faulted(text + "\nmark failed: " + plan(1).cause)))
  {
    SoloStep(p, job.id, MarkFailed(job, cause), d, plan);
    assert Wrapped(job.id, cause) == "process job " + job.id + ": " + cause;
  }

  // From a claimed job to the end.
  lemma SoloRecord(p: Processor, job: Job, d: Data, plan: Plan)
    requires job.id in d.jobs
    ensures
      var (pc, end) := Solo(p, job.id, Read(job), d, plan);
      var works := WorkSucceeds(p, job, d, plan);
      && job.id in end.jobs
      && end.jobs[job.id].status ==
           (if plan(1).Fails? then d.jobs[job.id].status else if works then Done else Failed)
      && (pc.verdict == Completed <==> works && plan(1).Ok?)
      && (pc.verdict == Completed ==>
            && end == CompletedData(p, job, d, plan(1).now)
            && pc.result == Some(job.(status := Done, resultKey := ResultKey(job.id, job.spec), error := "")))
      && pc.verdict != NotPending
  {
    SoloWork(p, job.id, job, d, plan);
    if WorkSucceeds(p, job, d, plan) {
      var key := ResultKey(job.id, job.spec);
      assert key[0] == 'r';
      var output := p(d.store[job.originalKey], job.spec).value;
      SoloMarkDone(p, job, d.(store := d.store[key := output]), plan);
    } else {
      var cause := FailureCause(p, job, d, plan);
      var store :|
        Solo(p, job.id, Read(job), d, plan) ==
        Solo(p, job.id, MarkFailed(job, cause), d.(store := store), plan);
      SoloMarkFailed(p, job, cause, d.(store := store), plan);
    }
  }

  // Up to the claim.
  lemma SoloClaim(p: Processor, id: string, d: Data, plan: Plan)
    requires id in d.jobs
    ensures
      var job := d.jobs[id];
      if !plan(6).Ok? then
        Solo(p, id, Load, d, plan).1 == d && Solo(p, id, Load, d, plan).0.verdict.Faulted?
      else if job.status != Pending then
        Solo(p, id, Load, d, plan) == (Returned(Some(job), NotPending), d)
      else if plan(5).Fails? then
        Solo(p, id, Load, d, plan).1 == d && Solo(p, id, Load, d, plan).0.verdict.Faulted?
      else
        var d1 := d.(jobs := d.jobs[id := Updated(job, Processing, "", None, plan(5).now)]);
        if plan(5).FailsLate? then
          Solo(p, id, Load, d, plan).1 == d1 && Solo(p, id, Load, d, plan).0.verdict.Faulted?
        else
          Solo(p, id, Load, d, plan) == Solo(p, id, Read(job.(status := Processing)), d1, plan)
  {
    SoloStep(p, id, Load, d, plan);
    if plan(6).Ok? && d.jobs[id].status == Pending {
      SoloStep(p, id, Claim(d.jobs[id]), d, plan);
    }
  }

  /** Where one undisturbed execution of a pending job leaves it, for every way
      its calls can end. It stays pending exactly when the claim had no effect,
      and is left processing, beyond the reach of any redelivery, exactly when
      the claim took effect unseen or the outcome could not be recorded. */
  lemma SoloFinalStatus(p: Processor, id: string, d: Data, plan: Plan)
    requires id in d.jobs && d.jobs[id].id == id && d.jobs[id].status == Pending
    ensures
      var job := d.jobs[id];
      var end := Solo(p, id, Load, d, plan).1;
      && id in end.jobs
      && var status := end.jobs[id].status;
      && (status == Pending <==> !plan(6).Ok? || plan(5).Fails?)
      && (status == Processing <==>
            plan(6).Ok? && (plan(5).FailsLate? || (plan(5).Ok? && plan(1).Fails?)))
      && (status == Done <==>
            plan(6).Ok? && plan(5).Ok? && WorkSucceeds(p, job, d, plan) && plan(1).Effective())
      && (status == Failed <==>
            plan(6).Ok? && plan(5).Ok? && !WorkSucceeds(p, job, d, plan) && plan(1).Effective())
  {
    SoloClaim(p, id, d, plan);
    if plan(6).Ok? && plan(5).Ok? {
      var d1 := d.(jobs := d.jobs[id := Updated(d.jobs[id], Processing, "", None, plan(5).now)]);
      SoloRecord(p, d.jobs[id].(status := Processing), d1, plan);
    }
  }

  /** A caller is told the job completed exactly when every call succeeded on a
      pending job with its original in place; it is told the job was not pending
      exactly when it was not, and then nothing was touched, as nothing is for an
      unknown job. A completed job is recorded under its result key beside the
      transformed object, and the one thing the returned copy does not carry is
      the new UpdatedAt. */
  lemma SoloVerdict(p: Processor, id: string, d: Data, plan: Plan)
    requires id in d.jobs ==> d.jobs[id].id == id
    ensures
      var (pc, end) := Solo(p, id, Load, d, plan);
      if id !in d.jobs then pc.verdict.Faulted? && pc.result.None? && end == d
      else
        var job := d.jobs[id];
        && (pc.verdict == NotPending <==> plan(6).Ok? && job.status != Pending)
        && (pc.verdict == NotPending ==> end == d)
        && (pc.verdict == Completed <==>
              && job.status == Pending && plan(6).Ok? && plan(5).Ok? && plan(1).Ok?
              && WorkSucceeds(p, job, d, plan))
        && (pc.verdict == Completed ==>
              var key := ResultKey(id, job.spec);
              && end.store == d.store[key := p(d.store[job.originalKey], job.spec).value]
              && end.jobs == d.jobs[id :=
                   job.(status := Done, resultKey := key, error := "", updatedAt := plan(1).now)]
              && pc.result == Some(end.jobs[id].(updatedAt := job.updatedAt)))
  {
    if id in d.jobs {
      SoloClaim(p, id, d, plan);
      if plan(6).Ok? && plan(5).Ok? && d.jobs[id].status == Pending {
        var d1 := d.(jobs := d.jobs[id := Updated(d.jobs[id], Processing, "", None, plan(5).now)]);
        SoloRecord(p, d.jobs[id].(status := Processing), d1, plan);
        assert ResultKey(id, d.jobs[id].spec)[0] == 'r';
      }
    } else {
      SoloStep(p, id, Load, d, plan);
    }
  }

  /** What a failed execution records and returns. When the claim succeeds and the
      work does not, the record is the job as it was but for the status, the
      instant and an error text that names the job and ends in the cause; a
      result key it had is kept. The caller gets the same text, with the job as
      recorded but for the instant, or, when the record could not be written,
      with what went wrong there and no job. */
  lemma SoloFailed(p: Processor, id: string, d: Data, plan: Plan)
    requires id in d.jobs && d.jobs[id].id == id && d.jobs[id].status == Pending
    requires plan(6).Ok? && plan(5).Ok? && !WorkSucceeds(p, d.jobs[id], d, plan)
    ensures
      var job := d.jobs[id];
      var (pc, end) := Solo(p, id, Load, d, plan);
      var text := "process job " + id + ": " + FailureCause(p, job, d, plan);
      var failed := job.(status := Failed, error := text);
      && SameBut(d.store, end.store, ResultKey(id, job.spec))
      && end.jobs == d.jobs[id := if plan(1).Fails? then job.(status := Processing, updatedAt := plan(5).now, error := "")
                                  else failed.(updatedAt := plan(1).now)]
      && (plan(1).Ok? ==> pc == Returned(Some(failed), Faulted(text)))
      && (!plan(1).Ok? ==> pc == Returned(None, Faulted(text + "\nmark failed: " + plan(1).cause)))
  {
    SoloClaim(p, id, d, plan);
    var job := d.jobs[id].(status := Processing);
    var d1 := d.(jobs := d.jobs[id := Updated(d.jobs[id], Processing, "", None, plan(5).now)]);
    SoloWork(p, id, job, d1, plan);
    var cause := FailureCause(p, job, d1, plan);
    var store :|
      && Solo(p, id, Read(job), d1, plan) == Solo(p, id, MarkFailed(job, cause), d1.(store := store), plan)
      && SameBut(d1.store, store, ResultKey(id, job.spec));
    SoloMarkFailed(p, job, cause, d1.(store := store), plan);
  }

  /** The other ways an execution fails, none of which returns a job: each text
      names the job and the step, and ends in the step's own cause. */
  lemma SoloFaults(p: Processor, id: string, d: Data, plan: Plan)
    requires id in d.jobs ==> d.jobs[id].id == id
    ensures
      var pc := Solo(p, id, Load, d, plan).0;
      var prefix := "process job " + id + ": ";
      && (!plan(6).Ok? ==> pc == Returned(None, Faulted(prefix + ("load: " + plan(6).cause))))
      && (plan(6).Ok? && id !in d.jobs ==> pc == Returned(None, Faulted(prefix + "load: job not found")))
      && (plan(6).Ok? && id in d.jobs && d.jobs[id].status != Pending ==>
            pc == Returned(Some(d.jobs[id]), NotPending))
      && (plan(6).Ok? && id in d.jobs && d.jobs[id].status == Pending ==>
            && (!plan(5).Ok? ==> pc == Returned(None, Faulted(prefix + ("claim: " + plan(5).cause))))
            && (plan(5).Ok? && WorkSucceeds(p, d.jobs[id], d, plan) && !plan(1).Ok? ==>
                  pc == Returned(None, Faulted(prefix + ("mark done: " + plan(1).cause)))))
  {
    SoloStep(p, id, Load, d, plan);
    assert "load: " + "job not found" == "load: job not found";
    if plan(6).Ok? && id in d.jobs && d.jobs[id].status == Pending {
      SoloStep(p, id, Claim(d.jobs[id]), d, plan);
      if plan(5).Ok? && WorkSucceeds(p, d.jobs[id], d, plan) && !plan(1).Ok? {
        SoloMarkDoneFails(p, id, d, plan);
      }
    }
  }

  lemma SoloMarkDoneFails(p: Processor, id: string, d: Data, plan: Plan)
    requires id in d.jobs && d.jobs[id].id == id && d.jobs[id].status == Pending
    requires plan(6).Ok? && plan(5).Ok? && WorkSucceeds(p, d.jobs[id], d, plan) && !plan(1).Ok?
    ensures Solo(p, id, Load, d, plan).0 ==
            Returned(None, Faulted("process job " + id + ": " + ("mark done: " + plan(1).cause)))
  {
    SoloClaim(p, id, d, plan);
    var job := d.jobs[id].(status := Processing);
    var d1 := d.(jobs := d.jobs[id := Updated(d.jobs[id], Processing, "", None, plan(5).now)]);
    SoloWork(p, id, job, d1, plan);
    var key := ResultKey(id, job.spec);
    var output := p(d.store[job.originalKey], job.spec).value;
    SoloStep(p, id, MarkDone(job), d1.(store := d1.store[key := output]), plan);
  }

  /** The use case itself. */
  class UseCase {
    const services: Services
    const processor: Processor

    constructor (services: Services, processor: Processor)
      ensures this.services == services && this.processor == processor
    {
      this.services := services;
      this.processor := processor;
    }

    method Execute(id: string, plan: Plan) returns (result: Option<Job>, verdict: Verdict)
      modifies services
      ensures (Returned(result, verdict), services.Contents()) ==
              Solo(processor, id, Load, old(services.Contents()), plan)
      ensures services.queued == old(services.queued)
    {
      SoloStep(processor, id, Load, services.Contents(), plan);
      var loaded := services.Get(id, plan(6));
      if loaded.Failure? {
        return None, Faulted(Wrapped(id, "load: " + loaded.error));
      }
      var job := loaded.value;
      if job.status != Pending {
        return Some(job), NotPending;
      }

      SoloStep(processor, id, Claim(job), services.Contents(), plan);
      var claimed := services.UpdateStatus(id, Processing, "", None, plan(5));
      if claimed.Failure? {
        return None, Faulted(Wrapped(id, "claim: " + claimed.error));
      }
      job := job.(status := Processing);

      var resultKey := RunTransform(id, job, plan);
      if resultKey.Failure? {
        result, verdict := Fail(id, job, resultKey.error, plan);
        return;
      }

      SoloStep(processor, id, MarkDone(job), services.Contents(), plan);
      var done := services.UpdateStatus(id, Done, resultKey.value, None, plan(1));
      if done.Failure? {
        return None, Faulted(Wrapped(id, "mark done: " + done.error));
      }
      job := job.(status := Done);
      job := job.(resultKey := resultKey.value);
      job := job.(error := "");
      return Some(job), Completed;
    }

    // The middle of the program, from reading the original to storing the
    // result: it ends at MarkDone with the key, or at MarkFailed with a cause.
    method RunTransform(ghost id: string, job: Job, plan: Plan) returns (resultKey: Seen<string>)
      modifies services
      ensures resultKey.Success? ==> resultKey.value == ResultKey(job.id, job.spec)
      ensures Solo(processor, id, Read(job), old(services.Contents()), plan) ==
              Solo(processor, id,
                   if resultKey.Success? then MarkDone(job) else MarkFailed(job, resultKey.error),
                   services.Contents(), plan)
      ensures services.queued == old(services.queued)
    {
      ghost var d := services.Contents();
      SoloStep(processor, id, Read(job), d, plan);
      var source := services.Fetch(job.originalKey, plan(4));
      if source.Failure? {
        return Failure("read original " + job.originalKey + ": " + source.error);
      }
      SoloStep(processor, id, Transform(job, source.value), d, plan);
      var call := plan(3);
      if !call.Ok? {
        return Failure("transform: " + call.cause);
      }
      var output := processor(source.value, job.spec);
      if output.Failure? {
        return Failure("transform: " + output.error);
      }
      var key := ResultKey(job.id, job.spec);
      SoloStep(processor, id, StoreResult(job, output.value), d, plan);
      var stored := services.Put(key, output.value, plan(2));
      if stored.Failure? {
        return Failure("store result " + key + ": " + stored.error);
      }
      return Success(key);
    }

    method Fail(ghost id: string, job: Job, cause: string, plan: Plan)
      returns (result: Option<Job>, verdict: Verdict)
      modifies services
      ensures (Returned(result, verdict), services.Contents()) ==
              Solo(processor, id, MarkFailed(job, cause), old(services.Contents()), plan)
      ensures services.queued == old(services.queued)
    {
      var text := Wrapped(job.id, cause);
      var marked := services.UpdateStatus(job.id, Failed, "", Some(text), plan(1));
      if marked.Failure? {
        return None, Faulted(text + "\nmark failed: " + marked.error);
      }
      return Some(job.(status := Failed, error := text)), Faulted(text);
    }
  }
}
