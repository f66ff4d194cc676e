/** The job repository port as a transition on an abstract table, the meaning
    both adapters have to implement. */
module Repository {
  import opened Wrappers
  import opened Domain

  type Jobs = map<string, Job>

  datatype RepoError = NotFound | InvalidStatus | EmptyId | NilJob | ContextEnded | ServiceRefused

  datatype Context = Live | Ended

  // The reply of one call: the job of a Get, or nothing.
  type Reply = Result<Option<Job>, RepoError>

  datatype Request =
    | SaveJob(job: Option<Job>)
    | GetJob(id: string)
    | SetStatus(id: string, status: JobStatus, resultKey: string, failure: Option<string>, now: Instant)

  /** A job after a status update. A result key is only ever recorded, never
      cleared; the error text is rewritten on every call. */
  function Updated(job: Job, status: JobStatus, resultKey: string, failure: Option<string>, now: Instant): Job {
    job.(status := status,
         updatedAt := now,
         resultKey := if resultKey != "" then resultKey else job.resultKey,
         error := if failure.Some? then failure.value else "")
  }

  /** One repository call under a live context. */
  function Respond(jobs: Jobs, r: Request): (Jobs, Reply) {
    match r
    case SaveJob(None) => (jobs, Failure(NilJob))
    case SaveJob(Some(job)) =>
      if job.id == "" then (jobs, Failure(EmptyId))
      else (jobs[job.id := job], Success(None))
    case GetJob(id) =>
      if id in jobs then (jobs, Success(Some(jobs[id]))) else (jobs, Failure(NotFound))
    case SetStatus(id, status, resultKey, failure, now) =>
      if !KnownStatus(status) then (jobs, Failure(InvalidStatus))
      else if id !in jobs then (jobs, Failure(NotFound))
      else (jobs[id := Updated(jobs[id], status, resultKey, failure, now)], Success(None))
  }

  /** What every table built by Respond keeps: a record is filed under its own
      identifier, and that identifier is not empty. */
  predicate Filed(jobs: Jobs) {
    forall id :: id in jobs ==> id != "" && jobs[id].id == id
  }

  function RespondAll(jobs: Jobs, rs: seq<Request>): (Jobs, seq<Reply>)
    decreases |rs|
  {
    if rs == [] then (jobs, [])
    else
      var (mid, reply) := Respond(jobs, rs[0]);
      var (end, replies) := RespondAll(mid, rs[1..]);
      (end, [reply] + replies)
  }
}

/** The in-process repository: a map overwritten entry by entry. */
module MemRepo {
  import opened Wrappers
  import opened Domain
  import opened Repository

  class JobRepository {
    var jobs: map<string, Job>

    ghost predicate Valid()
      reads this
    {
      Filed(jobs)
    }

    constructor ()
      ensures Valid() && jobs == map[]
    {
      jobs := map[];
    }

    method Save(ctx: Context, job: Option<Job>) returns (reply: Reply)
      requires Valid()
      modifies this
      ensures Valid()
      ensures ctx.Ended? ==> reply == Failure(ContextEnded) && jobs == old(jobs)
      ensures ctx.Live? ==> (jobs, reply) == Respond(old(jobs), SaveJob(job))
    {
      if ctx.Ended? {
        return Failure(ContextEnded);
      }
      if job.None? {
        return Failure(NilJob);
      }
      if job.value.id == "" {
        return Failure(EmptyId);
      }
      jobs := jobs[job.value.id := job.value];
      return Success(None);
    }

    method Get(ctx: Context, id: string) returns (reply: Reply)
      requires Valid()
      ensures ctx.Ended? ==> reply == Failure(ContextEnded)
      ensures ctx.Live? ==> (jobs, reply) == Respond(jobs, GetJob(id))
    {
      if ctx.Ended? {
        return Failure(ContextEnded);
      }
      if id !in jobs {
        return Failure(NotFound);
      }
      return Success(Some(jobs[id]));
    }

    method UpdateStatus(ctx: Context, id: string, status: JobStatus, resultKey: string,
                        failure: Option<string>, now: Instant)
      returns (reply: Reply)
      requires Valid()
      modifies this
      ensures Valid()
      ensures ctx.Ended? ==> reply == Failure(ContextEnded) && jobs == old(jobs)
      ensures ctx.Live? ==>
                (jobs, reply) == Respond(old(jobs), SetStatus(id, status, resultKey, failure, now))
    {
      if ctx.Ended? {
        return Failure(ContextEnded);
      }
      if !KnownStatus(status) {
        return Failure(InvalidStatus);
      }
      if id !in jobs {
        return Failure(NotFound);
      }
      var job := jobs[id];
      job := job.(status := status, updatedAt := now);
      if resultKey != "" {
        job := job.(resultKey := resultKey);
      }
      if failure.Some? {
        job := job.(error := failure.value);
      } else {
        job := job.(error := "");
      }
      jobs := jobs[id := job];
      return Success(None);
    }
  }
}
