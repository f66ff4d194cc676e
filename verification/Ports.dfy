/** What lies behind the ports of the use cases: the job table, the object
    store and the queue, together with the ways a call on them can end. */
module Ports {
  import opened Wrappers
  import opened Domain
  import opened Repository

  type Blob = seq<bv8>

  type Store = map<string, Blob>

  // The image processor is deterministic and may refuse its input.
  type Processor = (Blob, Spec) -> Result<Blob, string>

  // How one port call ends. A call that fails late has taken effect although
  // its caller is told it failed.
  datatype Call =
    | Ok(now: Instant)
    | Fails(cause: string)
    | FailsLate(cause: string, now: Instant)
  {
    predicate Effective() {
      !Fails?
    }
  }

  datatype Data = Data(jobs: Jobs, store: Store)

  // The reply a caller sees.
  type Seen<T> = Result<T, string>

  function ErrorText(e: RepoError): string {
    match e
    case NotFound => "job not found"
    case InvalidStatus => "invalid status"
    case EmptyId => "empty job id"
    case NilJob => "nil job"
    case ContextEnded => "context canceled"
    case ServiceRefused => "validation error"
  }

  function LoadJob(d: Data, id: string, c: Call): Seen<Job> {
    if !c.Ok? then Failure(c.cause)
    else if id in d.jobs then Success(d.jobs[id])
    else Failure(ErrorText(NotFound))
  }

  function WriteJob(d: Data, r: Request, c: Call): (Data, Seen<()>) {
    if !c.Effective() then (d, Failure(c.cause))
    else
      var (jobs, reply) := Respond(d.jobs, r);
      (d.(jobs := jobs),
       if !c.Ok? then Failure(c.cause)
       else if reply.Failure? then Failure(ErrorText(reply.error))
       else Success(()))
  }

  function MarkStatus(d: Data, id: string, status: JobStatus, resultKey: string,
                      failure: Option<string>, c: Call): (Data, Seen<()>)
  {
    WriteJob(d, SetStatus(id, status, resultKey, failure, if c.Effective() then c.now else 0), c)
  }

  function GetObject(d: Data, key: string, c: Call): Seen<Blob> {
    if !c.Ok? then Failure(c.cause)
    else if key in d.store then Success(d.store[key])
    else Failure("object does not exist")
  }

  function PutObject(d: Data, key: string, blob: Blob, c: Call): (Data, Seen<()>) {
    (if c.Effective() then d.(store := d.store[key := blob]) else d,
     if c.Ok? then Success(()) else Failure(c.cause))
  }

  /** The services a use case is wired to. The context and the network decide
      how a call ends, so that is a parameter of every method. */
  class Services {
    var jobs: Jobs
    var store: Store
    var queued: seq<string>

    constructor ()
      ensures jobs == map[] && store == map[] && queued == []
    {
      jobs, store, queued := map[], map[], [];
    }

    function Contents(): Data
      reads this
    {
      Data(jobs, store)
    }

    method Get(id: string, c: Call) returns (seen: Seen<Job>)
      ensures seen == LoadJob(Contents(), id, c)
    {
      seen := LoadJob(Data(jobs, store), id, c);
    }

    method Write(r: Request, c: Call) returns (seen: Seen<()>)
      modifies this`jobs
      ensures (Contents(), seen) == WriteJob(old(Contents()), r, c)
    {
      if c.Fails? {
        return Failure(c.cause);
      }
      var (table, reply) := Respond(jobs, r);
      jobs := table;
      if c.FailsLate? {
        return Failure(c.cause);
      }
      if reply.Failure? {
        return Failure(ErrorText(reply.error));
      }
      return Success(());
    }

    method UpdateStatus(id: string, status: JobStatus, resultKey: string,
                        failure: Option<string>, c: Call)
      returns (seen: Seen<()>)
      modifies this`jobs
      ensures (Contents(), seen) == MarkStatus(old(Contents()), id, status, resultKey, failure, c)
    {
      seen := Write(SetStatus(id, status, resultKey, failure, if c.Effective() then c.now else 0), c);
    }

    method Fetch(key: string, c: Call) returns (seen: Seen<Blob>)
      ensures seen == GetObject(Contents(), key, c)
    {
      seen := GetObject(Data(jobs, store), key, c);
    }

    method Put(key: string, blob: Blob, c: Call) returns (seen: Seen<()>)
      modifies this`store
      ensures (Contents(), seen) == PutObject(old(Contents()), key, blob, c)
    {
      if !c.Fails? {
        store := store[key := blob];
      }
      seen := if c.Ok? then Success(()) else Failure(c.cause);
    }

    method Enqueue(id: string, c: Call) returns (seen: Seen<()>)
      modifies this`queued
      ensures queued == old(queued) + if c.Effective() then [id] else []
      ensures seen == if c.Ok? then Success(()) else Failure(c.cause)
    {
      if !c.Fails? {
        queued := queued + [id];
      }
      seen := if c.Ok? then Success(()) else Failure(c.cause);
    }
  }
}
