# ImageForge: a verified model of the job pipeline

ImageForge takes image transformation jobs over HTTP, stores the original,
records the job, queues its identifier, and lets worker pools transform it. This
project models that pipeline and the pieces it stands on in Dafny 4.11, and
proves what they promise. `dafny verify dfyconfig.toml` checks all of it.

The files, from the ground up:

- `Domain.dfy`: the job record, specifications and their validation, and the
  storage keys.
- `Repository.dfy`, `DynamoService.dfy`, `DynamoRepo.dfy`: the repository port as
  a transition on a table; the in-process map; the table service with its
  expression language; the repository that drives it; the simulation between the
  two.
- `Ports.dfy`, `CreateJob.dfy`, `ProcessJob.dfy`: the two use cases, each as one
  port call per position (the form the machine interleaves) and as the method
  that makes the calls, proved to be the same program. Every call may succeed,
  fail, or fail after having taken effect.
- `SqsQueue.dfy`, `Backoff.dfy`: the broker adapter's receipt map, its settle
  calls and its receive loop.
- `WorkerPool.dfy`: handling, counting and settling deliveries, a call at a time.
- `Pipeline.dfy`: requests, an at-least-once broker with a dead-letter queue,
  consumer processes and worker threads, interleaved a port call at a time, with
  crashes, expiring visibility and failing calls. `PipelineSafety.dfy` holds the
  invariant of every run, `PipelineLifecycle.dfy` the order of statuses and the
  runs that break it, `PipelineSettlement.dfy` the counters, the settle calls and
  the receipt handles of every run, `PipelineProgress.dfy` what happens without
  broker or repository faults, and `PipelineTermination.dfy` termination under
  every fault.
- `PoolMachine.dfy`, `PoolSafety.dfy`, `PoolProgress.dfy`, `PoolWaiting.dfy`,
  `MemQueue.dfy`: the in-process queue and the goroutines of the pools draining it, as a machine; the
  queue as an object whose calls are runs of that machine.
- `RateLimiter.dfy`: token buckets with eviction, and Retry-After.
- `Sizing.dfy`: the rounding geometry of resizes and thumbnails.
- `Sums.dfy`: sums over sequences, used to count.

What the code does not promise is proved as such:

- Done is not final. The claim reads the status and then writes it, and neither
  repository checks the old status on writing, so two overlapping executions can
  record a job done and then failed: `PipelineLifecycle.OverlapUndoesDone`. And a
  request whose message was sent although it was told otherwise marks the job
  failed after a single worker has recorded it done:
  `PipelineLifecycle.LateEnqueueUndoesDone`. `PipelineLifecycle.LifecycleIff` is
  the exact condition over every run, on what each write finds stored, which is
  what a conditional write would check. Without overlap and without late failures
  it always holds: `PipelineLifecycle.EventInOrder`.
- A job whose claim took effect unseen, or whose outcome could not be recorded,
  stays processing, and every redelivery of it is skipped and acknowledged.
  `ProcessJob.SoloFinalStatus` says exactly when.
- Eviction changes answers, and lets a client have more than its budget, exactly
  when a bucket cannot refill within the time to live:
  `RateLimiter.EvictionUnobservable` and `RateLimiter.WindowBudget`. With the
  fixed ten minutes of `clientTTL` that is a configured limit below burst / 600
  requests a second.
- With nobody canceling it, an Enqueue made while everything rests waits for ever
  exactly when the queue is then open and full and every consumer has been
  canceled: `PoolWaiting.EnqueueWaitsIff`; `PoolWaiting.WaitingHappens` is such a
  run.
- The two repositories differ on one request: an update with both an empty
  identifier and an unknown status is refused with a different error by each.
- A side derived from the source's ratio may exceed the largest dimension a
  request can name: `Sizing.DerivedWithinMaximum` says exactly when.
- Two identifiers can share a result key only if one of the formats is unknown,
  which validation refuses: `Keys.ResultKeysCollide` gives the exact condition,
  and among known formats there is none.
- The job `Execute` returns does not carry the new `UpdatedAt`:
  `ProcessJob.SoloVerdict`.

## Model

| member | source | states |
|---|---|---|
| Domain.Validate | internal/domain/transformation.go:83-113 | no error exactly for usable specifications, each error exactly for its own fault, none twice, in the order checked |
| Keys.KeyNames | internal/usecase/usecase.go:20-32 | the prefixes and the extension of each format |
| Keys.OriginalKeyInjective | internal/usecase/usecase.go:20-22 | two jobs never share an original key |
| Keys.OriginalIsNotResult | internal/usecase/usecase.go:20-32 | no original key is a result key |
| Keys.ResultKeyInjective | internal/usecase/usecase.go:26-32 | for the formats a specification may name a result key determines identifier and format, for every identifier |
| Keys.ResultKeysCollide | internal/usecase/usecase.go:26-32 | two identifiers share a result key exactly when one format is known, the other is not, and the second identifier is the first with its extension |
| MemRepo.JobRepository.Save | internal/adapters/memrepo/memrepo.go:58-74 | the map's transition, or no change and the context's error |
| MemRepo.JobRepository.Get | internal/adapters/memrepo/memrepo.go:77-91 | the stored job, or not found, or the context's error |
| MemRepo.JobRepository.UpdateStatus | internal/adapters/memrepo/memrepo.go:97-132 | the map's transition; the result key is kept unless a new one is given, the error is rewritten |
| CreateJob.UseCase.Execute | internal/usecase/create_job.go:68-106 | no source answered as such exactly then; an unusable specification answered with each of its problems exactly for its own fault; neither touches anything; a usable request leaves the data, messages and reply of the step program |
| CreateJob.SoloOutcome | internal/usecase/create_job.go:76-105 | accepted exactly when all three writes succeed, with every field of the job stored and returned; a message only for a stored record and original; when a pending record without a message is left behind |
| CreateJob.SoloNotSaved | internal/usecase/create_job.go:79-95 | what a request is told when the original or the record cannot be written |
| CreateJob.SoloNotSent | internal/usecase/create_job.go:97-103 | what a request is told, and what its record says, when the message cannot be sent |
| ProcessJob.UseCase.Execute | internal/usecase/process_job.go:34-61 | leaves the data and returns the job and verdict of the step program |
| ProcessJob.UseCase.RunTransform | internal/usecase/process_job.go:65-82 | the middle of the step program, ending in the result key or a cause |
| ProcessJob.UseCase.Fail | internal/usecase/process_job.go:86-95 | the recording of a failure in the step program |
| ProcessJob.SoloFinalStatus | internal/usecase/process_job.go:34-95 | the status one undisturbed execution of a pending job leaves, each exactly when, for every way the calls can end |
| ProcessJob.SoloVerdict | internal/usecase/process_job.go:34-61 | completed and not-pending verdicts exactly when; an unknown job fails and touches nothing; what a completed execution stored and returned, all but the new UpdatedAt |
| ProcessJob.SoloFailed | internal/usecase/process_job.go:48-51 | the record, the returned job and the text of a failed execution, field by field, the text ending in the first cause of fetch, processor or put |
| ProcessJob.SoloFaults | internal/usecase/process_job.go:35-55 | the answers of an execution whose load, claim or mark-done failed, and of one whose job was not pending |
| Receipts.ReceiptsAreLatest | internal/adapters/sqsqueue/sqsqueue.go:316-386 | after any receives and takes the receipt of a job is the handle of its latest untaken message |
| Receipts.HandlesSeparated | internal/adapters/sqsqueue/sqsqueue.go:316-386 | with a handle of its own for every receive, each handle is in one place: with one job, or spent once |
| Receipts.HandleSettledOnce | internal/adapters/sqsqueue/sqsqueue.go:377-386 | no handle is given out twice |
| SqsQueue.Queue.Record | internal/adapters/sqsqueue/sqsqueue.go:315-330 | records each named message's receipt, latest last, and yields one delivery for each |
| Receipts.BodiesInOrder | internal/adapters/sqsqueue/sqsqueue.go:315-330 | the deliveries of a response are its bodies in order without the empty ones |
| SqsQueue.Queue.TakeReceipt | internal/adapters/sqsqueue/sqsqueue.go:377-386 | yields and forgets the latest unsettled handle of a job |
| SqsQueue.Queue.Ack | internal/adapters/sqsqueue/sqsqueue.go:338-351 | deletes through the latest unsettled handle, or makes no call and reports no error |
| SqsQueue.Queue.Nack | internal/adapters/sqsqueue/sqsqueue.go:360-374 | makes visible through the latest unsettled handle, or makes no call and reports no error |
| WorkerPool.Pool.Handle | internal/worker/pool.go:309-374 | one execution; processed, failed or skipped counted by its verdict; through the latest receipt, if any, one call, making the message visible after a failure and deleting it otherwise |
| WorkerPool.Pool.Settle | internal/worker/pool.go:382-408 | takes the receipt and with one makes exactly the call the outcome asks for, or does nothing for a queue that does not track deliveries |
| WorkerPool.Pool.Work | internal/worker/pool.go:290-302 | deliveries handled and responses recorded in any order: each counter raised by its outcomes, the three together by the deliveries, each settled as its outcome says |
| WorkerPool.CountsAddUp | internal/worker/pool.go:343-373 | the three outcomes partition the deliveries |
| WorkerPool.TurnSettles | internal/worker/pool.go:343-396 | at every turn of a run, the report and the settle call by the verdict of the execution; a message is deleted only when its job has left pending |
| WorkerPool.OneSettlementEach | internal/worker/pool.go:343-373 | wherever receives come in between, each delivery is reported once, takes its job's receipt once, in order, and makes at most one settle call |
| SqsQueue.Queue.SettledOnce | internal/adapters/sqsqueue/sqsqueue.go:338-386 | after any receives, acks and nacks the settle calls used exactly the handles given out, none twice |
| WorkerPool.DuplicatesSkipped | internal/usecase/process_job.go:35-41 | once a claim took effect no later delivery changes the job's record, whatever else is handled in between: each is skipped when the record loads and fails when it does not |
| PipelineSafety.EventKeepsInv | internal/usecase/process_job.go:34-95 | the invariant on jobs, objects, requests, messages, receipts and workers survives every event, and nothing settled is undone |
| PipelineSafety.ReachableInv | internal/usecase/create_job.go:79-103 | it holds in every reachable state: a queued id has a record, a record its original, a result key names a stored object, done has one, an error text exactly for failed jobs |
| PipelineSafety.AcceptedNotLost | internal/adapters/sqsqueue/sqsqueue.go:316-351 | an accepted job still pending has a message waiting, in flight or dead-lettered |
| PipelineSafety.DeletedMeansTaken | internal/worker/pool.go:343-373 | a message is deleted only after its job left pending, and no continuation brings the job back |
| PipelineSafety.ResultsAreTransforms | internal/usecase/process_job.go:65-82 | under every interleaving the object at a result key is absent or the transform of that job's original |
| PipelineSafety.OriginalsNeverChange | internal/usecase/create_job.go:76-81 | a stored original is never changed by any continuation |
| PipelineSafety.ObjectsAreIsolated | internal/usecase/usecase.go:20-32 | no event touches the objects of a job other than the one it acts for |
| PipelineLifecycle.EventInOrder | internal/usecase/process_job.go:34-61 | without overlap each event takes each job one step along the lifecycle or leaves it |
| PipelineLifecycle.LifecycleHistories | internal/usecase/process_job.go:34-61 | every job's history over every such run is one of six |
| PipelineLifecycle.AtMostOneClaim | internal/usecase/process_job.go:39-46 | at most one delivery of a job gets past the claim |
| PipelineLifecycle.EventInOrderIff | internal/adapters/memrepo/memrepo.go:111-128 | an event takes a job along its lifecycle, or leaves it, exactly when the write it makes finds the status its position expects |
| PipelineLifecycle.LifecycleIff | internal/usecase/process_job.go:34-61 | over every run at all, a job's history is one of the six exactly when every write that changed its status, by a worker or a request, found what it expects |
| PipelineLifecycle.OverlapUndoesDone | internal/usecase/process_job.go:39-43 | with overlap and no late failure a done job goes on to be failed, for every job the processor accepts |
| PipelineLifecycle.LateEnqueueUndoesDone | internal/usecase/create_job.go:97-102 | so it does with one worker when an enqueue fails after the message was sent |
| PipelineLifecycle.MarkingMidway | internal/usecase/create_job.go:97-102 | a run in which a request marks its job failed while a worker has it processing, along the lifecycle |
| PipelineSettlement.CountersAreReturns | internal/worker/pool.go:343-373 | in every run each counter of a process is the number of its executions that returned with that outcome |
| PipelineSettlement.ReturnsSettledOnce | internal/worker/pool.go:343-396 | in every run each returned execution has one settle attempt, begun or about to be: an Ack when processed or skipped, a Nack when failed |
| PipelineSettlement.HandlesUsedOnce | internal/adapters/sqsqueue/sqsqueue.go:316-386 | in every run no handle is in two of the responses, the receipts, the calls under way and the calls made, and none settles twice |
| PipelineProgress.EventKeepsCalm | internal/worker/pool.go:343-373 | without broker or repository faults every event keeps deliveries and in-flight messages in balance, with at most two receives each |
| PipelineProgress.NeverRedriven | internal/adapters/sqsqueue/sqsqueue.go:353-374 | for any redrive bound of at least two nothing is dead-lettered |
| PipelineProgress.CalmRunsEnd | internal/worker/pool.go:343-373 | a calm run with n submissions has at most 104 n events |
| PipelineProgress.ReceivedAtMostTwice | internal/adapters/sqsqueue/sqsqueue.go:360-374 | no message is received more than twice or dead-lettered, and the messages in flight are exactly the deliveries in hand |
| PipelineProgress.AcceptedJobsFinish | internal/usecase/process_job.go:48-95 | when only new submissions can happen, every accepted job is done or failed and every message deleted |
| PipelineTermination.EveryRunEnds | internal/worker/pool.go:343-373 | under every fault a run has at most 14 * redrive + 6 events for each request, beside its crashes and stops |
| PipelineTermination.NothingLeftBehind | internal/adapters/sqsqueue/sqsqueue.go:338-374 | where such a run can go on only from outside, every request is answered, every message deleted or dead-lettered, and every accepted job taken up or on the dead-letter queue |
| MemQueue.Queue.constructor | internal/adapters/memqueue/memqueue.go:49-54 | an open empty queue, of the default capacity for a non-positive one, where no run of the machine has begun |
| MemQueue.Queue.Enqueue | internal/adapters/memqueue/memqueue.go:60-77 | appends, refuses an empty id, a closed queue or an ended context, or leaves the caller waiting for room, each exactly when; a run of the machine |
| MemQueue.Queue.Resume | internal/adapters/memqueue/memqueue.go:71-76 | a waiting caller sends, gives up or waits on, each exactly when |
| MemQueue.Queue.Close | internal/adapters/memqueue/memqueue.go:139-147 | closes, keeps what is buffered, may be repeated, and has to wait exactly while a caller waits for room; a run of the machine |
| MemQueue.Queue.Receive | internal/adapters/memqueue/memqueue.go:111-128 | a consumer gets the oldest identifier, the end, or nothing yet, each exactly when, and what a canceled forwarder drops; a run of the machine |
| MemQueue.Queue.InOrder | internal/adapters/memqueue/memqueue.go:108-132 | whatever calls were made, one consumer was given a prefix of what was sent |
| PoolSafety.EventKeepsInv | internal/worker/pool.go:198-302 | the close protocol, lifecycles, conservation and order survive every step of producers, closers, forwarders, workers and Run |
| PoolSafety.NeverPanics | internal/adapters/memqueue/memqueue.go:60-147 | nobody sends on the closed channel or closes it twice, and the buffer stays within its capacity |
| PoolSafety.DeliveredInOrder | internal/adapters/memqueue/memqueue.go:108-132 | with one consumer what is delivered is a prefix of what was sent |
| PoolSafety.ReturnIsClean | internal/worker/pool.go:222-252 | Run returns with no worker left, and reports a timeout exactly when its shutdown timer ran out and it canceled its jobs |
| PoolSafety.CanceledLosesOneEach | internal/adapters/memqueue/memqueue.go:111-128 | when every Run returned the accepted deliveries are, as a multiset, those handled, those buffered and those dropped, at most one of the last for each canceled consumer |
| PoolSafety.EveryAcceptedHandled | internal/worker/pool.go:198-231 | with no cancellation, when every Run returned the queue is closed and the handled deliveries are exactly the accepted ones, as multisets |
| PoolProgress.RunsEnd | internal/worker/pool.go:198-302 | only new calls keep a run going: a bound on its length |
| PoolProgress.RestsOnlyWhenDone | internal/worker/pool.go:198-252 | no deadlock: at rest an Enqueue is unanswered only if every consumer was canceled and the open queue is full, and a Run goes on exactly when it was not canceled and nobody called Close |
| PoolWaiting.EnqueueWaitsIff | internal/adapters/memqueue/memqueue.go:60-77 | a call made at rest is still unanswered at the next rest exactly when its id is not empty and, at the call, the queue is open and full and every consumer is canceled |
| PoolWaiting.ComesToRest | internal/worker/pool.go:198-302 | from every state of a run the queue and the pools come to rest without anyone's help |
| PoolWaiting.WaitingHappens | internal/adapters/memqueue/memqueue.go:71-76 | for every capacity and every number of pools and workers, a run that ends at rest with an unanswered Enqueue: cancel the consumers, fill the buffer, call once more |
| Backoff.Backoff.Next | internal/adapters/sqsqueue/backoff.go:41-55 | counts the failure and draws below the cap for the failures before it |
| Backoff.ReceiveLoop | internal/adapters/sqsqueue/sqsqueue.go:263-284 | each report carries the length of the streak it ends and a delay below that streak's cap |
| Backoff.OneReportEach | internal/adapters/sqsqueue/sqsqueue.go:263-284 | one report for each failed poll, and earlier reports stay |
| Backoff.JitterReaches | internal/adapters/sqsqueue/backoff.go:51-54 | exactly the delays from zero to below the bound can be drawn |
| Backoff.CapMonotone | internal/adapters/sqsqueue/backoff.go:42-49 | within a streak the cap never decreases nor exceeds the maximum |
| Backoff.ShiftLimitUnobservable | internal/adapters/sqsqueue/backoff.go:42-49 | limiting the shift changes no cap exactly when base * 2^32 reaches the maximum |
| Backoff.StreakWait | internal/adapters/sqsqueue/backoff.go:41-55 | a streak of n waits less than base * (2^n - 1) and less than n times the maximum |
| Backoff.CurrentStreakWait | internal/adapters/sqsqueue/sqsqueue.go:263-284 | the same for the streak a receive loop is in, whatever polls came before |
| Sizing.ScaleRounds | internal/adapters/imageproc/imageproc.go:222-224 | scaling is exact to half a pixel |
| Sizing.FitInBox | internal/adapters/imageproc/imageproc.go:177-199 | the result lies in the box, touches a side and is at least one pixel each way |
| Sizing.FitKeepsRatio | internal/adapters/imageproc/imageproc.go:177-199 | the free side is within half a pixel of the source ratio, or that is below half a pixel and the side is one |
| Sizing.DerivedKeepsRatio | internal/adapters/imageproc/imageproc.go:185-188 | with one side given it is kept, and the other has the source ratio to the nearest pixel |
| Sizing.TargetAnswers | internal/adapters/imageproc/imageproc.go:178-190 | each refusal exactly when, and the exact box when no ratio is to be kept |
| Sizing.TargetTransposes | internal/adapters/imageproc/imageproc.go:177-199 | sizing commutes with swapping width and height, for every kind of request |
| Sizing.FitMonotoneWidth | internal/adapters/imageproc/imageproc.go:177-199 | a wider box never shrinks either side, also across the branch switch |
| Sizing.FitMonotoneHeight | internal/adapters/imageproc/imageproc.go:177-199 | nor does a taller one |
| Sizing.TargetIdempotent | internal/adapters/imageproc/imageproc.go:177-199 | resizing again changes nothing, for every kind of request |
| Sizing.DerivedWithinMaximum | internal/adapters/imageproc/imageproc.go:185-188 | when exactly a derived height, or width, stays within the largest dimension |
| Sizing.DerivedBeyondMaximum | internal/adapters/imageproc/imageproc.go:187-188 | a 1 x 20000 source one pixel wide is sized 20000 high |
| Sizing.ThumbnailBounds | internal/adapters/imageproc/imageproc.go:204-218 | never above the bound or the source, longest side at the bound when the source exceeds it, orientation kept |
| Sizing.ThumbnailKeepsRatio | internal/adapters/imageproc/imageproc.go:205-218 | the short side has the source ratio to the nearest pixel; each refusal exactly when |
| Sizing.ThumbnailTransposes | internal/adapters/imageproc/imageproc.go:204-218 | thumbnails commute with swapping width and height |
| Sizing.ThumbnailIdempotent | internal/adapters/imageproc/imageproc.go:204-218 | a thumbnail of a thumbnail is itself |
| Sizing.NoOverflow | internal/adapters/imageproc/imageproc.go:177-232 | no intermediate leaves 64 bits for sources below 2^31 |
| RateLimiter.RateLimiter.Allow | internal/adapters/httpapi/ratelimit.go:82-113 | a disabled limiter allows everything and tracks nobody; otherwise a token is taken if there is one, and else the wait until there is |
| RateLimiter.RateLimiter.Sweep | internal/adapters/httpapi/ratelimit.go:116-136 | drops exactly the clients last seen before the cutoff |
| RateLimiter.SameAnswers | internal/adapters/httpapi/ratelimit.go:82-136 | two limiters that differ in full idle buckets answer every run alike |
| RateLimiter.EvictionUnobservable | internal/adapters/httpapi/ratelimit.go:82-136 | eviction is unobservable exactly when limit * ttl is at least the burst |
| RateLimiter.WindowBudget | internal/adapters/httpapi/ratelimit.go:87-112 | every window of length T of every run grants a client at most burst + limit * T requests, exactly when limit * ttl is at least the burst |
| RateLimiter.BudgetBroken | internal/adapters/httpapi/ratelimit.go:125-132 | below that, a run granted twice the burst in a window too short for it |
| RateLimiter.AllowedIffRoom | internal/adapters/httpapi/ratelimit.go:87-112 | a request is refused only if in some window up to it one more would exceed burst + limit * T, and, when limit * ttl is at least the burst, exactly then |
| RateLimiter.DisabledAllowsAll | internal/adapters/httpapi/ratelimit.go:79-85 | with a non-positive limit or burst every request of every run is allowed at once and no client is tracked |
| RateLimiter.RefusedUntilDelay | internal/adapters/httpapi/ratelimit.go:98-112 | after a refusal a silent client is served exactly from the delay on |
| RateLimiter.RetryAfterIsLeast | internal/adapters/httpapi/ratelimit.go:173-176 | after any run the advertised seconds are the least whole number, at least one, from which on the client is served whenever it next asks |
| RateLimiter.RetryAfterInRun | internal/adapters/httpapi/ratelimit.go:98-112 | in one run a request exactly k seconds later is served if and only if k is at least that number |
| DynamoService.SetRoundTrip | internal/adapters/dynamorepo/dynamorepo.go:211-228 | parsing a rendered SET expression gives its clauses back |
| DynamoRepo.ItemRoundTrip | internal/adapters/dynamorepo/dynamorepo.go:98-135 | a stored job reads back as itself |
| DynamoRepo.ItemTexts | internal/adapters/dynamorepo/dynamorepo.go:98-114 | the attributes the texts of a job are stored under |
| DynamoRepo.ItemNumbers | internal/adapters/dynamorepo/dynamorepo.go:98-114 | and its numbers and flags |
| DynamoRepo.TextsRoundTrip | internal/domain/job.go:7-29 | the stored words of statuses and formats, and that they read back |
| DynamoRepo.PlaceholdersMatch | internal/adapters/dynamorepo/dynamorepo.go:211-233 | every placeholder is defined and every defined one used |
| DynamoRepo.AssignedIsUpdated | internal/adapters/dynamorepo/dynamorepo.go:211-228 | evaluating the generated assignments on a stored job is the map's update |
| DynamoRepo.UpdateMeaning | internal/adapters/dynamorepo/dynamorepo.go:225-243 | the service accepts every generated request, and fails only the condition, exactly for unknown jobs |
| DynamoRepo.JobRepository.BuildUpdate | internal/adapters/dynamorepo/dynamorepo.go:211-233 | the expression, placeholders and values built in place are the ones the laws are about |
| DynamoRepo.JobRepository.Save | internal/adapters/dynamorepo/dynamorepo.go:138-162 | one transition of the table |
| DynamoRepo.JobRepository.Get | internal/adapters/dynamorepo/dynamorepo.go:165-189 | the stored job, or not found |
| DynamoRepo.JobRepository.UpdateStatus | internal/adapters/dynamorepo/dynamorepo.go:195-243 | one transition of the table |
| DynamoRepo.SimulatesOne | internal/adapters/memrepo/memrepo.go:111-131 | each request keeps table and map alike, with the same reply but for one request |
| DynamoRepo.Simulates | internal/adapters/dynamorepo/dynamorepo.go:138-243 | the same over every sequence: equal replies exactly when that request does not occur |

## Left out

- Pixels and codecs: the processor is any deterministic function that may refuse its input.
- Stored objects are written whole or not at all; retention, expiry and the file system are not modelled.
- HTTP routing, multipart parsing, media sniffing, authentication and problem documents.
- Telemetry, trace metadata on deliveries, logging, metrics and health checks.
- Random identifiers: each new one is taken to be new and not empty, and may otherwise be any string; `newID` is an argument.
- Clocks and jitter: the instant of a call and the draw of a delay are arguments; instants and durations are whole nanoseconds without a 64-bit range.
- Backoff.Backoff.Next: computes in whole nanoseconds where the code multiplies floating-point numbers; the two agree for base and maximum up to 2^53 ns, and a base that is not positive waits nothing in both.
- RateLimiter.RateLimiter.Allow: tokens, limits and delays are exact reals where the token bucket library rounds to floating point and whole nanoseconds, and one call is atomic where the code releases its lock before reserving.
- ProcessJob.SoloFaults: a missing record or object is "job not found" or "object does not exist", without the words an adapter puts around it; what a failing call says is an argument.
- RateLimiter.AllowedIffRoom: a request allowed without room in some window is possible when limit * ttl is below the burst, as `RateLimiter.BudgetBroken` shows.
- RateLimiter.RetryAfterInRun: assumes a bucket is kept until it can hold one token (limit * ttl at least one), since a forgotten client is served at once; `RateLimiter.RetryAfterIsLeast` assumes nothing of the kind.
- PipelineLifecycle.EventInOrder: assumes no two executions of one job overlap and no failed write takes effect; the defaults do not guarantee the first, since visibility and job timeout are both two minutes and a batch waits behind an unbuffered channel. `PipelineLifecycle.LifecycleIff` has neither assumption.
- PipelineLifecycle.LifecycleIff: a request that marks its job failed while a worker is processing it counts as finding what it expects, since processing then failed is a history the lifecycle allows; `PipelineLifecycle.MarkingMidway` is such a run.
- WorkerPool.Pool.Work: one call happens after another, in any order; the interleaving of their steps is the subject of `PipelineSettlement`, whose runs have the same counters and settle calls.
- PipelineSettlement.CountersAreReturns: a process that crashes starts again from zero, and the execution it was in is not counted.
- Visibility is a step that may happen at any time, so timeouts are not compared; a context that ends is a failing call, or a pool's cancellation.
- A broker may refuse or honour an outdated receipt handle; both are runs of the machine.
- MemRepo.JobRepository.Get: the copy made on the way in and out is the value itself here, so aliasing between caller and store cannot be expressed.
- DynamoRepo.ItemRoundTrip: numbers are integers, not decimal text, and times are compared as the nanosecond counts that are stored, inside the range 64 bits can hold; items of any other shape leave their fields at zero.
- DynamoRepo.Simulates: live contexts and no service failures other than the condition; the repositories are given the same instants.
- PoolWaiting.EnqueueWaitsIff: speaks of a call made while everything rests and of what the queue and the pools then do by themselves; another call, a Close, a cancellation or a caller's own context may come in between in a run, and change the answer.
- PipelineTermination.EveryRunEnds: counts hand-outs against the redrive bound, a parameter; a broker without one may redeliver for ever.
- MemQueue.Queue.Enqueue: a call that has to wait returns `MustWait` and comes back through `Resume`, and a Close that has to wait returns without having begun, where the Go calls block; the steps of calls that overlap are interleaved in `PoolMachine`, and each consumer of the object has one worker.
- Handling a delivery is one begin and one end in the pool machine; what happens in between is the pipeline machine's subject.
- The reads and writes of one in-process queue call are single steps; Go's memory model below the lock and the channel is not modelled.
- The broker of the pipeline machine is the SQS one; with the in-process queue a delivery is made once and never settled, which the pool machine covers.
- `Consume`, the identifier-only form of `ConsumeDeliveries`, adds a second forwarder of the same kind.
