/** What a pool does with the deliveries its workers take: each is run through
    the use case, counted by outcome and settled with the queue, if the queue
    keeps track of deliveries at all. Here one call happens after another;
    PipelineSettlement has the same counters under every interleaving. */
module WorkerPool {
  import opened Wrappers
  import opened Domain
  import opened Repository
  import opened Ports
  import opened Receipts
  import opened SqsQueue
  import opened ProcessJob

  datatype Outcome = Processed | Failed | Skipped

  function OutcomeOf(v: Verdict): Outcome {
    match v
    case NotPending => Skipped
    case Faulted(_) => Outcome.Failed
    case Completed => Processed
  }

  // A delivery, with how the calls made for it end.
  datatype Delivery = Delivery(id: string, plan: Plan, settleFails: bool)

  /** What happens to a pool, one call at a time: its receive loop records a
      response, or one of its workers handles a delivery. */
  datatype Turn = Receive(messages: seq<Message>) | Handling(delivery: Delivery)

  datatype Report = Report(id: string, outcome: Outcome)

  // What an acknowledging queue has seen: its receipts' history and the settle
  // calls it made.
  datatype Log = Log(history: seq<ReceiptEvent>, calls: seq<BrokerCall>)

  datatype Progress = Progress(data: Data, reports: seq<Report>, log: Log)

  /** Settling takes the job's receipt and, if there is one, makes one call: a
      failed delivery becomes visible again, any other is deleted. */
  function Settled(log: Log, id: string, o: Outcome): Log {
    Log(log.history + [Taken(id)],
        match LatestUntaken(log.history, id)
        case None => log.calls
        case Some(handle) =>
          log.calls + [if o.Failed? then MakeVisible(handle) else DeleteMessage(handle)])
  }

  /** What an acknowledging queue sees of one settlement: the receipt is taken,
      and with one to take exactly one call is made with its handle, by which the
      message becomes visible again if the delivery failed and is deleted if it
      did not. */
  predicate SettledBy(before: Log, after: Log, id: string, failed: bool) {
    && after.history == before.history + [Taken(id)]
    && match LatestUntaken(before.history, id)
       case None => after.calls == before.calls
       case Some(handle) =>
         after.calls == before.calls + [if failed then MakeVisible(handle) else DeleteMessage(handle)]
  }

  lemma SettledByIs(before: Log, after: Log, id: string, o: Outcome)
    ensures SettledBy(before, after, id, o.Failed?) <==> after == Settled(before, id, o)
  {
  }

  // What a turn does to the data, and the report it makes, if any.
  function Ran(p: Processor, turn: Turn, d: Data): (Data, seq<Report>) {
    match turn
    case Receive(_) => (d, [])
    case Handling(delivery) =>
      var (pc, after) := Solo(p, delivery.id, Load, d, delivery.plan);
      (after, [Report(delivery.id, OutcomeOf(pc.verdict))])
  }

  function Logged(log: Log, turn: Turn, made: seq<Report>): Log {
    match turn
    case Receive(ms) => log.(history := log.history + Receives(ms))
    case Handling(_) => if made == [] then log else Settled(log, made[0].id, made[0].outcome)
  }

  function AfterTurn(p: Processor, turn: Turn, r: Progress): Progress {
    var (data, made) := Ran(p, turn, r.data);
    Progress(data, r.reports + made, Logged(r.log, turn, made))
  }

  function AfterTurns(p: Processor, turns: seq<Turn>, r: Progress): Progress {
    if turns == [] then r
    else AfterTurn(p, turns[|turns| - 1], AfterTurns(p, turns[..|turns| - 1], r))
  }

  function One(outcome: Outcome, o: Outcome): nat {
    if outcome == o then 1 else 0
  }

  function Count(reports: seq<Report>, o: Outcome): nat {
    if reports == [] then 0
    else Count(reports[..|reports| - 1], o) + One(reports[|reports| - 1].outcome, o)
  }

  // The jobs handled, and the jobs whose receipts were taken, in order.
  function HandledIds(turns: seq<Turn>): seq<string> {
    if turns == [] then []
    else
      var before := HandledIds(turns[..|turns| - 1]);
      match turns[|turns| - 1]
      case Receive(_) => before
      case Handling(delivery) => before + [delivery.id]
  }

  function TakenIds(h: seq<ReceiptEvent>): seq<string> {
    if h == [] then []
    else
      var before := TakenIds(h[..|h| - 1]);
      match h[|h| - 1]
      case Received(_) => before
      case Taken(id) => before + [id]
  }

  lemma {:induction false} CountsAddUp(reports: seq<Report>)
    ensures Count(reports, Processed) + Count(reports, Outcome.Failed) + Count(reports, Skipped) ==
            |reports|
  {
    if reports != [] {
      CountsAddUp(reports[..|reports| - 1]);
    }
  }

  lemma CountMore(reports: seq<Report>, r: Report, o: Outcome)
    ensures Count(reports + [r], o) == Count(reports, o) + One(r.outcome, o)
  {
    assert (reports + [r])[..|reports|] == reports;
  }

  lemma {:induction false} ReceivesTakeNothing(h: seq<ReceiptEvent>, ms: seq<Message>)
    ensures TakenIds(h + Receives(ms)) == TakenIds(h)
  {
    if ms == [] {
      assert h + Receives(ms) == h;
    } else {
      var init := ms[..|ms| - 1];
      ReceivesTakeNothing(h, init);
      assert (h + Receives(ms))[..|h| + |ms| - 1] == h + Receives(init);
    }
  }

  /** Wherever receives come in between, every delivery handled is reported
      once, takes its job's receipt once, in order, and makes at most one settle
      call. */
  lemma {:induction false} OneSettlementEach(p: Processor, turns: seq<Turn>, r: Progress)
    ensures
      var end := AfterTurns(p, turns, r);
      && |end.reports| == |r.reports| + |HandledIds(turns)| && r.reports <= end.reports
      && TakenIds(end.log.history) == TakenIds(r.log.history) + HandledIds(turns)
      && r.log.calls <= end.log.calls
      && |end.log.calls| <= |r.log.calls| + |HandledIds(turns)|
  {
    if turns != [] {
      var n := |turns| - 1;
      OneSettlementEach(p, turns[..n], r);
      var mid := AfterTurns(p, turns[..n], r);
      match turns[n]
      case Receive(ms) => ReceivesTakeNothing(mid.log.history, ms);
      case Handling(delivery) =>
        assert (mid.log.history + [Taken(delivery.id)])[..|mid.log.history|] == mid.log.history;
    }
  }

  // ------------------------------------------------------------ settlement

  // A position that carries a copy of the job's record carries its own.
  predicate PcNamed(id: string, pc: Pc) {
    match pc
    case Load => true
    case Claim(job) => job.id == id
    case Read(job) => job.id == id
    case Transform(job, _) => job.id == id
    case StoreResult(job, _) => job.id == id
    case MarkDone(job) => job.id == id
    case MarkFailed(job, _) => job.id == id
    case Returned(_, _) => true
  }

  // An execution writes no record but its own, and makes none.
  predicate TouchesOnly(id: string, d: Data, d': Data) {
    && Filed(d'.jobs) && d'.jobs.Keys == d.jobs.Keys
    && (forall other :: other in d.jobs && other != id ==> d'.jobs[other] == d.jobs[other])
  }

  lemma AdvanceTouches(p: Processor, id: string, pc: Pc, d: Data, call: Call)
    requires PcNamed(id, pc) && !pc.Returned? && Filed(d.jobs)
    ensures var (pc', d') := Advance(p, id, pc, d, call); PcNamed(id, pc') && TouchesOnly(id, d, d')
  {
  }

  lemma {:induction false} SoloTouches(p: Processor, id: string, pc: Pc, d: Data, plan: Plan)
    requires PcNamed(id, pc) && Filed(d.jobs)
    ensures TouchesOnly(id, d, Solo(p, id, pc, d, plan).1)
    decreases Rank(pc)
  {
    if !pc.Returned? {
      var (pc', d') := Advance(p, id, pc, d, plan(Rank(pc)));
      AdvanceTouches(p, id, pc, d, plan(Rank(pc)));
      SoloStep(p, id, pc, d, plan);
      SoloTouches(p, id, pc', d', plan);
    }
  }

  lemma {:induction false} TurnsFiled(p: Processor, turns: seq<Turn>, r: Progress)
    requires Filed(r.data.jobs)
    ensures Filed(AfterTurns(p, turns, r).data.jobs)
  {
    if turns != [] {
      TurnsFiled(p, turns[..|turns| - 1], r);
      var last := turns[|turns| - 1];
      if last.Handling? {
        SoloTouches(p, last.delivery.id, Load, AfterTurns(p, turns[..|turns| - 1], r).data, last.delivery.plan);
      }
    }
  }

  /** Each turn of a run, by what its execution came to: its report, and the one
      settle call its receipt allows, which deletes the message unless the
      execution failed and makes it visible again if it did. A message is deleted
      only when its job has left pending. A receive settles nothing. */
  lemma TurnSettles(p: Processor, turns: seq<Turn>, k: nat, r: Progress)
    requires Filed(r.data.jobs) && k < |turns|
    ensures
      var before, after := AfterTurns(p, turns[..k], r), AfterTurns(p, turns[..k + 1], r);
      match turns[k]
      case Receive(ms) =>
        && after.data == before.data && after.reports == before.reports
        && after.log.calls == before.log.calls
        && after.log.history == before.log.history + Receives(ms)
      case Handling(delivery) =>
        var id := delivery.id;
        var (pc, data) := Solo(p, id, Load, before.data, delivery.plan);
        && after.data == data
        && |after.reports| == |before.reports| + 1 && before.reports <= after.reports
        && var report := after.reports[|before.reports|];
        && report.id == id
        && (report.outcome == Processed <==> pc.verdict == Completed)
        && (report.outcome == Outcome.Failed <==> pc.verdict.Faulted?)
        && (report.outcome == Skipped <==> pc.verdict == NotPending)
        && SettledBy(before.log, after.log, id, pc.verdict.Faulted?)
        && (!pc.verdict.Faulted? ==> id in data.jobs && data.jobs[id].status != Pending)
  {
    TurnsFiled(p, turns[..k], r);
    var before := AfterTurns(p, turns[..k], r);
    assert turns[..k + 1][..k] == turns[..k];
    if turns[k].Handling? {
      var delivery := turns[k].delivery;
      SettledOrPending(p, delivery.id, before.data, delivery.plan);
    }
  }

  // An execution that did not fail leaves its job out of pending.
  lemma SettledOrPending(p: Processor, id: string, d: Data, plan: Plan)
    requires Filed(d.jobs)
    ensures var (pc, end) := Solo(p, id, Load, d, plan);
            !pc.verdict.Faulted? ==> id in end.jobs && end.jobs[id].status != Pending
  {
    SoloVerdict(p, id, d, plan);
  }

  // ------------------------------------------------------------ duplicates

  // What becomes of a delivery of a job that has left pending: it is skipped,
  // or fails because the record could not be loaded.
  function Fate(delivery: Delivery): Outcome {
    if delivery.plan(6).Ok? then Skipped else Outcome.Failed
  }

  // The fates of the deliveries of one job, and what was reported of them.
  function FateIn(turn: Turn, id: string): seq<Outcome> {
    if turn.Handling? && turn.delivery.id == id then [Fate(turn.delivery)] else []
  }

  function Fates(turns: seq<Turn>, id: string): seq<Outcome> {
    if turns == [] then [] else Fates(turns[..|turns| - 1], id) + FateIn(turns[|turns| - 1], id)
  }

  function OutcomesOf(reports: seq<Report>, id: string): seq<Outcome> {
    if reports == [] then []
    else
      var before := OutcomesOf(reports[..|reports| - 1], id);
      var last := reports[|reports| - 1];
      if last.id == id then before + [last.outcome] else before
  }

  lemma OutcomesMore(reports: seq<Report>, r: Report, id: string)
    ensures OutcomesOf(reports + [r], id) ==
            OutcomesOf(reports, id) + if r.id == id then [r.outcome] else []
  {
    assert (reports + [r])[..|reports|] == reports;
  }

  lemma LeftFate(p: Processor, id: string, d: Data, delivery: Delivery)
    requires id in d.jobs && d.jobs[id].status != Pending && delivery.id == id
    ensures var (pc, end) := Solo(p, id, Load, d, delivery.plan);
            OutcomeOf(pc.verdict) == Fate(delivery) && end == d
  {
    SoloClaim(p, id, d, delivery.plan);
  }

  lemma TurnFate(p: Processor, id: string, turn: Turn, r: Progress)
    requires Filed(r.data.jobs) && id in r.data.jobs && r.data.jobs[id].status != Pending
    ensures
      var end := AfterTurn(p, turn, r);
      && Filed(end.data.jobs) && id in end.data.jobs && end.data.jobs[id] == r.data.jobs[id]
      && OutcomesOf(end.reports, id) == OutcomesOf(r.reports, id) + FateIn(turn, id)
  {
    match turn
    case Receive(_) => assert r.reports + [] == r.reports;
    case Handling(delivery) =>
      SoloTouches(p, delivery.id, Load, r.data, delivery.plan);
      OutcomesMore(r.reports, Ran(p, turn, r.data).1[0], id);
      if delivery.id == id {
        LeftFate(p, id, r.data, delivery);
      }
  }

  // A job that has left pending stays as it is however often it is handled.
  lemma {:induction false} LeftStays(p: Processor, id: string, turns: seq<Turn>, r: Progress)
    requires Filed(r.data.jobs) && id in r.data.jobs && r.data.jobs[id].status != Pending
    ensures
      var end := AfterTurns(p, turns, r);
      && Filed(end.data.jobs) && id in end.data.jobs && end.data.jobs[id] == r.data.jobs[id]
      && OutcomesOf(end.reports, id) == OutcomesOf(r.reports, id) + Fates(turns, id)
  {
    if turns == [] {
      assert OutcomesOf(r.reports, id) + [] == OutcomesOf(r.reports, id);
    } else {
      var n := |turns| - 1;
      LeftStays(p, id, turns[..n], r);
      LastTurn(p, id, turns[n], AfterTurns(p, turns[..n], r), OutcomesOf(r.reports, id), Fates(turns[..n], id));
    }
  }

  lemma LastTurn(p: Processor, id: string, turn: Turn, r: Progress, earlier: seq<Outcome>, fates: seq<Outcome>)
    requires Filed(r.data.jobs) && id in r.data.jobs && r.data.jobs[id].status != Pending
    requires OutcomesOf(r.reports, id) == earlier + fates
    ensures
      var end := AfterTurn(p, turn, r);
      && Filed(end.data.jobs) && id in end.data.jobs && end.data.jobs[id] == r.data.jobs[id]
      && OutcomesOf(end.reports, id) == earlier + (fates + FateIn(turn, id))
  {
    TurnFate(p, id, turn, r);
    assert earlier + fates + FateIn(turn, id) == earlier + (fates + FateIn(turn, id));
  }

  /** Once a claim has taken effect no later delivery of the job changes its
      record, whatever other jobs are handled and received in between: each is
      skipped when the record loads and fails when it does not. */
  lemma DuplicatesSkipped(p: Processor, id: string, first: Delivery, turns: seq<Turn>, r: Progress)
    requires Filed(r.data.jobs) && id in r.data.jobs && r.data.jobs[id].status == Pending
    requires first.id == id && first.plan(6).Ok? && first.plan(5).Effective()
    ensures
      var mid := AfterTurn(p, Handling(first), r);
      var end := AfterTurns(p, turns, mid);
      && mid.reports[|r.reports|].outcome != Skipped
      && id in mid.data.jobs && mid.data.jobs[id].status != Pending
      && id in end.data.jobs && end.data.jobs[id] == mid.data.jobs[id]
      && OutcomesOf(end.reports, id) == OutcomesOf(mid.reports, id) + Fates(turns, id)
  {
    SoloVerdict(p, id, r.data, first.plan);
    SoloFinalStatus(p, id, r.data, first.plan);
    SoloTouches(p, id, Load, r.data, first.plan);
    LeftStays(p, id, turns, AfterTurn(p, Handling(first), r));
  }

  // ---------------------------------------------------------------- the pool

  class Pool {
    const process: UseCase
    // Null for a queue that hands out each job exactly once.
    const acker: Queue?
    var processed: nat
    var failed: nat
    var skipped: nat

    ghost predicate Valid()
      reads this, acker, if acker == null then {} else {acker.client}
    {
      acker != null ==> acker.Valid()
    }

    ghost function Frame(): set<object> {
      {this, process.services} + if acker == null then {} else {acker, acker.client}
    }

    constructor (process: UseCase, acker: Queue?)
      requires acker != null ==> acker.Valid()
      ensures Valid() && this.process == process && this.acker == acker
      ensures processed == failed == skipped == 0
    {
      this.process := process;
      this.acker := acker;
      processed, failed, skipped := 0, 0, 0;
    }

    ghost function Seen(): Log
      requires acker != null
      reads this, acker, acker.client
    {
      Log(acker.history, acker.client.calls)
    }

    /** One Ack or Nack, if the queue takes them: with a receipt, a failed
        delivery's message becomes visible again and any other's is deleted. A
        delivery left unsettled reappears by itself, so the error goes no further
        than the log. */
    method Settle(id: string, outcome: Outcome, fails: bool)
      requires Valid()
      modifies if acker == null then {} else {acker, acker.client}
      ensures Valid()
      ensures acker != null ==> SettledBy(old(Seen()), Seen(), id, outcome.Failed?)
    {
      if acker == null {
        return;
      }
      var unsettled: bool;
      if outcome.Failed? {
        unsettled := acker.Nack(id, fails);
      } else {
        unsettled := acker.Ack(id, fails);
      }
    }

    /** Handles one delivery: one execution, one count, one settlement, each by
        the verdict of the execution. */
    method Handle(delivery: Delivery) returns (ghost outcome: Outcome)
      requires Valid()
      modifies Frame()
      ensures Valid()
      ensures var (pc, after) := Solo(process.processor, delivery.id, Load,
                                      old(process.services.Contents()), delivery.plan);
              && outcome == OutcomeOf(pc.verdict) && process.services.Contents() == after
              && processed == old(processed) + (if pc.verdict == Completed then 1 else 0)
              && failed == old(failed) + (if pc.verdict.Faulted? then 1 else 0)
              && skipped == old(skipped) + (if pc.verdict == NotPending then 1 else 0)
              && (acker != null ==> SettledBy(old(Seen()), Seen(), delivery.id, pc.verdict.Faulted?))
      ensures process.services.queued == old(process.services.queued)
    {
      var job, verdict := process.Execute(delivery.id, delivery.plan);
      outcome := OutcomeOf(verdict);
      match verdict {
        case NotPending =>
          skipped := skipped + 1;
          Settle(delivery.id, Skipped, delivery.settleFails);
        case Faulted(_) =>
          failed := failed + 1;
          Settle(delivery.id, Outcome.Failed, delivery.settleFails);
        case Completed =>
          processed := processed + 1;
          Settle(delivery.id, Processed, delivery.settleFails);
      }
    }

    // One turn: the counters follow the report it makes, if any.
    method Take(turn: Turn) returns (ghost made: seq<Report>)
      requires Valid()
      modifies Frame()
      ensures Valid()
      ensures (process.services.Contents(), made) ==
              Ran(process.processor, turn, old(process.services.Contents()))
      ensures acker != null ==> Seen() == Logged(old(Seen()), turn, made)
      ensures processed == old(processed) + Count(made, Processed)
      ensures failed == old(failed) + Count(made, Outcome.Failed)
      ensures skipped == old(skipped) + Count(made, Skipped)
    {
      match turn {
        case Receive(ms) =>
          if acker != null {
            var deliveries := acker.Record(ms);
          }
          made := [];
        case Handling(delivery) =>
          ghost var before := if acker == null then Log([], []) else Seen();
          ghost var outcome := Handle(delivery);
          if acker != null {
            SettledByIs(before, Seen(), delivery.id, outcome);
          }
          made := [Report(delivery.id, outcome)];
          CountOne(made[0]);
      }
    }

    /** The life of a pool, whichever of its workers take the deliveries and
        wherever receives come in between: each delivery is counted once and
        settled once, as its own outcome says. */
    method Work(turns: seq<Turn>) returns (ghost reports: seq<Report>)
      requires Valid()
      modifies Frame()
      ensures Valid()
      ensures
        var log := if acker == null then Log([], []) else old(Seen());
        var end := AfterTurns(process.processor, turns,
                              Progress(old(process.services.Contents()), [], log));
        && process.services.Contents() == end.data && reports == end.reports
        && (acker != null ==> Seen() == end.log)
      ensures processed == old(processed) + Count(reports, Processed)
      ensures failed == old(failed) + Count(reports, Outcome.Failed)
      ensures skipped == old(skipped) + Count(reports, Skipped)
      ensures processed + failed + skipped ==
              old(processed + failed + skipped) + |HandledIds(turns)|
    {
      ghost var p := process.processor;
      ghost var log := if acker == null then Log([], []) else Seen();
      ghost var start := Progress(process.services.Contents(), [], log);
      ghost var progress := start;
      var i := 0;
      while i < |turns|
        invariant 0 <= i <= |turns| && Valid()
        invariant progress == AfterTurns(p, turns[..i], start)
        invariant process.services.Contents() == progress.data
        invariant acker != null ==> Seen() == progress.log
        invariant processed == old(processed) + Count(progress.reports, Processed)
        invariant failed == old(failed) + Count(progress.reports, Outcome.Failed)
        invariant skipped == old(skipped) + Count(progress.reports, Skipped)
      {
        ghost var made := Take(turns[i]);
        assert turns[..i + 1][..i] == turns[..i];
        TurnCounts(p, turns[i], progress);
        progress := AfterTurn(p, turns[i], progress);
        i := i + 1;
      }
      assert turns[..i] == turns;
      CountsAddUp(progress.reports);
      OneSettlementEach(p, turns, start);
      reports := progress.reports;
    }
  }

  lemma CountOne(r: Report)
    ensures forall o :: Count([r], o) == One(r.outcome, o)
  {
    forall o ensures Count([r], o) == One(r.outcome, o) {
      CountMore([], r, o);
      assert [] + [r] == [r];
    }
  }

  lemma TurnCounts(p: Processor, turn: Turn, r: Progress)
    ensures var made := Ran(p, turn, r.data).1;
            forall o :: Count(AfterTurn(p, turn, r).reports, o) == Count(r.reports, o) + Count(made, o)
  {
    var made := Ran(p, turn, r.data).1;
    if made != [] {
      CountOne(made[0]);
      assert made == [made[0]];
      forall o ensures Count(r.reports + made, o) == Count(r.reports, o) + Count(made, o) {
        CountMore(r.reports, made[0], o);
      }
    } else {
      assert r.reports + made == r.reports;
    }
  }
}
