/** Termination under every fault. Whatever fails, expires, crashes or is
    redelivered, a run ends unless requests, crashes or stops keep coming, since
    each message is handed out no more often than the redrive bound; and where it
    ends every message is settled for good. */
module PipelineTermination {
  import opened Wrappers
  import opened Domain
  import opened Ports
  import opened Receipts
  import opened Sums
  import opened Pipeline
  import opened PipelineSafety
  import P = ProcessJob
  import C = CreateJob
  import Progress = PipelineProgress

  // ---------------------------------------------------------------- measure

  // What a message can still cause: each remaining hand-out is worth fourteen
  // events, from the hand-out to the settlement.
  function MsgLeft(redrive: nat, m: Msg): nat {
    var handOuts := if m.receives < redrive then redrive - m.receives else 0;
    match m.place
    case Visible => 14 * handOuts + 1
    case InFlight => 14 * handOuts + 2
    case Deleted => 0
    case DeadLettered => 0
  }

  function MsgsLeft(redrive: nat): Msg -> nat {
    (m: Msg) => MsgLeft(redrive, m)
  }

  function RequestLeft(redrive: nat, pc: C.Pc): nat {
    match pc
    case PutOriginal(_, _, _) => 14 * redrive + 5
    case SaveRecord(_, _) => 14 * redrive + 4
    case Enqueue(_) => 14 * redrive + 3
    case MarkFailed(_, _) => 1
    case Accepted(_) => 0
    case Refused(_) => 0
  }

  function RequestsLeft(redrive: nat): C.Pc -> nat {
    (pc: C.Pc) => RequestLeft(redrive, pc)
  }

  function ConsumerLeft(k: Consumer): nat {
    12 * |k.response| + 11 * |k.pending|
  }

  function ThreadLeft(t: Thread): nat {
    match t.work
    case Idle => 0
    case Running(_, pc) => 4 + P.Rank(pc)
    case Settling(_, _) => 2
    case Calling(_, _, _) => 1
  }

  function MeasureOf(redrive: nat, s: State): nat {
    Total(s.requests, RequestsLeft(redrive)) + Total(s.msgs, MsgsLeft(redrive))
    + Total(s.consumers, ConsumerLeft) + Total(s.threads, ThreadLeft)
  }

  // Events from outside: a new request, and a process that stops or crashes.
  predicate Outside(e: Event) {
    e.Submit? || e.Crash? || e.StopConsumer?
  }

  function Push(redrive: nat, e: Event): nat {
    if e.Submit? then 14 * redrive + 6 else if Outside(e) then 1 else 0
  }

  lemma SubmitLowers(c: Config, s: State, e: Event)
    requires Enabled(c, s, e) && e.Submit?
    ensures MeasureOf(c.redrive, Apply(c, s, e)) < MeasureOf(c.redrive, s) + Push(c.redrive, e)
  {
    TotalAppend(s.requests, C.PutOriginal(e.id, e.spec, e.source), RequestsLeft(c.redrive));
  }

  // What a position and the message it sends have left, against the position
  // before.
  lemma RequestAdvanceLowers(redrive: nat, pc: C.Pc, d: Data, call: Call)
    requires !C.Ended(pc)
    ensures
      var (pc', _, sent) := C.Advance(pc, d, call);
      && |sent| <= 1
      && RequestLeft(redrive, pc') + |sent| * (14 * redrive + 1) < RequestLeft(redrive, pc)
  {
  }

  lemma PublishedLeft(redrive: nat, sent: seq<string>)
    requires |sent| <= 1
    ensures Total(Published(sent), MsgsLeft(redrive)) == |sent| * (14 * redrive + 1)
  {
    if sent != [] {
      assert Published(sent) == [] + [Msg(sent[0], Visible, 0, 0)];
      TotalAppend([], Msg(sent[0], Visible, 0, 0), MsgsLeft(redrive));
    }
  }

  lemma AppendedLeft(redrive: nat, msgs: seq<Msg>, more: seq<Msg>)
    requires |more| <= 1
    ensures Total(msgs + more, MsgsLeft(redrive)) ==
            Total(msgs, MsgsLeft(redrive)) + Total(more, MsgsLeft(redrive))
  {
    if more == [] {
      assert msgs + more == msgs;
    } else {
      assert msgs + more == msgs + [more[0]] && more == [] + [more[0]];
      TotalAppend(msgs, more[0], MsgsLeft(redrive));
      TotalAppend([], more[0], MsgsLeft(redrive));
    }
  }

  lemma RequestLowers(c: Config, s: State, i: nat, call: Call)
    requires Enabled(c, s, RequestStep(i, call))
    ensures MeasureOf(c.redrive, Apply(c, s, RequestStep(i, call))) < MeasureOf(c.redrive, s)
  {
    var (pc, _, sent) := C.Advance(s.requests[i], s.data, call);
    TotalUpdate(s.requests, i, pc, RequestsLeft(c.redrive));
    RequestAdvanceLowers(c.redrive, s.requests[i], s.data, call);
    PublishedLeft(c.redrive, sent);
    AppendedLeft(c.redrive, s.msgs, Published(sent));
  }

  lemma RequestCrashLowers(c: Config, s: State, i: nat)
    requires Enabled(c, s, RequestCrash(i))
    ensures MeasureOf(c.redrive, Apply(c, s, RequestCrash(i))) < MeasureOf(c.redrive, s)
  {
    TotalUpdate(s.requests, i, C.Refused("crashed"), RequestsLeft(c.redrive));
  }

  lemma HandOutLowers(c: Config, s: State, p: nat, m: nat)
    requires Enabled(c, s, HandOut(p, m))
    ensures MeasureOf(c.redrive, Apply(c, s, HandOut(p, m))) < MeasureOf(c.redrive, s)
  {
    var s' := Apply(c, s, HandOut(p, m));
    TotalUpdate(s.msgs, m, s'.msgs[m], MsgsLeft(c.redrive));
    TotalUpdate(s.consumers, p, s'.consumers[p], ConsumerLeft);
  }

  lemma BrokerLowers(c: Config, s: State, e: Event)
    requires Enabled(c, s, e) && (e.Expire? || e.Redrive?)
    ensures MeasureOf(c.redrive, Apply(c, s, e)) < MeasureOf(c.redrive, s)
  {
    TotalUpdate(s.msgs, e.m, Apply(c, s, e).msgs[e.m], MsgsLeft(c.redrive));
  }

  lemma PollLowers(c: Config, s: State, e: Event)
    requires Enabled(c, s, e) && (e.PollReturns? || e.PollLost?)
    ensures MeasureOf(c.redrive, Apply(c, s, e)) < MeasureOf(c.redrive, s)
  {
    Progress.BodiesLength(s.consumers[e.p].response);
    TotalUpdate(s.consumers, e.p, Apply(c, s, e).consumers[e.p], ConsumerLeft);
  }

  lemma PickLowers(c: Config, s: State, t: nat)
    requires Enabled(c, s, Pick(t))
    ensures MeasureOf(c.redrive, Apply(c, s, Pick(t))) < MeasureOf(c.redrive, s)
  {
    var s' := Apply(c, s, Pick(t));
    var p := s.threads[t].proc;
    TotalUpdate(s.consumers, p, s'.consumers[p], ConsumerLeft);
    TotalUpdate(s.threads, t, s'.threads[t], ThreadLeft);
  }

  lemma StepLowers(c: Config, s: State, t: nat, call: Call)
    requires Enabled(c, s, Step(t, call))
    ensures MeasureOf(c.redrive, Apply(c, s, Step(t, call))) < MeasureOf(c.redrive, s)
  {
    TotalUpdate(s.threads, t, Apply(c, s, Step(t, call)).threads[t], ThreadLeft);
  }

  lemma TakeReceiptLowers(c: Config, s: State, t: nat)
    requires Enabled(c, s, TakeReceipt(t))
    ensures MeasureOf(c.redrive, Apply(c, s, TakeReceipt(t))) < MeasureOf(c.redrive, s)
  {
    var s' := Apply(c, s, TakeReceipt(t));
    var p := s.threads[t].proc;
    TotalUpdate(s.threads, t, s'.threads[t], ThreadLeft);
    TotalUpdate(s.consumers, p, s'.consumers[p], ConsumerLeft);
  }

  // Settling, honoured or not, late or not at all, leaves no message with more
  // to cause.
  lemma SettledLowers(redrive: nat, s: State, h: Handle, done: bool, call: Call, honoured: bool)
    ensures var s' := Settled(s, h, done, call, honoured);
            && s' == s.(msgs := s'.msgs)
            && Total(s'.msgs, MsgsLeft(redrive)) <= Total(s.msgs, MsgsLeft(redrive))
  {
    var s' := Settled(s, h, done, call, honoured);
    if s' != s {
      TotalUpdate(s.msgs, s.handles[h], s'.msgs[s.handles[h]], MsgsLeft(redrive));
    }
  }

  lemma SettleLowers(c: Config, s: State, t: nat, call: Call, honoured: bool)
    requires Enabled(c, s, Settle(t, call, honoured))
    ensures MeasureOf(c.redrive, Apply(c, s, Settle(t, call, honoured))) < MeasureOf(c.redrive, s)
  {
    var w := s.threads[t].work;
    SettledLowers(c.redrive, s, w.handle, w.done, call, honoured);
    TotalUpdate(s.threads, t, s.threads[t].(work := Idle), ThreadLeft);
  }

  lemma {:induction false} RestartLowers(threads: seq<Thread>, p: nat)
    ensures Total(Restarted(threads, p), ThreadLeft) <= Total(threads, ThreadLeft)
  {
    if threads != [] {
      var n := |threads| - 1;
      RestartLowers(threads[..n], p);
      assert Restarted(threads, p)[..n] == Restarted(threads[..n], p);
    }
  }

  lemma StopLowers(c: Config, s: State, e: Event)
    requires Enabled(c, s, e) && (e.StopConsumer? || e.Crash?)
    ensures MeasureOf(c.redrive, Apply(c, s, e)) <= MeasureOf(c.redrive, s)
  {
    TotalUpdate(s.consumers, e.p, Apply(c, s, e).consumers[e.p], ConsumerLeft);
    if e.Crash? {
      RestartLowers(s.threads, e.p);
    }
  }

  lemma EventLowers(c: Config, s: State, e: Event)
    requires Enabled(c, s, e)
    ensures MeasureOf(c.redrive, Apply(c, s, e)) < MeasureOf(c.redrive, s) + Push(c.redrive, e)
  {
    match e
    case Submit(_, _, _) => SubmitLowers(c, s, e);
    case RequestStep(i, call) => RequestLowers(c, s, i, call);
    case RequestCrash(i) => RequestCrashLowers(c, s, i);
    case HandOut(p, m) => HandOutLowers(c, s, p, m);
    case Expire(_) => BrokerLowers(c, s, e);
    case Redrive(_) => BrokerLowers(c, s, e);
    case PollReturns(_) => PollLowers(c, s, e);
    case PollLost(_) => PollLowers(c, s, e);
    case Pick(t) => PickLowers(c, s, t);
    case Step(t, call) => StepLowers(c, s, t, call);
    case TakeReceipt(t) => TakeReceiptLowers(c, s, t);
    case Settle(t, call, honoured) => SettleLowers(c, s, t, call, honoured);
    case StopConsumer(_) => StopLowers(c, s, e);
    case Crash(_) => StopLowers(c, s, e);
  }

  function Allowance(redrive: nat, es: seq<Event>): nat {
    if es == [] then 0 else Push(redrive, es[0]) + Allowance(redrive, es[1..])
  }

  lemma {:induction false} RunBound(c: Config, s: State, es: seq<Event>)
    requires ValidRun(c, s, es)
    ensures |es| + MeasureOf(c.redrive, Final(c, s, es)) <=
            MeasureOf(c.redrive, s) + Allowance(c.redrive, es)
    decreases |es|
  {
    if es != [] {
      EventLowers(c, s, es[0]);
      RunBound(c, Apply(c, s, es[0]), es[1..]);
    }
  }

  /** Every run, with whatever faults, has at most 14 * redrive + 6 events for
      each request, beside its crashes and stops. */
  lemma EveryRunEnds(c: Config, s: State, es: seq<Event>)
    requires Initial(s) && ValidRun(c, s, es)
    ensures |es| <= Allowance(c.redrive, es)
  {
    TotalNone(s.consumers, ConsumerLeft);
    TotalNone(s.threads, ThreadLeft);
    RunBound(c, s, es);
  }

  // ------------------------------------------------------------- at the end

  /** Nothing is left to happen but what comes from outside. */
  ghost predicate Exhausted(c: Config, s: State) {
    forall e :: Enabled(c, s, e) ==> Outside(e)
  }

  lemma Stuck(c: Config, s: State, e: Event)
    requires Exhausted(c, s) && !Outside(e)
    ensures !Enabled(c, s, e)
  {
  }

  lemma ExhaustedThread(c: Config, s: State, t: nat)
    requires ProcessesOk(c.processor, s) && Exhausted(c, s) && t < |s.threads|
    ensures s.threads[t].work.Idle?
  {
    assert ThreadOk(c.processor, s, s.threads[t]);
    Stuck(c, s, Step(t, Ok(0)));
    Stuck(c, s, TakeReceipt(t));
    Stuck(c, s, Settle(t, Ok(0), true));
  }

  lemma ExhaustedConsumer(c: Config, s: State, p: nat)
    requires ProcessesOk(c.processor, s) && Exhausted(c, s) && Progress.Staffed(s) && p < |s.consumers|
    ensures s.consumers[p].response == [] && s.consumers[p].pending == []
  {
    assert s.consumers[p] == s.consumers[p];
    var t :| Progress.Serves(s, t, p);
    ExhaustedThread(c, s, t);
    Stuck(c, s, Pick(t));
    Stuck(c, s, PollLost(p));
  }

  lemma ExhaustedMessage(c: Config, s: State, m: nat)
    requires ProcessesOk(c.processor, s) && Exhausted(c, s) && Progress.Staffed(s) && c.batch >= 1
    requires m < |s.msgs|
    ensures s.msgs[m].place == Deleted || s.msgs[m].place == DeadLettered
  {
    ExhaustedConsumer(c, s, 0);
    Stuck(c, s, HandOut(0, m));
    Stuck(c, s, Expire(m));
    Stuck(c, s, Redrive(m));
  }

  lemma ExhaustedRequest(c: Config, s: State, i: nat)
    requires Exhausted(c, s) && i < |s.requests|
    ensures C.Ended(s.requests[i])
  {
    Stuck(c, s, RequestStep(i, Ok(0)));
  }

  // A job whose message is on the dead-letter queue.
  predicate DeadLetter(s: State, id: string) {
    exists m :: 0 <= m < |s.msgs| && s.msgs[m].body == id && s.msgs[m].place == DeadLettered
  }

  /** Where a run with whatever faults can be continued only from outside, every
      request has been answered, every message is deleted or dead-lettered, and
      every accepted job has been taken up or is on the dead-letter queue. */
  lemma NothingLeftBehind(c: Config, s: State, es: seq<Event>)
    requires Initial(s) && ValidRun(c, s, es) && c.batch >= 1
    requires Exhausted(c, Final(c, s, es)) && Progress.Staffed(Final(c, s, es))
    ensures
      var end := Final(c, s, es);
      && (forall m :: 0 <= m < |end.msgs| ==>
            end.msgs[m].place == Deleted || end.msgs[m].place == DeadLettered)
      && (forall i :: 0 <= i < |end.requests| ==> C.Ended(end.requests[i]))
      && (forall i :: 0 <= i < |end.requests| && end.requests[i].Accepted? ==>
            var id := end.requests[i].job.id;
            LeftPending(end.data, id) || DeadLetter(end, id))
  {
    ReachableInv(c, s, es);
    var end := Final(c, s, es);
    forall m | 0 <= m < |end.msgs|
      ensures end.msgs[m].place == Deleted || end.msgs[m].place == DeadLettered
    {
      ExhaustedMessage(c, end, m);
    }
    forall i | 0 <= i < |end.requests| ensures C.Ended(end.requests[i]) {
      ExhaustedRequest(c, end, i);
    }
    forall i | 0 <= i < |end.requests| && end.requests[i].Accepted?
      ensures LeftPending(end.data, end.requests[i].job.id) || DeadLetter(end, end.requests[i].job.id)
    {
      AcceptedNotLost(c, s, es, i);
    }
  }
}
