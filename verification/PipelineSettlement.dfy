/** Counting and settling over every run of the pipeline, however its workers,
    receive loops and crashes interleave: the counters are the executions
    returned, each of them is settled once, and no receipt handle is in two
    places or used twice. */
module PipelineSettlement {
  import opened Wrappers
  import Ports
  import opened Receipts
  import opened Sums
  import opened Pipeline
  import P = ProcessJob
  import W = WorkerPool

  // -------------------------------------------------------------- counters

  // The outcome an event reports, when it is the last step of an execution in
  // a process.
  function Reported(c: Config, s: State, e: Event, p: nat): Option<W.Outcome> {
    if e.Step? && Enabled(c, s, e) && s.threads[e.t].proc == p then
      var w := s.threads[e.t].work;
      var (pc, _) := P.Advance(c.processor, w.id, w.pc, s.data, e.call);
      if pc.Returned? then Some(W.OutcomeOf(pc.verdict)) else None
    else None
  }

  /** How many executions in a process have returned with an outcome since the
      process last started, given how many had before the run. */
  ghost function Returned(c: Config, s: State, es: seq<Event>, p: nat, o: W.Outcome, before: nat): nat
    requires ValidRun(c, s, es)
    decreases |es|
  {
    if es == [] then before
    else
      var e := es[0];
      var now := if e == Crash(p) then 0
                 else before + if Reported(c, s, e, p) == Some(o) then 1 else 0;
      Returned(c, Apply(c, s, e), es[1..], p, o, now)
  }

  function Counter(t: Tally, o: W.Outcome): nat {
    match o
    case Processed => t.processed
    case Failed => t.failed
    case Skipped => t.skipped
  }

  lemma EventCounts(c: Config, s: State, e: Event, p: nat, o: W.Outcome)
    requires Enabled(c, s, e) && p < |s.tallies|
    ensures
      var s' := Apply(c, s, e);
      && |s'.tallies| == |s.tallies|
      && Counter(s'.tallies[p], o) ==
         if e == Crash(p) then 0
         else Counter(s.tallies[p], o) + if Reported(c, s, e, p) == Some(o) then 1 else 0
  {
  }

  lemma {:induction false} RunCounts(c: Config, s: State, es: seq<Event>, p: nat, o: W.Outcome)
    requires ValidRun(c, s, es) && p < |s.tallies|
    ensures p < |Final(c, s, es).tallies|
    ensures Counter(Final(c, s, es).tallies[p], o) ==
            Returned(c, s, es, p, o, Counter(s.tallies[p], o))
    decreases |es|
  {
    if es != [] {
      EventCounts(c, s, es[0], p, o);
      RunCounts(c, Apply(c, s, es[0]), es[1..], p, o);
    }
  }

  /** Each counter of a process is the number of executions that returned with
      its outcome since the process started. */
  lemma CountersAreReturns(c: Config, s: State, es: seq<Event>, p: nat, o: W.Outcome)
    requires Initial(s) && ValidRun(c, s, es) && p < |s.consumers|
    ensures p < |Final(c, s, es).tallies|
    ensures Counter(Final(c, s, es).tallies[p], o) == Returned(c, s, es, p, o, 0)
  {
    RunCounts(c, s, es, p, o);
  }

  // ----------------------------------------------------------- settlements

  // The executions a process counted that are to be acknowledged, or returned
  // to the queue.
  function Due(t: Tally, done: bool): nat {
    if done then t.processed + t.skipped else t.failed
  }

  function StillSettling(p: nat, done: bool): Thread -> nat {
    (t: Thread) => if t.proc == p && t.work.Settling? && t.work.done == done then 1 else 0
  }

  // An event that begins an Ack or a Nack in a process.
  predicate Attempts(s: State, e: Event, p: nat, done: bool) {
    && e.TakeReceipt? && e.t < |s.threads| && s.threads[e.t].proc == p
    && s.threads[e.t].work.Settling? && s.threads[e.t].work.done == done
  }

  ghost function Attempted(c: Config, s: State, es: seq<Event>, p: nat, done: bool, before: nat): nat
    requires ValidRun(c, s, es)
    decreases |es|
  {
    if es == [] then before
    else
      var e := es[0];
      var now := if e == Crash(p) then 0 else before + if Attempts(s, e, p, done) then 1 else 0;
      Attempted(c, Apply(c, s, e), es[1..], p, done, now)
  }

  // What has been attempted and what is about to be, against what is due.
  predicate Balanced(s: State, p: nat, done: bool, attempted: nat) {
    p < |s.tallies| && attempted + Total(s.threads, StillSettling(p, done)) == Due(s.tallies[p], done)
  }

  // Restarting a process stops its threads, and no others.
  lemma {:induction false} RestartSettles(threads: seq<Thread>, p: nat, q: nat, done: bool)
    ensures Total(Restarted(threads, q), StillSettling(p, done)) ==
            if p == q then 0 else Total(threads, StillSettling(p, done))
  {
    if threads != [] {
      var n := |threads| - 1;
      RestartSettles(threads[..n], p, q, done);
      assert Restarted(threads, q)[..n] == Restarted(threads[..n], q);
    }
  }

  lemma StepBalances(c: Config, s: State, t: nat, call: Ports.Call, p: nat, done: bool, n: nat)
    requires Balanced(s, p, done, n) && Enabled(c, s, Step(t, call))
    ensures Balanced(Apply(c, s, Step(t, call)), p, done, n)
  {
    var s' := Apply(c, s, Step(t, call));
    TotalUpdate(s.threads, t, s'.threads[t], StillSettling(p, done));
  }

  lemma TakeReceiptBalances(c: Config, s: State, t: nat, p: nat, done: bool, n: nat)
    requires Balanced(s, p, done, n) && Enabled(c, s, TakeReceipt(t))
    ensures Balanced(Apply(c, s, TakeReceipt(t)), p, done,
                     n + if Attempts(s, TakeReceipt(t), p, done) then 1 else 0)
  {
    var s' := Apply(c, s, TakeReceipt(t));
    TotalUpdate(s.threads, t, s'.threads[t], StillSettling(p, done));
  }

  // Picking up a delivery and making the settle call change no thread that is
  // about to settle.
  lemma PickOrSettleBalances(c: Config, s: State, e: Event, p: nat, done: bool, n: nat)
    requires Balanced(s, p, done, n) && Enabled(c, s, e) && (e.Pick? || e.Settle?)
    ensures Balanced(Apply(c, s, e), p, done, n)
  {
    var s' := Apply(c, s, e);
    if e.Settle? {
      SettledKeeps(s, s.threads[e.t].work.handle, s.threads[e.t].work.done, e.call, e.honoured);
    }
    TotalUpdate(s.threads, e.t, s'.threads[e.t], StillSettling(p, done));
  }

  lemma SettledKeeps(s: State, h: Handle, done: bool, call: Ports.Call, honoured: bool)
    ensures var s' := Settled(s, h, done, call, honoured); s' == s.(msgs := s'.msgs)
  {
  }

  lemma EventBalances(c: Config, s: State, e: Event, p: nat, done: bool, n: nat)
    requires Balanced(s, p, done, n) && Enabled(c, s, e)
    ensures Balanced(Apply(c, s, e), p, done,
                     if e == Crash(p) then 0 else n + if Attempts(s, e, p, done) then 1 else 0)
  {
    match e
    case Step(t, call) => StepBalances(c, s, t, call, p, done, n);
    case TakeReceipt(t) => TakeReceiptBalances(c, s, t, p, done, n);
    case Pick(_) => PickOrSettleBalances(c, s, e, p, done, n);
    case Settle(_, _, _) => PickOrSettleBalances(c, s, e, p, done, n);
    case Crash(q) => RestartSettles(s.threads, p, q, done);
    case _ =>
  }

  lemma {:induction false} RunBalances(c: Config, s: State, es: seq<Event>, p: nat, done: bool, n: nat)
    requires ValidRun(c, s, es) && Balanced(s, p, done, n)
    ensures Balanced(Final(c, s, es), p, done, Attempted(c, s, es, p, done, n))
    decreases |es|
  {
    if es != [] {
      EventBalances(c, s, es[0], p, done, n);
      var now := if es[0] == Crash(p) then 0 else n + if Attempts(s, es[0], p, done) then 1 else 0;
      RunBalances(c, Apply(c, s, es[0]), es[1..], p, done, now);
    }
  }

  /** Every execution that returned is settled by exactly one attempt, already
      begun or by a thread about to begin it: an Ack for each that was processed
      or skipped, a Nack for each that failed. */
  lemma ReturnsSettledOnce(c: Config, s: State, es: seq<Event>, p: nat)
    requires Initial(s) && ValidRun(c, s, es) && p < |s.consumers|
    ensures
      var end := Final(c, s, es);
      && p < |end.tallies|
      && Attempted(c, s, es, p, true, 0) + Total(end.threads, StillSettling(p, true)) ==
           end.tallies[p].processed + end.tallies[p].skipped
      && Attempted(c, s, es, p, false, 0) + Total(end.threads, StillSettling(p, false)) ==
           end.tallies[p].failed
  {
    TotalNone(s.threads, StillSettling(p, true));
    TotalNone(s.threads, StillSettling(p, false));
    RunBalances(c, s, es, p, true, 0);
    RunBalances(c, s, es, p, false, 0);
  }

  // --------------------------------------------------------------- handles

  /** The places a receipt handle can be in. */
  datatype Spot =
    | InResponse(p: nat, i: nat)
    | InReceipts(p: nat, id: string)
    | InCall(t: nat)
    | Used(k: nat)

  function HandleAt(s: State, spot: Spot): Option<Handle> {
    match spot
    case InResponse(p, i) =>
      if p < |s.consumers| && i < |s.consumers[p].response| then Some(s.consumers[p].response[i].handle)
      else None
    case InReceipts(p, id) =>
      if p < |s.consumers| && id in s.consumers[p].receipts then Some(s.consumers[p].receipts[id])
      else None
    case InCall(t) =>
      if t < |s.threads| && s.threads[t].work.Calling? then Some(s.threads[t].work.handle) else None
    case Used(k) => if k < |s.spent| then Some(s.spent[k]) else None
  }

  predicate Occupied(s: State, spot: Spot) {
    HandleAt(s, spot).Some?
  }

  /** No handle is in two places, and each was issued. */
  ghost predicate Apart(s: State) {
    && (forall a :: Occupied(s, a) ==> HandleAt(s, a).value < |s.handles|)
    && (forall a, b :: Occupied(s, a) && HandleAt(s, a) == HandleAt(s, b) ==> a == b)
  }

  // Where each handle came from: a place of its own.
  ghost predicate CameFrom(s: State, s': State, origin: Spot -> Spot) {
    && (forall a :: Occupied(s', a) ==> HandleAt(s, origin(a)) == HandleAt(s', a))
    && (forall a, b :: Occupied(s', a) && Occupied(s', b) && origin(a) == origin(b) ==> a == b)
  }

  lemma MovedApart(s: State, s': State, origin: Spot -> Spot)
    requires Apart(s) && |s.handles| <= |s'.handles| && CameFrom(s, s', origin)
    ensures Apart(s')
  {
    forall a | Occupied(s', a) ensures HandleAt(s', a).value < |s'.handles| {
      assert Occupied(s, origin(a));
    }
    forall a, b | Occupied(s', a) && HandleAt(s', a) == HandleAt(s', b) ensures a == b {
      assert Occupied(s', b);
      assert Occupied(s, origin(a));
    }
  }

  // Events that issue no handle and move none.
  lemma StayApart(s: State, s': State)
    requires Apart(s) && |s.handles| <= |s'.handles|
    requires forall a :: Occupied(s', a) ==> HandleAt(s, a) == HandleAt(s', a)
    ensures Apart(s')
  {
    MovedApart(s, s', a => a);
  }

  // Events of requests and of the broker touch no process.
  predicate AwayFromProcesses(e: Event) {
    e.Submit? || e.RequestStep? || e.RequestCrash? || e.Expire? || e.Redrive?
  }

  lemma OutsideApart(c: Config, s: State, e: Event)
    requires Apart(s) && Enabled(c, s, e) && AwayFromProcesses(e)
    ensures Apart(Apply(c, s, e))
  {
    var s' := Apply(c, s, e);
    assert s'.consumers == s.consumers && s'.threads == s.threads && s'.spent == s.spent;
    StayApart(s, s');
  }

  // A worker that picks up a delivery or takes a step makes no settle call.
  lemma WorkApart(c: Config, s: State, e: Event)
    requires Apart(s) && Enabled(c, s, e) && (e.Pick? || e.Step?)
    ensures Apart(Apply(c, s, e))
  {
    StayApart(s, Apply(c, s, e));
  }

  // Lost responses and crashes lose handles and move none.
  lemma LossApart(c: Config, s: State, e: Event)
    requires Apart(s) && Enabled(c, s, e) && (e.PollLost? || e.StopConsumer? || e.Crash?)
    ensures Apart(Apply(c, s, e))
  {
    StayApart(s, Apply(c, s, e));
  }

  lemma HandOutApart(c: Config, s: State, p: nat, m: nat)
    requires Apart(s) && Enabled(c, s, HandOut(p, m))
    ensures Apart(Apply(c, s, HandOut(p, m)))
  {
    var s' := Apply(c, s, HandOut(p, m));
    var issued := InResponse(p, |s.consumers[p].response|);
    forall a | Occupied(s', a) ensures a == issued || HandleAt(s, a) == HandleAt(s', a) {
    }
    forall a | Occupied(s', a) ensures HandleAt(s', a).value < |s'.handles| {
      assert a != issued ==> Occupied(s, a);
    }
    forall a, b | Occupied(s', a) && HandleAt(s', a) == HandleAt(s', b) ensures a == b {
      assert Occupied(s', b);
      assert a != issued ==> Occupied(s, a);
      assert b != issued ==> Occupied(s, b);
    }
  }

  // The last message of a response that names a job.
  function LastOf(ms: seq<Message>, id: string): (r: Option<nat>)
    ensures r.Some? ==> r.value < |ms| && ms[r.value].body == id && id != ""
  {
    if ms == [] then None
    else if ms[|ms| - 1].body == id && id != "" then Some(|ms| - 1)
    else LastOf(ms[..|ms| - 1], id)
  }

  lemma {:induction false} RecordedFrom(receipts: map<string, Handle>, ms: seq<Message>, id: string)
    ensures id in Recorded(receipts, ms) <==> LastOf(ms, id).Some? || id in receipts
    ensures id in Recorded(receipts, ms) ==>
              Recorded(receipts, ms)[id] ==
              if LastOf(ms, id).Some? then ms[LastOf(ms, id).value].handle else receipts[id]
  {
    if ms != [] {
      RecordedFrom(receipts, ms[..|ms| - 1], id);
    }
  }

  function BeforePoll(p: nat, ms: seq<Message>, a: Spot): Spot {
    if a.InReceipts? && a.p == p && LastOf(ms, a.id).Some? then InResponse(p, LastOf(ms, a.id).value) else a
  }

  lemma PollReturnsApart(c: Config, s: State, p: nat)
    requires Apart(s) && Enabled(c, s, PollReturns(p))
    ensures Apart(Apply(c, s, PollReturns(p)))
  {
    var s' := Apply(c, s, PollReturns(p));
    var k := s.consumers[p];
    var origin := a => BeforePoll(p, k.response, a);
    forall a | Occupied(s', a) ensures HandleAt(s, origin(a)) == HandleAt(s', a) {
      if a.InReceipts? && a.p == p {
        RecordedFrom(k.receipts, k.response, a.id);
      }
    }
    MovedApart(s, s', origin);
  }

  lemma TakeReceiptApart(c: Config, s: State, t: nat)
    requires Apart(s) && Enabled(c, s, TakeReceipt(t))
    ensures Apart(Apply(c, s, TakeReceipt(t)))
  {
    var s' := Apply(c, s, TakeReceipt(t));
    var taken := InReceipts(s.threads[t].proc, s.threads[t].work.id);
    MovedApart(s, s', a => if a == InCall(t) then taken else a);
  }

  // A settle call moves its handle from the call to the calls made.
  predicate CallMade(s: State, s': State, t: nat) {
    && t < |s.threads| == |s'.threads| && s.threads[t].work.Calling? && s'.threads[t].work.Idle?
    && (forall u :: 0 <= u < |s.threads| && u != t ==> s'.threads[u] == s.threads[u])
    && s'.consumers == s.consumers && s'.handles == s.handles
    && s'.spent == s.spent + [s.threads[t].work.handle]
  }

  lemma SettleIsCall(c: Config, s: State, t: nat, call: Ports.Call, honoured: bool)
    requires Enabled(c, s, Settle(t, call, honoured))
    ensures CallMade(s, Apply(c, s, Settle(t, call, honoured)), t)
  {
    var w := s.threads[t].work;
    SettledKeeps(s, w.handle, w.done, call, honoured);
  }

  // The handle used last was in the call, and every other stays where it was.
  lemma CallMoves(s: State, s': State, t: nat, a: Spot)
    requires CallMade(s, s', t) && Occupied(s', a)
    ensures a != InCall(t)
    ensures HandleAt(s', a) == HandleAt(s, if a == Used(|s.spent|) then InCall(t) else a)
  {
    match a
    case InResponse(_, _) =>
    case InReceipts(_, _) =>
    case InCall(u) => assert u != t;
    case Used(k) => assert k < |s.spent| ==> s'.spent[k] == s.spent[k];
  }

  lemma SettleApart(c: Config, s: State, t: nat, call: Ports.Call, honoured: bool)
    requires Apart(s) && Enabled(c, s, Settle(t, call, honoured))
    ensures Apart(Apply(c, s, Settle(t, call, honoured)))
  {
    SettleIsCall(c, s, t, call, honoured);
    CallMadeApart(s, Apply(c, s, Settle(t, call, honoured)), t);
  }

  lemma CallMadeApart(s: State, s': State, t: nat)
    requires Apart(s) && CallMade(s, s', t)
    ensures Apart(s')
  {
    var origin := a => if a == Used(|s.spent|) then InCall(t) else a;
    forall a | Occupied(s', a) ensures a != InCall(t) && HandleAt(s, origin(a)) == HandleAt(s', a) {
      CallMoves(s, s', t, a);
    }
    MovedApart(s, s', origin);
  }

  lemma EventApart(c: Config, s: State, e: Event)
    requires Apart(s) && Enabled(c, s, e)
    ensures Apart(Apply(c, s, e))
  {
    match e
    case HandOut(p, m) => HandOutApart(c, s, p, m);
    case PollReturns(p) => PollReturnsApart(c, s, p);
    case TakeReceipt(t) => TakeReceiptApart(c, s, t);
    case Settle(t, call, honoured) => SettleApart(c, s, t, call, honoured);
    case Pick(_) => WorkApart(c, s, e);
    case Step(_, _) => WorkApart(c, s, e);
    case PollLost(_) => LossApart(c, s, e);
    case StopConsumer(_) => LossApart(c, s, e);
    case Crash(_) => LossApart(c, s, e);
    case _ => OutsideApart(c, s, e);
  }

  // The handles of the settle calls of a run, in order.
  ghost function SettleCalls(c: Config, s: State, es: seq<Event>): seq<Handle>
    requires ValidRun(c, s, es)
    decreases |es|
  {
    if es == [] then []
    else
      (if es[0].Settle? then [s.threads[es[0].t].work.handle] else [])
      + SettleCalls(c, Apply(c, s, es[0]), es[1..])
  }

  lemma EventSpends(c: Config, s: State, e: Event)
    requires Enabled(c, s, e)
    ensures Apply(c, s, e).spent ==
            s.spent + if e.Settle? then [s.threads[e.t].work.handle] else []
  {
    if e.Settle? {
      SettledKeeps(s, s.threads[e.t].work.handle, s.threads[e.t].work.done, e.call, e.honoured);
    }
  }

  lemma {:induction false} RunApart(c: Config, s: State, es: seq<Event>)
    requires Apart(s) && ValidRun(c, s, es)
    ensures Apart(Final(c, s, es)) && Final(c, s, es).spent == s.spent + SettleCalls(c, s, es)
    decreases |es|
  {
    if es != [] {
      EventApart(c, s, es[0]);
      EventSpends(c, s, es[0]);
      RunApart(c, Apply(c, s, es[0]), es[1..]);
    }
  }

  /** In every reachable state no handle is in two of the responses being
      collected, the receipts, the calls under way and the calls made; and over
      every run each handle is used by at most one settle call. */
  lemma HandlesUsedOnce(c: Config, s: State, es: seq<Event>)
    requires Initial(s) && ValidRun(c, s, es)
    ensures Apart(Final(c, s, es))
    ensures forall i, k :: 0 <= i < k < |SettleCalls(c, s, es)| ==>
              SettleCalls(c, s, es)[i] != SettleCalls(c, s, es)[k]
  {
    RunApart(c, s, es);
    var end := Final(c, s, es);
    assert end.spent == SettleCalls(c, s, es);
    forall i, k | 0 <= i < k < |end.spent| ensures end.spent[i] != end.spent[k] {
      assert Occupied(end, Used(i));
      assert HandleAt(end, Used(k)) == Some(end.spent[k]);
    }
  }
}
