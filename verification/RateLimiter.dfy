/** The per-client rate limiter: token buckets created on first use and evicted
    when idle. Time is in seconds and, like tokens, exact. A bucket starts full,
    refills linearly and is capped at the burst; reserving a token and returning
    it at the same instant changes nothing. */
module RateLimiter {
  datatype Bucket = Bucket(tokens: real, last: real, seen: real)

  datatype Limits = Limits(limit: real, burst: int, ttl: real)

  type Clients = map<string, Bucket>

  datatype Answer = Answer(allowed: bool, delay: real)

  predicate Limiting(l: Limits) {
    l.limit > 0.0 && l.burst > 0
  }

  // Tokens gained over a span of time.
  function Gain(l: Limits, span: real): real {
    l.limit * span
  }

  function Full(l: Limits): real {
    l.burst as real
  }

  function Level(l: Limits, b: Bucket, now: real): real {
    var since := if now < b.last then now else b.last;
    var tokens := b.tokens + Gain(l, now - since);
    if tokens > Full(l) then Full(l) else tokens
  }

  // How full a client's bucket is; a client without one has a full one.
  function LevelOf(l: Limits, clients: Clients, id: string, now: real): real {
    if id in clients then Level(l, clients[id], now) else Full(l)
  }

  /** One request: a whole token is taken if there is one, and otherwise the
      wait until there will be. */
  function Asked(l: Limits, clients: Clients, id: string, now: real): (Clients, Answer) {
    if !Limiting(l) then (clients, Answer(true, 0.0))
    else
      var level := LevelOf(l, clients, id, now);
      if level >= 1.0 then
        (clients[id := Bucket(level - 1.0, now, now)], Answer(true, 0.0))
      else
        (clients[id := Bucket(level, now, now)], Answer(false, (1.0 - level) / l.limit))
  }

  function Swept(l: Limits, clients: Clients, now: real): Clients {
    map id | id in clients && clients[id].seen >= now - l.ttl :: clients[id]
  }

  /** The limiter itself. */
  class RateLimiter {
    const limits: Limits
    var clients: map<string, Bucket>

    constructor (limits: Limits)
      ensures this.limits == limits && clients == map[]
    {
      this.limits := limits;
      clients := map[];
    }

    /** A non-positive limit or burst allows everything and tracks nobody; else an
        allowed request waits for nothing and a refused one for some time. */
    method Allow(id: string, now: real) returns (allowed: bool, retryAfter: real)
      modifies this`clients
      ensures limits.limit <= 0.0 || limits.burst <= 0 ==>
                allowed && retryAfter == 0.0 && clients == old(clients)
      ensures allowed <==> retryAfter == 0.0
      ensures (clients, Answer(allowed, retryAfter)) == Asked(limits, old(clients), id, now)
    {
      if !Limiting(limits) {
        return true, 0.0;
      }
      var bucket := if id in clients then clients[id] else Bucket(Full(limits), now, now);
      bucket := bucket.(seen := now);

      // Reserve one token, which may leave the bucket in debt.
      var level := Level(limits, bucket, now);
      assert Gain(limits, 0.0) == 0.0;
      assert level == LevelOf(limits, old(clients), id, now);
      bucket := bucket.(tokens := level - 1.0, last := now);
      retryAfter := 0.0;
      if bucket.tokens < 0.0 {
        retryAfter := -bucket.tokens / limits.limit;
      }
      assert retryAfter == 0.0 <==> bucket.tokens >= 0.0 by {
        DelayPositive(limits, bucket.tokens);
      }
      if retryAfter == 0.0 {
        assert level >= 1.0;
        clients := clients[id := bucket];
        return true, 0.0;
      }

      // Refused: put the token back.
      bucket := bucket.(tokens := Level(limits, bucket.(tokens := bucket.tokens + 1.0), now));
      assert bucket.tokens == level;
      assert -(level - 1.0) == 1.0 - level;
      clients := clients[id := bucket];
      allowed := false;
    }

    /** One pass of the sweeper over the clients it finds. */
    method Sweep(now: real)
      modifies this`clients
      ensures forall id :: id in clients <==>
                id in old(clients) && old(clients)[id].seen >= now - limits.ttl
      ensures forall id :: id in clients ==> clients[id] == old(clients)[id]
      ensures clients == Swept(limits, old(clients), now)
    {
      var cutoff := now - limits.ttl;
      var left := clients.Keys;
      while left != {}
        invariant left <= old(clients).Keys
        invariant clients == map id | id in old(clients) &&
                    (id in left || old(clients)[id].seen >= cutoff) :: old(clients)[id]
        decreases left
      {
        var id :| id in left;
        if clients[id].seen < cutoff {
          clients := clients - {id};
        }
        left := left - {id};
      }
    }
  }

  lemma DelayPositive(l: Limits, tokens: real)
    requires Limiting(l)
    ensures tokens < 0.0 ==> -tokens / l.limit > 0.0
  {
  }

  lemma GainAdds(l: Limits, a: real, b: real)
    ensures Gain(l, a + b) == Gain(l, a) + Gain(l, b)
  {
  }

  lemma GainMonotone(l: Limits, a: real, b: real)
    requires l.limit >= 0.0 && a <= b
    ensures Gain(l, a) <= Gain(l, b)
  {
  }

  lemma GainStrict(l: Limits, a: real, b: real)
    requires l.limit > 0.0 && a < b
    ensures Gain(l, a) < Gain(l, b)
  {
  }

  // ---------------------------------------------------------------- runs

  datatype Event = Ask(id: string, at: real) | Sweep(at: real)

  // Events happen in order, none before a given time.
  predicate InOrder(es: seq<Event>, from: real)
    decreases |es|
  {
    es == [] || (from <= es[0].at && InOrder(es[1..], es[0].at))
  }

  // A limiter with the sweeper, or without it.
  function After(l: Limits, clients: Clients, e: Event, sweeping: bool): Clients {
    match e
    case Ask(id, at) => Asked(l, clients, id, at).0
    case Sweep(at) => if sweeping then Swept(l, clients, at) else clients
  }

  function End(l: Limits, clients: Clients, es: seq<Event>, sweeping: bool): Clients
    decreases |es|
  {
    if es == [] then clients else End(l, After(l, clients, es[0], sweeping), es[1..], sweeping)
  }

  function Answers(l: Limits, clients: Clients, es: seq<Event>, sweeping: bool): seq<Answer>
    decreases |es|
  {
    if es == [] then []
    else
      (if es[0].Ask? then [Asked(l, clients, es[0].id, es[0].at).1] else [])
      + Answers(l, After(l, clients, es[0], sweeping), es[1..], sweeping)
  }

  // What every bucket satisfies at a time no earlier than its last use.
  predicate Sound(l: Limits, clients: Clients, now: real) {
    forall id :: id in clients ==>
      var b := clients[id];
      0.0 <= b.tokens <= Full(l) && b.last <= now && b.seen == b.last
  }

  lemma LevelInRange(l: Limits, clients: Clients, id: string, now: real)
    requires Limiting(l) && Sound(l, clients, now)
    ensures 0.0 <= LevelOf(l, clients, id, now) <= Full(l)
  {
    if id in clients {
      GainMonotone(l, 0.0, now - clients[id].last);
    }
  }

  lemma AfterSound(l: Limits, clients: Clients, e: Event, sweeping: bool, now: real)
    requires Limiting(l) && Sound(l, clients, now) && now <= e.at
    ensures Sound(l, After(l, clients, e, sweeping), e.at)
  {
    assert Sound(l, clients, e.at);
    if e.Ask? {
      LevelInRange(l, clients, e.id, e.at);
    }
  }

  // Time passing raises a level by the gain, up to full.
  lemma LevelRises(l: Limits, clients: Clients, id: string, now: real, later: real)
    requires Limiting(l) && Sound(l, clients, now) && now <= later
    ensures LevelOf(l, clients, id, now) <= LevelOf(l, clients, id, later)
    ensures LevelOf(l, clients, id, later) <= LevelOf(l, clients, id, now) + Gain(l, later - now)
  {
    GainMonotone(l, 0.0, later - now);
    if id in clients {
      var b := clients[id];
      GainAdds(l, now - b.last, later - now);
      assert (now - b.last) + (later - now) == later - b.last;
    }
  }

  // ------------------------------------------------------------- eviction

  // The sweeping limiter has forgotten only full buckets.
  predicate Agree(l: Limits, swept: Clients, kept: Clients, now: real) {
    && swept.Keys <= kept.Keys
    && (forall id :: id in swept ==> swept[id] == kept[id])
    && (forall id :: id in kept && id !in swept ==> Level(l, kept[id], now) == Full(l))
  }

  lemma AgreeLater(l: Limits, swept: Clients, kept: Clients, now: real, later: real)
    requires Limiting(l) && Sound(l, kept, now) && Agree(l, swept, kept, now) && now <= later
    ensures Agree(l, swept, kept, later)
  {
    forall id | id in kept && id !in swept ensures Level(l, kept[id], later) == Full(l) {
      LevelRises(l, kept, id, now, later);
      LevelInRange(l, kept, id, now);
    }
  }

  // A bucket idle for longer than the time to live has refilled.
  lemma IdleIsFull(l: Limits, b: Bucket, now: real)
    requires Limiting(l) && Gain(l, l.ttl) >= Full(l)
    requires 0.0 <= b.tokens && b.last < now - l.ttl
    ensures Level(l, b, now) == Full(l)
  {
    GainStrict(l, l.ttl, now - b.last);
    if l.ttl < 0.0 {
      GainStrict(l, l.ttl, 0.0);
    }
  }

  lemma AgreeAfter(l: Limits, swept: Clients, kept: Clients, now: real, e: Event)
    requires Limiting(l) && Gain(l, l.ttl) >= Full(l)
    requires Sound(l, kept, now) && Agree(l, swept, kept, now) && now <= e.at
    ensures Agree(l, After(l, swept, e, true), After(l, kept, e, false), e.at)
    ensures e.Ask? ==> Asked(l, swept, e.id, e.at).1 == Asked(l, kept, e.id, e.at).1
  {
    AgreeLater(l, swept, kept, now, e.at);
    if e.Sweep? {
      forall id | id in kept && id !in Swept(l, swept, e.at) ensures Level(l, kept[id], e.at) == Full(l) {
        if id in swept {
          IdleIsFull(l, kept[id], e.at);
        }
      }
    }
  }

  lemma {:induction false} SameAnswers(l: Limits, swept: Clients, kept: Clients, now: real, es: seq<Event>)
    requires Limiting(l) && Gain(l, l.ttl) >= Full(l)
    requires Sound(l, kept, now) && Agree(l, swept, kept, now) && InOrder(es, now)
    ensures Answers(l, swept, es, true) == Answers(l, kept, es, false)
    decreases |es|
  {
    if es != [] {
      var e := es[0];
      AgreeAfter(l, swept, kept, now, e);
      AfterSound(l, kept, e, false, now);
      SameAnswers(l, After(l, swept, e, true), After(l, kept, e, false), e.at, es[1..]);
    }
  }

  // Two runs one after the other.
  lemma {:induction false} AnswersConcat(l: Limits, clients: Clients, es: seq<Event>, fs: seq<Event>, sweeping: bool)
    ensures Answers(l, clients, es + fs, sweeping) ==
            Answers(l, clients, es, sweeping) + Answers(l, End(l, clients, es, sweeping), fs, sweeping)
    ensures End(l, clients, es + fs, sweeping) == End(l, End(l, clients, es, sweeping), fs, sweeping)
    decreases |es|
  {
    if es == [] {
      assert es + fs == fs;
    } else {
      assert (es + fs)[1..] == es[1..] + fs;
      AnswersConcat(l, After(l, clients, es[0], sweeping), es[1..], fs, sweeping);
    }
  }

  // The same client asking n times at one instant.
  function Burst(id: string, at: real, n: nat): seq<Event> {
    if n == 0 then [] else [Ask(id, at)] + Burst(id, at, n - 1)
  }

  predicate AllAllowed(answers: seq<Answer>) {
    forall i :: 0 <= i < |answers| ==> answers[i].allowed
  }

  lemma {:induction false} BurstInOrder(id: string, at: real, n: nat, from: real, rest: seq<Event>)
    requires from <= at && InOrder(rest, at)
    ensures InOrder(Burst(id, at, n) + rest, from)
    decreases n
  {
    if n == 0 {
      assert Burst(id, at, n) + rest == rest;
      OrderWeakens(rest, at, from);
    } else {
      BurstInOrder(id, at, n - 1, at, rest);
      assert (Burst(id, at, n) + rest)[1..] == Burst(id, at, n - 1) + rest;
    }
  }

  lemma OrderWeakens(es: seq<Event>, from: real, earlier: real)
    requires InOrder(es, from) && earlier <= from
    ensures InOrder(es, earlier)
  {
  }

  lemma LevelAtUse(l: Limits, clients: Clients, id: string, at: real)
    requires Limiting(l) && 0.0 <= LevelOf(l, clients, id, at) <= Full(l)
    ensures
      var level := LevelOf(l, clients, id, at);
      LevelOf(l, Asked(l, clients, id, at).0, id, at) == if level >= 1.0 then level - 1.0 else level
  {
    assert Gain(l, 0.0) == 0.0;
  }

  // n requests at one instant are all allowed exactly when n tokens are there.
  lemma {:induction false} BurstAllowed(l: Limits, clients: Clients, id: string, at: real, n: nat, sweeping: bool)
    requires Limiting(l) && 0.0 <= LevelOf(l, clients, id, at) <= Full(l)
    ensures AllAllowed(Answers(l, clients, Burst(id, at, n), sweeping)) <==>
            n as real <= LevelOf(l, clients, id, at) || n == 0
    ensures n as real <= LevelOf(l, clients, id, at) ==>
            LevelOf(l, End(l, clients, Burst(id, at, n), sweeping), id, at) ==
            LevelOf(l, clients, id, at) - n as real
    decreases n
  {
    if n > 0 {
      var clients', answer := Asked(l, clients, id, at).0, Asked(l, clients, id, at).1;
      LevelAtUse(l, clients, id, at);
      assert Burst(id, at, n)[1..] == Burst(id, at, n - 1);
      BurstAllowed(l, clients', id, at, n - 1, sweeping);
      var rest := Answers(l, clients', Burst(id, at, n - 1), sweeping);
      var all := Answers(l, clients, Burst(id, at, n), sweeping);
      assert all == [answer] + rest;
      assert AllAllowed(all) ==> AllAllowed(rest) by {
        if AllAllowed(all) {
          assert forall i :: 0 <= i < |rest| ==> rest[i] == all[i + 1];
        }
      }
      assert AllAllowed(all) ==> all[0].allowed;
    }
  }

  // Spend a full bucket, sweep after it went idle, and spend it again: with a
  // sweeper every request is allowed, without one the last is not.
  lemma EvictionObservable(l: Limits, id: string) returns (es: seq<Event>)
    requires Limiting(l) && l.ttl >= 0.0 && Gain(l, l.ttl) < Full(l)
    ensures InOrder(es, 0.0)
    ensures Answers(l, map[], es, true) != Answers(l, map[], es, false)
  {
    var span := (l.ttl + Full(l) / l.limit) / 2.0;
    SpanBetween(l, span);
    var n := l.burst as nat;
    var first, second := Burst(id, 0.0, n), Burst(id, span, n);
    var tail := [Sweep(span)] + second;
    assert second + [] == second;
    BurstInOrder(id, span, n, span, []);
    assert tail[1..] == second;
    assert InOrder(tail, 0.0);
    BurstInOrder(id, 0.0, n, 0.0, tail);
    es := first + tail;

    BurstAllowed(l, map[], id, 0.0, n, true);
    BurstAllowed(l, map[], id, 0.0, n, false);
    BurstSame(l, map[], id, 0.0, n);
    var spent := End(l, map[], first, false);
    AnswersConcat(l, map[], first, tail, true);
    AnswersConcat(l, map[], first, tail, false);
    SpentBucket(l, id, n);
    var swept := Swept(l, spent, span);
    assert id !in swept;
    assert LevelOf(l, spent, id, span) == Gain(l, span);
    BurstAllowed(l, swept, id, span, n, true);
    BurstAllowed(l, spent, id, span, n, false);
    assert Answers(l, spent, tail, true) == Answers(l, swept, second, true);
    assert Answers(l, spent, tail, false) == Answers(l, spent, second, false);
    SuffixesDiffer(Answers(l, map[], first, false),
                   Answers(l, swept, second, true), Answers(l, spent, second, false));
  }

  lemma SuffixesDiffer<T>(p: seq<T>, a: seq<T>, b: seq<T>)
    requires a != b
    ensures p + a != p + b
  {
    assert (p + a)[|p|..] == a;
    assert (p + b)[|p|..] == b;
  }

  lemma SpanBetween(l: Limits, span: real)
    requires Limiting(l) && l.ttl >= 0.0 && Gain(l, l.ttl) < Full(l)
    requires span == (l.ttl + Full(l) / l.limit) / 2.0
    ensures l.ttl < span && Gain(l, span) < Full(l) && Gain(l, span) > 0.0
  {
    var whole := Full(l) / l.limit;
    assert Gain(l, whole) == Full(l);
    if whole <= l.ttl {
      GainMonotone(l, whole, l.ttl);
    }
    GainStrict(l, span, whole);
    GainStrict(l, 0.0, span);
    assert Gain(l, 0.0) == 0.0;
  }

  // Requests alone do not depend on the sweeper.
  lemma {:induction false} BurstSame(l: Limits, clients: Clients, id: string, at: real, n: nat)
    ensures End(l, clients, Burst(id, at, n), true) == End(l, clients, Burst(id, at, n), false)
    ensures Answers(l, clients, Burst(id, at, n), true) == Answers(l, clients, Burst(id, at, n), false)
    decreases n
  {
    if n > 0 {
      assert Burst(id, at, n)[1..] == Burst(id, at, n - 1);
      BurstSame(l, After(l, clients, Ask(id, at), true), id, at, n - 1);
    }
  }

  // A bucket spent at one instant was last seen then.
  lemma {:induction false} BurstSeen(l: Limits, clients: Clients, id: string, at: real, n: nat)
    requires Limiting(l) && (id in clients ==> clients[id].seen == at && clients[id].last == at)
    requires n > 0 || id in clients
    ensures var end := End(l, clients, Burst(id, at, n), false);
            id in end && end[id].seen == at && end[id].last == at
    decreases n
  {
    if n > 0 {
      assert Burst(id, at, n)[1..] == Burst(id, at, n - 1);
      BurstSeen(l, After(l, clients, Ask(id, at), false), id, at, n - 1);
    }
  }

  lemma SpentBucket(l: Limits, id: string, n: nat)
    requires Limiting(l) && n == l.burst
    ensures var end := End(l, map[], Burst(id, 0.0, n), false);
            id in end && end[id] == Bucket(0.0, 0.0, 0.0)
  {
    BurstAllowed(l, map[], id, 0.0, n, false);
    BurstSeen(l, map[], id, 0.0, n);
    assert Gain(l, 0.0) == 0.0;
    var end := End(l, map[], Burst(id, 0.0, n), false);
    assert Level(l, end[id], 0.0) == 0.0;
  }

  /** Eviction is unobservable exactly when a bucket can refill within its time
      to live: then, and only then, every sequence of requests and sweeps is
      answered as by a limiter that never forgets. */
  lemma EvictionUnobservable(l: Limits)
    requires Limiting(l) && l.ttl >= 0.0
    ensures (forall es :: InOrder(es, 0.0) ==>
               Answers(l, map[], es, true) == Answers(l, map[], es, false)) <==>
            Gain(l, l.ttl) >= Full(l)
  {
    if Gain(l, l.ttl) >= Full(l) {
      forall es | InOrder(es, 0.0) ensures Answers(l, map[], es, true) == Answers(l, map[], es, false) {
        SameAnswers(l, map[], map[], 0.0, es);
      }
    } else {
      var es := EvictionObservable(l, "client");
    }
  }

  // ---------------------------------------------------------- the budget

  // How many requests of a client a run allows.
  function Granted(l: Limits, clients: Clients, es: seq<Event>, id: string, sweeping: bool): nat
    decreases |es|
  {
    if es == [] then 0
    else
      var e := es[0];
      (if e.Ask? && e.id == id && Asked(l, clients, id, e.at).1.allowed then 1 else 0)
      + Granted(l, After(l, clients, e, sweeping), es[1..], id, sweeping)
  }

  // Without a sweeper, what a client is granted and what it has left never
  // exceed what it had and what it gained.
  lemma {:induction false} GrantedBudget(l: Limits, clients: Clients, es: seq<Event>, id: string, now: real, until: real)
    requires Limiting(l) && Sound(l, clients, now) && InOrder(es, now) && now <= until
    requires forall i :: 0 <= i < |es| ==> es[i].at <= until
    ensures Granted(l, clients, es, id, false) as real <= LevelOf(l, clients, id, now) + Gain(l, until - now)
    decreases |es|
  {
    LevelInRange(l, clients, id, now);
    GainMonotone(l, 0.0, until - now);
    assert Gain(l, 0.0) == 0.0;
    if es != [] {
      var e := es[0];
      assert es[0].at <= until;
      var after := After(l, clients, e, false);
      LevelRises(l, clients, id, now, e.at);
      AfterSound(l, clients, e, false, now);
      assert forall i :: 0 <= i < |es[1..]| ==> es[1..][i] == es[i + 1];
      GrantedBudget(l, after, es[1..], id, e.at, until);
      GainAdds(l, e.at - now, until - e.at);
      assert (e.at - now) + (until - e.at) == until - now;
      LevelInRange(l, clients, id, e.at);
      LevelAfter(l, clients, e, id);
    }
  }

  lemma LevelAfter(l: Limits, clients: Clients, e: Event, id: string)
    requires Limiting(l) && 0.0 <= LevelOf(l, clients, id, e.at) <= Full(l)
    ensures
      var level := LevelOf(l, clients, id, e.at);
      LevelOf(l, After(l, clients, e, false), id, e.at) ==
      if e.Ask? && e.id == id && level >= 1.0 then level - 1.0 else level
  {
    if e.Ask? && e.id == id {
      LevelAtUse(l, clients, id, e.at);
    }
  }

  // The two limiters grant the same.
  lemma {:induction false} SameGrants(l: Limits, swept: Clients, kept: Clients, now: real, es: seq<Event>, id: string)
    requires Limiting(l) && Gain(l, l.ttl) >= Full(l)
    requires Sound(l, kept, now) && Agree(l, swept, kept, now) && InOrder(es, now)
    ensures Granted(l, swept, es, id, true) == Granted(l, kept, es, id, false)
    decreases |es|
  {
    if es != [] {
      var e := es[0];
      AgreeAfter(l, swept, kept, now, e);
      AfterSound(l, kept, e, false, now);
      SameGrants(l, After(l, swept, e, true), After(l, kept, e, false), e.at, es[1..], id);
    }
  }

  // The state two limiters reach by the same run.
  lemma {:induction false} AgreeAtEnd(l: Limits, swept: Clients, kept: Clients, now: real, es: seq<Event>, until: real)
    requires Limiting(l) && Gain(l, l.ttl) >= Full(l)
    requires Sound(l, kept, now) && Agree(l, swept, kept, now) && InOrder(es, now) && now <= until
    requires forall i :: 0 <= i < |es| ==> es[i].at <= until
    ensures Sound(l, End(l, kept, es, false), until)
    ensures Agree(l, End(l, swept, es, true), End(l, kept, es, false), until)
    decreases |es|
  {
    if es == [] {
      AgreeLater(l, swept, kept, now, until);
    } else {
      var e := es[0];
      assert es[0].at <= until;
      AgreeAfter(l, swept, kept, now, e);
      AfterSound(l, kept, e, false, now);
      assert forall i :: 0 <= i < |es[1..]| ==> es[1..][i] == es[i + 1];
      AgreeAtEnd(l, After(l, swept, e, true), After(l, kept, e, false), e.at, es[1..], until);
    }
  }

  // A window of a run: what came before it, and what falls within it.
  predicate InWindow(before: seq<Event>, window: seq<Event>, start: real, span: real) {
    && InOrder(before, 0.0) && 0.0 <= start && (forall i :: 0 <= i < |before| ==> before[i].at <= start)
    && InOrder(window, start) && (forall i :: 0 <= i < |window| ==> window[i].at <= start + span)
    && span >= 0.0
  }

  /** What a client is granted in a window is at most the burst and what it gains
      over the window. */
  predicate WithinBudget(l: Limits, before: seq<Event>, window: seq<Event>, id: string, span: real) {
    Granted(l, End(l, map[], before, true), window, id, true) as real <= Full(l) + Gain(l, span)
  }

  lemma BudgetKept(l: Limits, before: seq<Event>, window: seq<Event>, id: string, start: real, span: real)
    requires Limiting(l) && Gain(l, l.ttl) >= Full(l) && InWindow(before, window, start, span)
    ensures WithinBudget(l, before, window, id, span)
  {
    AgreeAtEnd(l, map[], map[], 0.0, before, start);
    var swept, kept := End(l, map[], before, true), End(l, map[], before, false);
    WindowGrants(l, swept, kept, window, id, start, start + span);
    assert start + span - start == span;
  }

  // Two runs one after the other.
  lemma {:induction false} GrantedConcat(l: Limits, clients: Clients, es: seq<Event>, fs: seq<Event>, id: string)
    ensures Granted(l, clients, es + fs, id, true) ==
            Granted(l, clients, es, id, true) + Granted(l, End(l, clients, es, true), fs, id, true)
    decreases |es|
  {
    if es == [] {
      assert es + fs == fs;
    } else {
      assert (es + fs)[1..] == es[1..] + fs;
      GrantedConcat(l, After(l, clients, es[0], true), es[1..], fs, id);
    }
  }

  // As many requests at one instant as there are tokens are all granted.
  lemma {:induction false} BurstGranted(l: Limits, clients: Clients, id: string, at: real, n: nat)
    requires Limiting(l) && n as real <= LevelOf(l, clients, id, at) <= Full(l)
    ensures Granted(l, clients, Burst(id, at, n), id, true) == n
    decreases n
  {
    if n > 0 {
      LevelAtUse(l, clients, id, at);
      assert Burst(id, at, n)[1..] == Burst(id, at, n - 1);
      BurstGranted(l, Asked(l, clients, id, at).0, id, at, n - 1);
    }
  }

  // Spend a full bucket, let it be swept away, and spend it again.
  function SpendTwice(l: Limits, id: string, span: real): seq<Event>
    requires Limiting(l)
  {
    Burst(id, 0.0, l.burst as nat) + ([Sweep(span)] + Burst(id, span, l.burst as nat))
  }

  lemma SpendTwiceInWindow(l: Limits, id: string, span: real)
    requires Limiting(l) && span >= 0.0
    ensures InWindow([], SpendTwice(l, id, span), 0.0, span)
  {
    var n := l.burst as nat;
    var second := Burst(id, span, n);
    assert second + [] == second;
    BurstInOrder(id, span, n, span, []);
    BurstInOrder(id, 0.0, n, 0.0, [Sweep(span)] + second);
    BurstAt(id, 0.0, n);
    BurstAt(id, span, n);
  }

  lemma {:induction false} BurstAt(id: string, at: real, n: nat)
    ensures forall i :: 0 <= i < |Burst(id, at, n)| ==> Burst(id, at, n)[i].at == at
  {
    if n > 0 {
      BurstAt(id, at, n - 1);
    }
  }

  // Below the condition that run is granted twice the burst within a window too
  // short to gain the second one.
  lemma BudgetBroken(l: Limits, id: string) returns (span: real)
    requires Limiting(l) && l.ttl >= 0.0 && Gain(l, l.ttl) < Full(l)
    ensures InWindow([], SpendTwice(l, id, span), 0.0, span)
    ensures Granted(l, map[], SpendTwice(l, id, span), id, true) == 2 * l.burst
    ensures !WithinBudget(l, [], SpendTwice(l, id, span), id, span)
  {
    span := (l.ttl + Full(l) / l.limit) / 2.0;
    SpanBetween(l, span);
    SpendTwiceInWindow(l, id, span);
    var n := l.burst as nat;
    var first, second := Burst(id, 0.0, n), Burst(id, span, n);
    BurstGranted(l, map[], id, 0.0, n);
    BurstSame(l, map[], id, 0.0, n);
    SpentBucket(l, id, n);
    var swept := Swept(l, End(l, map[], first, true), span);
    BurstGranted(l, swept, id, span, n);
    assert ([Sweep(span)] + second)[1..] == second;
    GrantedConcat(l, map[], first, [Sweep(span)] + second, id);
  }

  /** In every window of every run one client is granted at most the burst and
      what it gains over the window, whatever other clients and the sweeper do
      and however many of its requests are refused, exactly when a bucket can
      refill within its time to live. */
  lemma WindowBudget(l: Limits)
    requires Limiting(l) && l.ttl >= 0.0
    ensures (forall before, window, id, start, span ::
               InWindow(before, window, start, span) ==> WithinBudget(l, before, window, id, span)) <==>
            Gain(l, l.ttl) >= Full(l)
  {
    if Gain(l, l.ttl) >= Full(l) {
      forall before, window, id, start, span | InWindow(before, window, start, span)
        ensures WithinBudget(l, before, window, id, span)
      {
        BudgetKept(l, before, window, id, start, span);
      }
    } else {
      var span := BudgetBroken(l, "client");
    }
  }

  lemma WindowGrants(l: Limits, swept: Clients, kept: Clients, window: seq<Event>, id: string, start: real, until: real)
    requires Limiting(l) && Gain(l, l.ttl) >= Full(l)
    requires Sound(l, kept, start) && Agree(l, swept, kept, start) && InOrder(window, start)
    requires start <= until && forall i :: 0 <= i < |window| ==> window[i].at <= until
    ensures Granted(l, swept, window, id, true) as real <= Full(l) + Gain(l, until - start)
  {
    SameGrants(l, swept, kept, start, window, id);
    GrantedBudget(l, kept, window, id, start, until);
    LevelInRange(l, kept, id, start);
  }

  // ------------------------------------------------- and no less than that

  // What a client could have had in a window that begins with a full bucket,
  // this request included, was not granted.
  predicate RoomIn(l: Limits, es: seq<Event>, k: nat, id: string, start: real, now: real)
    requires k <= |es|
  {
    Granted(l, End(l, map[], es[..k], true), es[k..], id, true) as real + 1.0 <= Full(l) + Gain(l, now - start)
  }

  // The window from a moment of a run to its end.
  predicate LastWindow(es: seq<Event>, k: nat, start: real, now: real) {
    k <= |es| && InWindow(es[..k], es[k..], start, now - start)
  }

  // The level a run leaves is full, or what it began with and gained less what
  // was granted, or that of a full bucket since some event of the run.
  ghost predicate Accounted(l: Limits, clients: Clients, es: seq<Event>, id: string,
                            now: real, until: real, sweeping: bool)
  {
    var level := LevelOf(l, End(l, clients, es, sweeping), id, until);
    || level >= Full(l)
    || level >= LevelOf(l, clients, id, now) + Gain(l, until - now) - Granted(l, clients, es, id, sweeping) as real
    || exists k :: 0 <= k < |es| && SinceFull(l, clients, es, id, k, until, sweeping)
  }

  predicate SinceFull(l: Limits, clients: Clients, es: seq<Event>, id: string, k: nat,
                      until: real, sweeping: bool)
    requires k < |es|
  {
    LevelOf(l, End(l, clients, es, sweeping), id, until) >=
      Full(l) + Gain(l, until - es[k].at)
      - Granted(l, End(l, clients, es[..k], sweeping), es[k..], id, sweeping) as real
  }

  // Time passing fills a bucket, or adds what it gains.
  lemma LevelLater(l: Limits, clients: Clients, id: string, now: real, later: real)
    requires Limiting(l) && Sound(l, clients, now) && now <= later
    ensures LevelOf(l, clients, id, later) >= Full(l) ||
            LevelOf(l, clients, id, later) >= LevelOf(l, clients, id, now) + Gain(l, later - now)
  {
    GainMonotone(l, 0.0, later - now);
    if id in clients {
      var b := clients[id];
      GainAdds(l, now - b.last, later - now);
      assert (now - b.last) + (later - now) == later - b.last;
    }
  }

  // One event takes a token if it is a granted request, and nothing else.
  lemma LevelAfterAny(l: Limits, clients: Clients, e: Event, id: string, sweeping: bool)
    requires Limiting(l) && Sound(l, clients, e.at)
    ensures
      var granted := if e.Ask? && e.id == id && Asked(l, clients, id, e.at).1.allowed then 1.0 else 0.0;
      LevelOf(l, After(l, clients, e, sweeping), id, e.at) >= LevelOf(l, clients, id, e.at) - granted
  {
    LevelInRange(l, clients, id, e.at);
    if e.Ask? && e.id == id {
      LevelAtUse(l, clients, id, e.at);
    }
  }

  lemma GrantedFirst(l: Limits, clients: Clients, es: seq<Event>, id: string, sweeping: bool)
    requires es != []
    ensures
      var e := es[0];
      Granted(l, clients, es, id, sweeping) ==
      (if e.Ask? && e.id == id && Asked(l, clients, id, e.at).1.allowed then 1 else 0)
      + Granted(l, After(l, clients, e, sweeping), es[1..], id, sweeping)
  {
  }

  lemma SinceFullLater(l: Limits, clients: Clients, es: seq<Event>, id: string, k: nat, until: real, sweeping: bool)
    requires es != [] && k < |es| - 1
    requires SinceFull(l, After(l, clients, es[0], sweeping), es[1..], id, k, until, sweeping)
    ensures SinceFull(l, clients, es, id, k + 1, until, sweeping)
  {
    assert es[..k + 1][1..] == es[1..][..k] && es[..k + 1][0] == es[0];
    assert es[k + 1..] == es[1..][k..];
    assert es[1..][k] == es[k + 1];
  }

  lemma {:induction false} LevelAccounted(l: Limits, clients: Clients, es: seq<Event>, id: string,
                                          now: real, until: real, sweeping: bool)
    requires Limiting(l) && Sound(l, clients, now) && InOrder(es, now) && now <= until
    requires forall i :: 0 <= i < |es| ==> es[i].at <= until
    ensures Accounted(l, clients, es, id, now, until, sweeping)
    decreases |es|
  {
    if es == [] {
      LevelLater(l, clients, id, now, until);
    } else {
      var e := es[0];
      assert e.at <= until;
      var after := After(l, clients, e, sweeping);
      assert forall i :: 0 <= i < |es[1..]| ==> es[1..][i] == es[i + 1];
      AfterSound(l, clients, e, sweeping, now);
      LevelAccounted(l, after, es[1..], id, e.at, until, sweeping);
      AccountedFirst(l, clients, es, id, now, until, sweeping);
    }
  }

  lemma AccountedFirst(l: Limits, clients: Clients, es: seq<Event>, id: string,
                       now: real, until: real, sweeping: bool)
    requires Limiting(l) && Sound(l, clients, now) && es != [] && now <= es[0].at <= until
    requires Accounted(l, After(l, clients, es[0], sweeping), es[1..], id, es[0].at, until, sweeping)
    ensures Accounted(l, clients, es, id, now, until, sweeping)
  {
    var e := es[0];
    var after := After(l, clients, e, sweeping);
    var level := LevelOf(l, End(l, clients, es, sweeping), id, until);
    if level >= Full(l) {
    } else if k: nat :| k < |es[1..]| && SinceFull(l, after, es[1..], id, k, until, sweeping) {
      SinceFullLater(l, clients, es, id, k, until, sweeping);
    } else {
      LevelAfterAny(l, clients, e, id, sweeping);
      LevelLater(l, clients, id, now, e.at);
      GrantedFirst(l, clients, es, id, sweeping);
      if LevelOf(l, clients, id, e.at) >= Full(l) {
        assert es[..0] == [] && es[0..] == es;
        assert SinceFull(l, clients, es, id, 0, until, sweeping);
      } else {
        GainAdds(l, e.at - now, until - e.at);
        assert (e.at - now) + (until - e.at) == until - now;
      }
    }
  }

  lemma {:induction false} OrderSplits(es: seq<Event>, from: real, k: nat)
    requires InOrder(es, from) && k < |es|
    ensures from <= es[k].at
    ensures InOrder(es[..k], from) && (forall i :: 0 <= i < k ==> es[i].at <= es[k].at)
    ensures InOrder(es[k..], es[k].at)
    decreases k
  {
    if k > 0 {
      OrderSplits(es[1..], es[0].at, k - 1);
      assert es[..k][1..] == es[1..][..k - 1] && es[..k][0] == es[0];
      assert es[k..] == es[1..][k - 1..];
      forall i | 0 <= i < k ensures es[i].at <= es[k].at {
        if i > 0 {
          assert es[i] == es[1..][i - 1];
        }
      }
    } else {
      assert es[..0] == [] && es[0..] == es;
    }
  }

  // A refusal has a window to show for it.
  lemma RefusedHasWindow(l: Limits, es: seq<Event>, id: string, now: real) returns (k: nat, start: real)
    requires Limiting(l) && InOrder(es, 0.0) && 0.0 <= now && (forall i :: 0 <= i < |es| ==> es[i].at <= now)
    requires !Asked(l, End(l, map[], es, true), id, now).1.allowed
    ensures LastWindow(es, k, start, now) && !RoomIn(l, es, k, id, start, now)
  {
    LevelAccounted(l, map[], es, id, 0.0, now, true);
    if j: nat :| j < |es| && SinceFull(l, map[], es, id, j, now, true) {
      k, start := j, es[j].at;
      OrderSplits(es, 0.0, j);
      assert forall i :: 0 <= i < |es[j..]| ==> es[j..][i] == es[j + i];
      assert start + (now - start) == now;
    } else {
      k, start := 0, 0.0;
      assert es[..0] == [] && es[0..] == es;
    }
  }

  // An allowed request had room in every window, if buckets are not forgotten
  // too soon.
  lemma AllowedHasRoom(l: Limits, es: seq<Event>, id: string, now: real, k: nat, start: real)
    requires Limiting(l) && Gain(l, l.ttl) >= Full(l) && LastWindow(es, k, start, now) && start <= now
    requires Asked(l, End(l, map[], es, true), id, now).1.allowed
    ensures RoomIn(l, es, k, id, start, now)
  {
    var window := es[k..] + [Ask(id, now)];
    var clients := End(l, map[], es[..k], true);
    OrderExtends(es[k..], start, Ask(id, now));
    assert start + (now - start) == now;
    assert forall i :: 0 <= i < |window| ==> window[i].at <= start + (now - start);
    assert InWindow(es[..k], window, start, now - start);
    BudgetKept(l, es[..k], window, id, start, now - start);
    GrantedConcat(l, clients, es[k..], [Ask(id, now)], id);
    AnswersConcat(l, map[], es[..k], es[k..], true);
    assert es[..k] + es[k..] == es;
    GrantedFirst(l, End(l, clients, es[k..], true), [Ask(id, now)], id, true);
  }

  lemma {:induction false} OrderExtends(es: seq<Event>, from: real, e: Event)
    requires InOrder(es, from) && from <= e.at && (forall i :: 0 <= i < |es| ==> es[i].at <= e.at)
    ensures InOrder(es + [e], from)
    decreases |es|
  {
    if es == [] {
      assert [] + [e] == [e];
    } else {
      assert (es + [e])[1..] == es[1..] + [e];
      assert es[0].at <= e.at;
      assert forall i :: 0 <= i < |es[1..]| ==> es[1..][i] == es[i + 1];
      OrderExtends(es[1..], es[0].at, e);
    }
  }

  /** A request is never refused unless, in some window up to it, the client has
      been granted so much that one more would exceed the burst and what it gains
      over the window; and if a bucket can refill within its time to live it is
      allowed exactly when every window has that room. */
  lemma AllowedIffRoom(l: Limits, es: seq<Event>, id: string, now: real)
    requires Limiting(l) && InOrder(es, 0.0) && 0.0 <= now && (forall i :: 0 <= i < |es| ==> es[i].at <= now)
    ensures
      var allowed := Asked(l, End(l, map[], es, true), id, now).1.allowed;
      var room := forall k, start :: LastWindow(es, k, start, now) ==> RoomIn(l, es, k, id, start, now);
      (room ==> allowed) && (Gain(l, l.ttl) >= Full(l) && allowed ==> room)
  {
    if !Asked(l, End(l, map[], es, true), id, now).1.allowed {
      var k, start := RefusedHasWindow(l, es, id, now);
    } else if Gain(l, l.ttl) >= Full(l) {
      forall k, start | LastWindow(es, k, start, now) ensures RoomIn(l, es, k, id, start, now) {
        AllowedHasRoom(l, es, id, now, k, start);
      }
    }
  }

  /** With a non-positive limit or burst every request of every run is allowed at
      once, and no client is tracked. */
  lemma {:induction false} DisabledAllowsAll(l: Limits, es: seq<Event>, sweeping: bool)
    requires l.limit <= 0.0 || l.burst <= 0
    ensures End(l, map[], es, sweeping) == map[]
    ensures forall i :: 0 <= i < |Answers(l, map[], es, sweeping)| ==>
              Answers(l, map[], es, sweeping)[i] == Answer(true, 0.0)
    decreases |es|
  {
    if es != [] {
      assert After(l, map[], es[0], sweeping) == map[];
      DisabledAllowsAll(l, es[1..], sweeping);
    }
  }

  // ------------------------------------------------------------ Retry-After

  function Ceil(x: real): int {
    -((-x).Floor)
  }

  /** The whole seconds advertised with a refusal. */
  function RetryAfter(delay: real): int {
    if Ceil(delay) < 1 then 1 else Ceil(delay)
  }

  // The client's own bucket while it stays silent: untouched, or forgotten by
  // the sweeper once it has been idle for longer than the time to live.
  lemma {:induction false} SilentBucket(l: Limits, clients: Clients, es: seq<Event>, id: string, now: real)
    requires id in clients && InOrder(es, now)
    requires forall i :: 0 <= i < |es| && es[i].Ask? ==> es[i].id != id
    ensures var end := End(l, clients, es, true);
            || (id in end && end[id] == clients[id])
            || (id !in end && (es != [] && es[|es| - 1].at > clients[id].seen + l.ttl))
    decreases |es|
  {
    if es != [] {
      var e := es[0];
      var after := After(l, clients, e, true);
      assert e.Ask? ==> e.id != id;
      if id in after {
        SilentBucket(l, after, es[1..], id, e.at);
      } else {
        StaysForgotten(l, after, es[1..], id);
        LastIsLatest(es, now);
      }
    }
  }

  lemma {:induction false} StaysForgotten(l: Limits, clients: Clients, es: seq<Event>, id: string)
    requires id !in clients
    requires forall i :: 0 <= i < |es| && es[i].Ask? ==> es[i].id != id
    ensures id !in End(l, clients, es, true)
    decreases |es|
  {
    if es != [] {
      assert es[0].Ask? ==> es[0].id != id;
      StaysForgotten(l, After(l, clients, es[0], true), es[1..], id);
    }
  }

  lemma {:induction false} LastIsLatest(es: seq<Event>, now: real)
    requires es != [] && InOrder(es, now)
    ensures now <= es[0].at <= es[|es| - 1].at
    decreases |es|
  {
    if |es| > 1 {
      LastIsLatest(es[1..], es[0].at);
    }
  }

  // Waiting out the delay is what brings the level back to one token.
  lemma DelayExact(l: Limits, level: real, span: real)
    requires Limiting(l) && 0.0 <= level < 1.0
    ensures span >= (1.0 - level) / l.limit <==> level + Gain(l, span) >= 1.0
  {
    var delay := (1.0 - level) / l.limit;
    assert Gain(l, delay) == 1.0 - level;
    if span >= delay {
      GainMonotone(l, delay, span);
    } else {
      GainStrict(l, span, delay);
    }
  }

  // Whatever happens from a refusal to a later time without the client.
  predicate Silent(es: seq<Event>, id: string, at: real, later: real) {
    && InOrder(es, at) && (forall i :: 0 <= i < |es| && es[i].Ask? ==> es[i].id != id)
    && at <= later && (es != [] ==> es[|es| - 1].at <= later)
  }

  // After a refusal, and however long other clients and the sweeper go on, a
  // later request is allowed when the delay has passed; and not before, if an
  // idle bucket is kept at least until it holds a token again.
  lemma RefusedUntilDelay(l: Limits, clients: Clients, id: string, at: real, es: seq<Event>, later: real)
    requires Limiting(l) && Sound(l, clients, at)
    requires !Asked(l, clients, id, at).1.allowed
    requires Silent(es, id, at, later)
    ensures
      var (refused, answer) := Asked(l, clients, id, at);
      var allowed := Asked(l, End(l, refused, es, true), id, later).1.allowed;
      && (later - at >= answer.delay ==> allowed)
      && (Gain(l, l.ttl) >= 1.0 && allowed ==> later - at >= answer.delay)
  {
    var (refused, answer) := Asked(l, clients, id, at);
    var level := LevelOf(l, clients, id, at);
    LevelInRange(l, clients, id, at);
    SilentBucket(l, refused, es, id, at);
    DelayExact(l, level, later - at);
    var end := End(l, refused, es, true);
    if id !in end && Gain(l, l.ttl) >= 1.0 {
      assert later - at >= l.ttl;
      GainMonotone(l, l.ttl, later - at);
    }
  }

  lemma CeilIsLeast(x: real, k: int)
    ensures k as real >= x <==> k >= Ceil(x)
  {
  }

  /** The client is served whenever it next asks, from a given delay on. */
  ghost predicate ServedFrom(l: Limits, clients: Clients, id: string, at: real, delay: real) {
    forall es, later :: Silent(es, id, at, later) && later >= at + delay ==>
      Asked(l, End(l, clients, es, true), id, later).1.allowed
  }

  lemma {:induction false} EndSound(l: Limits, clients: Clients, es: seq<Event>, now: real, until: real)
    requires Limiting(l) && Sound(l, clients, now) && InOrder(es, now) && now <= until
    requires forall i :: 0 <= i < |es| ==> es[i].at <= until
    ensures Sound(l, End(l, clients, es, true), until)
    decreases |es|
  {
    if es != [] {
      AfterSound(l, clients, es[0], true, now);
      assert forall i :: 0 <= i < |es[1..]| ==> es[1..][i] == es[i + 1];
      EndSound(l, After(l, clients, es[0], true), es[1..], es[0].at, until);
    }
  }

  // With nothing in between, the client is refused again before the delay.
  lemma NotServedSooner(l: Limits, clients: Clients, id: string, at: real, span: real)
    requires Limiting(l) && Sound(l, clients, at) && span >= 0.0
    requires !Asked(l, clients, id, at).1.allowed && span < Asked(l, clients, id, at).1.delay
    ensures !ServedFrom(l, Asked(l, clients, id, at).0, id, at, span)
  {
    LevelInRange(l, clients, id, at);
    DelayExact(l, LevelOf(l, clients, id, at), span);
    assert Silent([], id, at, at + span);
    assert End(l, Asked(l, clients, id, at).0, [], true) == Asked(l, clients, id, at).0;
  }

  /** After any run, the Retry-After advertised with a refusal is the least whole
      number of seconds, at least one, that guarantees service: the client is
      allowed whenever it next asks k seconds or more after the refusal, whatever
      other clients and the sweeper do meanwhile, if and only if k is at least
      that number. */
  lemma RetryAfterIsLeast(l: Limits, before: seq<Event>, id: string, at: real, k: int)
    requires Limiting(l) && k >= 1
    requires InOrder(before, 0.0) && 0.0 <= at && (forall i :: 0 <= i < |before| ==> before[i].at <= at)
    requires !Asked(l, End(l, map[], before, true), id, at).1.allowed
    ensures
      var (refused, answer) := Asked(l, End(l, map[], before, true), id, at);
      ServedFrom(l, refused, id, at, k as real) <==> k >= RetryAfter(answer.delay)
  {
    var clients := End(l, map[], before, true);
    EndSound(l, map[], before, 0.0, at);
    var refused, answer := Asked(l, clients, id, at).0, Asked(l, clients, id, at).1;
    CeilIsLeast(answer.delay, k);
    if k >= RetryAfter(answer.delay) {
      forall es, later | Silent(es, id, at, later) && later >= at + k as real
        ensures Asked(l, End(l, refused, es, true), id, later).1.allowed
      {
        RefusedUntilDelay(l, clients, id, at, es, later);
      }
    } else {
      NotServedSooner(l, clients, id, at, k as real);
    }
  }

  /** In one run the number is exact too, if an idle bucket is kept at least until
      it holds a token again. */
  lemma RetryAfterInRun(l: Limits, clients: Clients, id: string, at: real, es: seq<Event>, k: int)
    requires Limiting(l) && Gain(l, l.ttl) >= 1.0 && Sound(l, clients, at)
    requires !Asked(l, clients, id, at).1.allowed
    requires k >= 1 && Silent(es, id, at, at + k as real)
    ensures
      var (refused, answer) := Asked(l, clients, id, at);
      Asked(l, End(l, refused, es, true), id, at + k as real).1.allowed <==> k >= RetryAfter(answer.delay)
  {
    RefusedUntilDelay(l, clients, id, at, es, at + k as real);
    CeilIsLeast(Asked(l, clients, id, at).1.delay, k);
  }
}
