/** The delay between failed receives: exponential, capped, with full jitter.
    Durations are whole nanoseconds. */
module Backoff {
  const MAX_SHIFT := 32

  function Min(a: int, b: int): int {
    if a < b then a else b
  }

  function Pow2(n: nat): (r: nat)
    ensures r >= 1
  {
    if n == 0 then 1 else 2 * Pow2(n - 1)
  }

  /** The exclusive bound of the delay after a number of earlier failures. */
  function Cap(base: int, max: int, earlier: nat): int {
    Min(base * Pow2(Min(earlier, MAX_SHIFT)), max)
  }

  /** The same without limiting the shift. */
  function Uncapped(base: int, max: int, earlier: nat): int {
    Min(base * Pow2(earlier), max)
  }

  // A draw from [0, cap), or nothing to draw from.
  predicate Drawn(cap: int, delay: int) {
    if cap <= 0 then delay == 0 else 0 <= delay < cap
  }

  /** What one poll of the queue returned: an error, with the jitter that will
      be drawn for it, or a response. */
  datatype Poll = Failed(draw: nat) | Answered

  // The failures at the end of a sequence of polls.
  function Streak(polls: seq<Poll>): nat {
    if polls == [] || polls[|polls| - 1].Answered? then 0 else 1 + Streak(polls[..|polls| - 1])
  }

  datatype Report = Report(attempt: nat, delay: int)

  // A jitter source: for a positive bound, a whole number below it.
  function Jitter(draw: nat, cap: int): int {
    if cap <= 0 then 0 else draw % cap
  }

  /** Every delay below the bound can be drawn, and no other. */
  lemma JitterReaches(cap: int, delay: int)
    requires cap > 0
    ensures (exists draw :: Jitter(draw, cap) == delay) <==> 0 <= delay < cap
  {
    if 0 <= delay < cap {
      assert Jitter(delay, cap) == delay;
    }
  }

  class Backoff {
    const base: int
    const max: int
    var attempt: nat

    constructor (base: int, max: int)
      ensures this.base == base && this.max == max && attempt == 0
    {
      this.base, this.max, attempt := base, max, 0;
    }

    method Next(draw: nat) returns (delay: int)
      modifies this`attempt
      ensures attempt == old(attempt) + 1
      ensures delay == Jitter(draw, Cap(base, max, old(attempt)))
      ensures Drawn(Cap(base, max, old(attempt)), delay)
    {
      var shift := if attempt < MAX_SHIFT then attempt else MAX_SHIFT;
      var capped := base * Pow2(shift);
      if max < capped {
        capped := max;
      }
      attempt := attempt + 1;
      if capped <= 0 {
        return 0;
      }
      delay := Jitter(draw, capped);
    }

    method Reset()
      modifies this`attempt
      ensures attempt == 0
    {
      attempt := 0;
    }
  }

  // The reports a sequence of polls gives rise to, one for each failure.
  function Reports(base: int, max: int, polls: seq<Poll>): seq<Report> {
    if polls == [] then []
    else
      var before := Reports(base, max, polls[..|polls| - 1]);
      match polls[|polls| - 1]
      case Answered => before
      case Failed(draw) =>
        var attempt := Streak(polls);
        before + [Report(attempt, Jitter(draw, Cap(base, max, attempt - 1)))]
  }

  /** The receive loop's use of the backoff. Each failure is reported with the
      length of the failure streak it ends, and waits a delay drawn below the
      cap for that streak. */
  method ReceiveLoop(base: int, max: int, polls: seq<Poll>) returns (reports: seq<Report>)
    ensures reports == Reports(base, max, polls)
    ensures forall i :: 0 <= i < |reports| ==>
              reports[i].attempt >= 1 &&
              Drawn(Cap(base, max, reports[i].attempt - 1), reports[i].delay)
  {
    var retry := new Backoff(base, max);
    reports := [];
    var i := 0;
    while i < |polls|
      invariant 0 <= i <= |polls|
      invariant retry.base == base && retry.max == max && fresh(retry)
      invariant retry.attempt == Streak(polls[..i])
      invariant reports == Reports(base, max, polls[..i])
      invariant forall k :: 0 <= k < |reports| ==>
                  reports[k].attempt >= 1 &&
                  Drawn(Cap(base, max, reports[k].attempt - 1), reports[k].delay)
    {
      assert polls[..i + 1][..i] == polls[..i];
      match polls[i] {
        case Failed(draw) =>
          var delay := retry.Next(draw);
          reports := reports + [Report(retry.attempt, delay)];
        case Answered =>
          retry.Reset();
      }
      i := i + 1;
    }
    assert polls[..i] == polls;
  }

  // ------------------------------------------------------------ the caps

  lemma {:induction false} Pow2Monotone(a: nat, b: nat)
    requires a <= b
    ensures Pow2(a) <= Pow2(b)
  {
    if a < b {
      Pow2Monotone(a, b - 1);
    }
  }

  lemma Scaled(base: int, a: nat, b: nat)
    requires base >= 0 && a <= b
    ensures base * a <= base * b
  {
  }

  /** Within a streak the cap never decreases, and it never exceeds the maximum. */
  lemma CapMonotone(base: int, max: int, a: nat, b: nat)
    requires base >= 0 && a <= b
    ensures Cap(base, max, a) <= Cap(base, max, b) <= max
  {
    Pow2Monotone(Min(a, MAX_SHIFT), Min(b, MAX_SHIFT));
    Scaled(base, Pow2(Min(a, MAX_SHIFT)), Pow2(Min(b, MAX_SHIFT)));
  }

  lemma CapBelowUncapped(base: int, max: int, k: nat)
    requires base >= 0
    ensures Cap(base, max, k) <= Uncapped(base, max, k)
  {
    Pow2Monotone(Min(k, MAX_SHIFT), k);
    Scaled(base, Pow2(Min(k, MAX_SHIFT)), Pow2(k));
  }

  lemma ShiftLimitHidden(base: int, max: int, k: nat)
    requires base > 0 && base * Pow2(MAX_SHIFT) >= max
    ensures Cap(base, max, k) == Uncapped(base, max, k)
  {
    if k > MAX_SHIFT {
      Pow2Monotone(MAX_SHIFT, k);
      Scaled(base, Pow2(MAX_SHIFT), Pow2(k));
    }
  }

  lemma ShiftLimitShows(base: int, max: int, full: nat)
    requires base > 0 && full == Pow2(MAX_SHIFT) && base * full < max
    ensures Cap(base, max, MAX_SHIFT + 1) != Uncapped(base, max, MAX_SHIFT + 1)
  {
    assert Pow2(MAX_SHIFT + 1) == 2 * full;
    assert base * (2 * full) == base * full + base * full;
    Scaled(base, 1, full);
  }

  lemma LargestShift()
    ensures Pow2(MAX_SHIFT) == 0x1_0000_0000
  {
    assert Pow2(8) == 0x100;
    assert Pow2(16) == 0x100 * Pow2(8);
    assert Pow2(24) == 0x100 * Pow2(16);
    assert Pow2(32) == 0x100 * Pow2(24);
  }

  /** Limiting the shift changes no delay exactly when the limit, 2^32 times the
      base, already reaches the maximum. */
  lemma ShiftLimitUnobservable(base: int, max: int)
    requires base > 0
    ensures (forall k: nat :: Cap(base, max, k) == Uncapped(base, max, k)) <==>
            base * 0x1_0000_0000 >= max
  {
    LargestShift();
    if base * Pow2(MAX_SHIFT) >= max {
      forall k: nat ensures Cap(base, max, k) == Uncapped(base, max, k) {
        ShiftLimitHidden(base, max, k);
      }
    } else {
      ShiftLimitShows(base, max, Pow2(MAX_SHIFT));
    }
  }

  function Sum(delays: seq<int>): int {
    if delays == [] then 0 else Sum(delays[..|delays| - 1]) + delays[|delays| - 1]
  }

  // One delay, against both bounds.
  lemma DelayBelow(base: int, max: int, k: nat, delay: int)
    requires base > 0 && max > 0 && Drawn(Cap(base, max, k), delay)
    ensures delay < base * Pow2(k) && delay < max
  {
    CapBelowUncapped(base, max, k);
    Scaled(base, 1, Pow2(Min(k, MAX_SHIFT)));
  }

  // The sum of the uncapped bounds, and of the maximum, over n failures.
  function Bounds(base: int, n: nat): int {
    if n == 0 then 0 else Bounds(base, n - 1) + base * Pow2(n - 1)
  }

  function Maxima(max: int, n: nat): int {
    if n == 0 then 0 else Maxima(max, n - 1) + max
  }

  lemma {:induction false} BoundsClosed(base: int, n: nat)
    ensures Bounds(base, n) == base * (Pow2(n) - 1)
  {
    if n > 0 {
      BoundsClosed(base, n - 1);
      assert Pow2(n) == 2 * Pow2(n - 1);
    }
  }

  lemma {:induction false} MaximaClosed(max: int, n: nat)
    ensures Maxima(max, n) == n * max
  {
    if n > 0 {
      MaximaClosed(max, n - 1);
    }
  }

  lemma {:induction false} StreakBounds(base: int, max: int, delays: seq<int>)
    requires base > 0 && max > 0
    requires forall k :: 0 <= k < |delays| ==> Drawn(Cap(base, max, k), delays[k])
    ensures Sum(delays) <= Bounds(base, |delays|) - |delays|
    ensures Sum(delays) <= Maxima(max, |delays|) - |delays|
  {
    if delays != [] {
      var n := |delays| - 1;
      StreakBounds(base, max, delays[..n]);
      DelayBelow(base, max, n, delays[n]);
    }
  }

  /** Less than the geometric sum, and less than n times the maximum. */
  predicate WaitsLess(base: int, max: int, delays: seq<int>, n: nat) {
    Sum(delays) < base * (Pow2(n) - 1) && Sum(delays) < n * max
  }

  /** What a streak of n failures waits in total, whatever is drawn. */
  lemma StreakWait(base: int, max: int, delays: seq<int>, n: nat)
    requires base > 0 && max > 0 && n > 0 && |delays| == n
    requires forall k :: 0 <= k < n ==> Drawn(Cap(base, max, k), delays[k])
    ensures WaitsLess(base, max, delays, n)
  {
    StreakBounds(base, max, delays);
    BoundsClosed(base, n);
    MaximaClosed(max, n);
  }

  // The failures among the polls.
  function Failures(polls: seq<Poll>): nat {
    if polls == [] then 0
    else Failures(polls[..|polls| - 1]) + if polls[|polls| - 1].Failed? then 1 else 0
  }

  /** Every failed poll is reported once, and what has been reported stays: an
      answer adds nothing and takes nothing back. */
  lemma {:induction false} OneReportEach(base: int, max: int, polls: seq<Poll>, n: nat)
    requires n <= |polls|
    ensures |Reports(base, max, polls)| == Failures(polls)
    ensures Reports(base, max, polls[..n]) <= Reports(base, max, polls)
  {
    if polls == [] {
      assert polls[..n] == polls;
    } else if n == |polls| {
      OneReportEach(base, max, polls[..|polls| - 1], 0);
      assert polls[..n] == polls;
    } else {
      OneReportEach(base, max, polls[..|polls| - 1], n);
      assert polls[..|polls| - 1][..n] == polls[..n];
    }
  }

  // The delays of the last reports.
  function LastDelays(reports: seq<Report>, n: nat): seq<int>
    requires n <= |reports|
  {
    seq(n, k requires 0 <= k < n => reports[|reports| - n + k].delay)
  }

  // The last n reports are one streak, numbered from one, each delay drawn
  // below the cap of its number.
  predicate EndsInStreak(base: int, max: int, reports: seq<Report>, n: nat) {
    && n <= |reports|
    && (forall i :: |reports| - n <= i < |reports| ==>
          var k := i - (|reports| - n);
          reports[i].attempt == k + 1 && Drawn(Cap(base, max, k), reports[i].delay))
  }

  lemma {:induction false} StreakReports(base: int, max: int, polls: seq<Poll>)
    ensures EndsInStreak(base, max, Reports(base, max, polls), Streak(polls))
  {
    if polls != [] && polls[|polls| - 1].Failed? {
      StreakReports(base, max, polls[..|polls| - 1]);
    }
  }

  // The delays of the streak any reports end in.
  lemma LastDelaysDrawn(base: int, max: int, reports: seq<Report>, n: nat)
    requires EndsInStreak(base, max, reports, n)
    ensures |LastDelays(reports, n)| == n
    ensures forall k :: 0 <= k < n ==> Drawn(Cap(base, max, k), LastDelays(reports, n)[k])
  {
    var first := |reports| - n;
    forall k | 0 <= k < n ensures Drawn(Cap(base, max, k), LastDelays(reports, n)[k]) {
      var i := first + k;
      assert i - first == k && reports[i].attempt == k + 1;
      assert Drawn(Cap(base, max, k), reports[i].delay);
    }
  }

  /** And so does the failure streak a receive loop is in, whatever polls came
      before. */
  lemma CurrentStreakWait(base: int, max: int, polls: seq<Poll>)
    requires base > 0 && max > 0 && Streak(polls) > 0
    ensures
      var n, reports := Streak(polls), Reports(base, max, polls);
      n <= |reports| && WaitsLess(base, max, LastDelays(reports, n), n)
  {
    var n, reports := Streak(polls), Reports(base, max, polls);
    StreakReports(base, max, polls);
    LastDelaysDrawn(base, max, reports, n);
    StreakWait(base, max, LastDelays(reports, n), n);
  }
}
