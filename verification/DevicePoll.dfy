/**
  Polling for a device-flow token (sections 3.2 and 3.5 of RFC 8628). Durations are Go's:
  64-bit counts of nanoseconds. The server's answers, how long each request takes and
  how much longer than asked each pause lasts are inputs.
 */
module DevicePoll {
  import opened Text

  const SECOND := 1_000_000_000
  const TWO_TO_63 := 0x8000_0000_0000_0000
  const TWO_TO_64 := 0x1_0000_0000_0000_0000

  function Wrap64(x: int): int {
    (x + TWO_TO_63) % TWO_TO_64 - TWO_TO_63
  }

  /** `time.Duration(seconds) * time.Second`, which wraps around. */
  function Duration(seconds: int): int {
    Wrap64(seconds * SECOND)
  }

  lemma WrapAdd(x: int, y: int)
    ensures Wrap64(Wrap64(x) + y) == Wrap64(x + y)
  {
  }

  function StartInterval(intervalSeconds: int): (i: int)
    ensures 0 < i < TWO_TO_63
  {
    if Duration(intervalSeconds) <= 0 then 5 * SECOND else Duration(intervalSeconds)
  }

  function Lifetime(expiresIn: int): Option<int> {
    if expiresIn > 0 then Some(Duration(expiresIn)) else None
  }

  /**
    Below 2^63 nanoseconds the conversion is exact: interval and deadline are the server's, the
    default interval is five seconds, and without an expiry there is no deadline.
   */
  lemma DurationExact(seconds: int)
    requires -9_223_372_036 <= seconds <= 9_223_372_036
    ensures Duration(seconds) == seconds * SECOND
    ensures StartInterval(seconds) == if seconds <= 0 then 5 * SECOND else seconds * SECOND
    ensures Lifetime(seconds) == if seconds <= 0 then None else Some(seconds * SECOND)
  {
  }

  datatype Answer = Token | Pending | SlowDown | Denied | Expired | Unknown | RequestFailed

  datatype Poll = Poll(answer: Answer, latency: nat, oversleep: nat, cancelled: bool)

  datatype Outcome = GotToken | Failed(answer: Answer) | TimedOut | Cancelled | StillPolling

  predicate KeepsPolling(a: Answer) {
    a == Pending || a == SlowDown
  }

  function SlowDowns(script: seq<Poll>): nat {
    if script == [] then 0
    else SlowDowns(script[..|script| - 1]) + if script[|script| - 1].answer == SlowDown then 1 else 0
  }

  /** The interval in force after these answers; `interval += 5 * time.Second` wraps around too. */
  function IntervalAfter(start: int, script: seq<Poll>): int {
    Wrap64(start + 5 * SECOND * SlowDowns(script))
  }

  /** These answers do not lengthen the interval beyond what 64 bits can hold. */
  predicate NoWrap(start: int, script: seq<Poll>) {
    start + 5 * SECOND * SlowDowns(script) < TWO_TO_63
  }

  /** When the next poll falls due: a pause never ends early, and a negative one is none. */
  function NextDue(sent: int, p: Poll, interval: int): (due: int)
    ensures due >= sent + interval && due >= sent
  {
    sent + p.latency + (if interval > 0 then interval else 0) + p.oversleep
  }

  /** When poll number n falls due, if every earlier answer asks for more. */
  function Due(start: int, begin: int, script: seq<Poll>, n: nat): int
    requires n <= |script|
  {
    if n == 0 then begin else NextDue(Due(start, begin, script, n - 1), script[n - 1], IntervalAfter(start, script[..n]))
  }

  /** The k-th poll was sent at times[k], exactly when it fell due, and answered by script[k]; all but the last answer asked for more. */
  ghost predicate Polled(times: seq<int>, start: int, begin: int, script: seq<Poll>) {
    && |times| <= |script|
    && (forall k | 0 <= k < |times| :: times[k] == Due(start, begin, script, k))
    && (forall k | 0 <= k < |times| - 1 :: KeepsPolling(script[k].answer) && !script[k].cancelled)
  }

  ghost predicate InTime(times: seq<int>, begin: int, lifetime: Option<int>) {
    && (forall k | 0 <= k < |times| :: begin <= times[k])
    && (lifetime.Some? ==> forall k | 0 <= k < |times| :: times[k] <= begin + lifetime.value)
  }

  /** How the polling ended. */
  ghost predicate Ends(outcome: Outcome, times: seq<int>, start: int, begin: int, lifetime: Option<int>, script: seq<Poll>) {
    var n := |times|;
    && n <= |script|
    && match outcome
       case StillPolling => n == |script|
       case TimedOut => n < |script| && lifetime.Some? && Due(start, begin, script, n) > begin + lifetime.value
       case GotToken => 0 < n && script[n - 1].answer == Token
       case Failed(a) => 0 < n && script[n - 1].answer == a && a != Token && !KeepsPolling(a)
       case Cancelled => 0 < n && KeepsPolling(script[n - 1].answer) && script[n - 1].cancelled
  }

  lemma IntervalNext(start: int, script: seq<Poll>, n: nat)
    requires n < |script|
    ensures IntervalAfter(start, script[..n + 1]) ==
            if script[n].answer == SlowDown then Wrap64(IntervalAfter(start, script[..n]) + 5 * SECOND) else IntervalAfter(start, script[..n])
  {
    assert script[..n + 1][..n] == script[..n];
    WrapAdd(start + 5 * SECOND * SlowDowns(script[..n]), 5 * SECOND);
  }

  /** What one answer does: how the polling ends, or the next interval. */
  method Judge(interval: int, p: Poll) returns (ended: Option<Outcome>, next: int)
    ensures next == if p.answer == SlowDown then Wrap64(interval + 5 * SECOND) else interval
    ensures ended == match p.answer
                     case Token => Some(GotToken)
                     case Pending => (if p.cancelled then Some(Cancelled) else None)
                     case SlowDown => (if p.cancelled then Some(Cancelled) else None)
                     case a => Some(Failed(a))
  {
    next := interval;
    match p.answer {
      case Token => return Some(GotToken), next;
      case Pending =>
      case SlowDown => next := Wrap64(next + 5 * SECOND);
      case _ => return Some(Failed(p.answer)), next;
    }
    return if p.cancelled then Some(Cancelled) else None, next;
  }

  method PollUntil(start: int, begin: int, lifetime: Option<int>, script: seq<Poll>) returns (outcome: Outcome, times: seq<int>)
    requires 0 < start < TWO_TO_63
    ensures Polled(times, start, begin, script)
    ensures InTime(times, begin, lifetime)
    ensures Ends(outcome, times, start, begin, lifetime, script)
  {
    var interval, clock := start, begin;
    times := [];
    for n := 0 to |script|
      invariant |times| == n && begin <= clock
      invariant interval == IntervalAfter(start, script[..n])
      invariant Polled(times, start, begin, script)
      invariant clock == Due(start, begin, script, n)
      invariant InTime(times, begin, lifetime)
      invariant n > 0 ==> KeepsPolling(script[n - 1].answer) && !script[n - 1].cancelled
    {
      if lifetime.Some? && clock > begin + lifetime.value {
        return TimedOut, times;
      }
      times := times + [clock];
      IntervalNext(start, script, n);
      var ended;
      ended, interval := Judge(interval, script[n]);
      if ended.Some? {
        return ended.value, times;
      }
      clock := NextDue(clock, script[n], interval);
    }
    return StillPolling, times;
  }

  method PollDeviceToken(intervalSeconds: int, expiresIn: int, begin: int, script: seq<Poll>)
    returns (outcome: Outcome, times: seq<int>)
    ensures Polled(times, StartInterval(intervalSeconds), begin, script)
    ensures InTime(times, begin, Lifetime(expiresIn))
    ensures Ends(outcome, times, StartInterval(intervalSeconds), begin, Lifetime(expiresIn), script)
  {
    var interval := Duration(intervalSeconds);
    if interval <= 0 {
      interval := 5 * SECOND;
    }
    var lifetime: Option<int> := None;
    if expiresIn > 0 {
      lifetime := Some(Duration(expiresIn));
    }
    outcome, times := PollUntil(interval, begin, lifetime, script);
  }

  // ---- The interval and its wrap-around ----

  lemma {:induction false} SlowDownsGrow(script: seq<Poll>, m: nat, n: nat)
    requires m <= n <= |script|
    ensures SlowDowns(script[..m]) <= SlowDowns(script[..n]) <= n
    ensures SlowDowns(script[..n]) <= SlowDowns(script[..m]) + (n - m)
  {
    if n == 0 {
    } else if m == n {
      SlowDownsGrow(script, n - 1, n - 1);
      assert script[..n][..n - 1] == script[..n - 1];
    } else {
      SlowDownsGrow(script, m, n - 1);
      assert script[..n][..n - 1] == script[..n - 1];
    }
  }

  /** The interval is the start plus five seconds per slow_down exactly while that fits in 64 bits. */
  lemma {:induction false} IntervalExactIff(start: int, script: seq<Poll>)
    requires 0 < start
    ensures IntervalAfter(start, script) == start + 5 * SECOND * SlowDowns(script) <==> NoWrap(start, script)
  {
  }

  /** Beyond that the polling can speed up instead: one slow_down, and the next poll goes out at the same instant. */
  lemma WrapExample() returns (start: int, script: seq<Poll>, times: seq<int>)
    ensures start == StartInterval(9_223_372_036) && |script| == 2 && script[0] == Poll(SlowDown, 0, 0, false)
    ensures |times| == 2 && Polled(times, start, 0, script) && times[1] == times[0]
    ensures IntervalAfter(start, script[..1]) < 0 && !NoWrap(start, script[..1])
  {
    start := StartInterval(9_223_372_036);
    script := [Poll(SlowDown, 0, 0, false), Poll(Pending, 0, 0, false)];
    times := [0, 0];
    assert script[..1] == [script[0]] && script[..1][..0] == [];
    assert SlowDowns(script[..1]) == 1;
    assert Due(start, 0, script, 0) == 0 && Due(start, 0, script, 1) == 0;
  }

  lemma Spacing(times: seq<int>, start: int, begin: int, script: seq<Poll>, k: nat)
    requires Polled(times, start, begin, script) && k + 1 < |times|
    ensures times[k + 1] - times[k] >= IntervalAfter(start, script[..k + 1])
  {
    assert times[k] == Due(start, begin, script, k) && times[k + 1] == Due(start, begin, script, k + 1);
  }

  /**
    What must hold of start interval and lifetime, checked before the first poll, for no
    run to wrap: one slow_down fits into 64 bits, and a second one does too unless the
    lifetime is over before the wait after the first.
   */
  predicate Steady(start: int, lifetime: int) {
    && 0 < start && lifetime < TWO_TO_63
    && start + 5 * SECOND < TWO_TO_63
    && (start + 10 * SECOND < TWO_TO_63 || lifetime < start + 5 * SECOND)
  }

  /** How long was waited by poll number n: from two slow_downs on, as long as the interval after one more. */
  ghost predicate WaitedFor(waited: int, start: int, slowDowns: nat) {
    && waited >= 0
    && (slowDowns >= 1 ==> waited >= start + 5 * SECOND * slowDowns)
    && (slowDowns >= 2 ==> waited >= start + 5 * SECOND * (slowDowns + 1))
  }

  lemma WaitedForNext(waited: int, more: int, start: int, before: nat, after: nat)
    requires 0 < start && WaitedFor(waited, start, before) && more >= start + 5 * SECOND * after
    requires before <= after <= before + 1
    ensures WaitedFor(waited + more, start, after)
  {
  }

  lemma {:induction false} Waited(times: seq<int>, start: int, begin: int, script: seq<Poll>, n: nat)
    requires 0 < start && Polled(times, start, begin, script) && 0 < n <= |times|
    requires NoWrap(start, script[..n - 1])
    ensures WaitedFor(times[n - 1] - times[0], start, SlowDowns(script[..n - 1]))
  {
    if n == 1 {
    } else {
      SlowDownsGrow(script, n - 2, n - 1);
      Waited(times, start, begin, script, n - 1);
      Spacing(times, start, begin, script, n - 2);
      IntervalExactIff(start, script[..n - 1]);
      WaitedForNext(times[n - 2] - times[0], times[n - 1] - times[n - 2], start, SlowDowns(script[..n - 2]), SlowDowns(script[..n - 1]));
    }
  }

  lemma OneMoreFits(start: int, lifetime: int, waited: int, before: nat, after: nat)
    requires Steady(start, lifetime) && WaitedFor(waited, start, before) && waited <= lifetime
    requires start + 5 * SECOND * before < TWO_TO_63 && before <= after <= before + 1
    ensures start + 5 * SECOND * after < TWO_TO_63
  {
  }

  /** Whatever the server answers, the interval in force is always the start plus five seconds per slow_down. */
  lemma {:induction false} NeverWraps(times: seq<int>, start: int, begin: int, lifetime: int, script: seq<Poll>, n: nat)
    requires Steady(start, lifetime)
    requires Polled(times, start, begin, script) && InTime(times, begin, Some(lifetime)) && n <= |times|
    ensures NoWrap(start, script[..n])
  {
    if n == 0 {
    } else {
      NeverWraps(times, start, begin, lifetime, script, n - 1);
      Waited(times, start, begin, script, n);
      SlowDownsGrow(script, n - 1, n);
      assert times[0] >= begin && times[n - 1] <= begin + lifetime;
      OneMoreFits(start, lifetime, times[n - 1] - times[0], SlowDowns(script[..n - 1]), SlowDowns(script[..n]));
    }
  }

  // ---- How many polls there can be ----

  /** Counting only the answers that were waited on. */
  lemma {:induction false} SpanAtLeast(times: seq<int>, start: int, begin: int, script: seq<Poll>, n: nat)
    requires 0 < start && Polled(times, start, begin, script) && 0 < n <= |times|
    requires NoWrap(start, script[..n - 1])
    ensures times[n - 1] - times[0] >= (n - 1) * start
  {
    if n == 1 {
    } else {
      SlowDownsGrow(script, n - 2, n - 1);
      SpanAtLeast(times, start, begin, script, n - 1);
      Spacing(times, start, begin, script, n - 2);
      IntervalExactIff(start, script[..n - 1]);
      assert (n - 1) * start == (n - 2) * start + start;
    }
  }

  lemma {:induction false} AllSlow(script: seq<Poll>, n: nat)
    requires n <= |script| && forall k | 0 <= k < n :: script[k].answer == SlowDown
    ensures SlowDowns(script[..n]) == n
  {
    if n == 0 {
    } else {
      AllSlow(script, n - 1);
      assert script[..n][..n - 1] == script[..n - 1];
    }
  }

  lemma SlowSum(n: int, start: int)
    ensures 2 * (n - 1) * start + 5 * SECOND * n * (n - 1)
         == (2 * (n - 2) * start + 5 * SECOND * (n - 1) * (n - 2)) + 2 * (start + 5 * SECOND * (n - 1))
  {
  }

  lemma {:induction false} SpanAllSlow(times: seq<int>, start: int, begin: int, script: seq<Poll>, n: nat)
    requires 0 < start && Polled(times, start, begin, script) && 0 < n <= |times|
    requires NoWrap(start, script[..n - 1])
    requires forall k | 0 <= k < n - 1 :: script[k].answer == SlowDown
    ensures 2 * (times[n - 1] - times[0]) >= 2 * (n - 1) * start + 5 * SECOND * n * (n - 1)
  {
    if n == 1 {
    } else {
      SlowDownsGrow(script, n - 2, n - 1);
      SpanAllSlow(times, start, begin, script, n - 1);
      AllSlow(script, n - 1);
      Spacing(times, start, begin, script, n - 2);
      IntervalExactIff(start, script[..n - 1]);
      SlowSum(n, start);
    }
  }

  /** Within a lifetime E and from a start interval I, n polls satisfy (n - 1) * I <= E, whatever the server answers. */
  lemma PollsBounded(times: seq<int>, start: int, begin: int, lifetime: int, script: seq<Poll>)
    requires Steady(start, lifetime)
    requires Polled(times, start, begin, script) && InTime(times, begin, Some(lifetime)) && times != []
    ensures (|times| - 1) * start <= lifetime
    ensures (forall k | 0 <= k < |times| - 1 :: script[k].answer == SlowDown) ==>
              2 * (|times| - 1) * start + 5 * SECOND * |times| * (|times| - 1) <= 2 * lifetime
  {
    NeverWraps(times, start, begin, lifetime, script, |times| - 1);
    SpanAtLeast(times, start, begin, script, |times|);
    if forall k | 0 <= k < |times| - 1 :: script[k].answer == SlowDown {
      SpanAllSlow(times, start, begin, script, |times|);
    }
  }

  /** So with an expiry the polling ends by itself, whatever the server says: it cannot outlast this many answers. */
  lemma PollingTerminates(times: seq<int>, outcome: Outcome, start: int, begin: int, lifetime: int, script: seq<Poll>)
    requires Steady(start, lifetime)
    requires Polled(times, start, begin, script) && InTime(times, begin, Some(lifetime))
    requires Ends(outcome, times, start, begin, Some(lifetime), script)
    requires script != [] && (|script| - 1) * start > lifetime
    ensures outcome != StillPolling
  {
    if times != [] {
      PollsBounded(times, start, begin, lifetime, script);
    }
  }

  lemma InSeconds(n: int, interval: int, lifetime: int)
    requires n * (interval * SECOND) <= lifetime * SECOND
    ensures n * interval <= lifetime
  {
    assert n * (interval * SECOND) == (n * interval) * SECOND;
  }

  /** In the server's own units: no poll later than `expires_in` seconds after the start, and no more of them than `interval` seconds apart fit in. */
  lemma ServerLimitsKept(times: seq<int>, intervalSeconds: int, expiresIn: int, begin: int, script: seq<Poll>)
    requires Polled(times, StartInterval(intervalSeconds), begin, script) && InTime(times, begin, Lifetime(expiresIn)) && times != []
    requires 0 <= intervalSeconds <= 9_223_372_026 && 0 < expiresIn <= 9_223_372_036
    ensures forall k | 0 <= k < |times| :: times[k] <= begin + expiresIn * SECOND
    ensures (|times| - 1) * (if intervalSeconds == 0 then 5 else intervalSeconds) <= expiresIn
  {
    DurationExact(intervalSeconds);
    DurationExact(expiresIn);
    PollsBounded(times, StartInterval(intervalSeconds), begin, expiresIn * SECOND, script);
    InSeconds(|times| - 1, if intervalSeconds == 0 then 5 else intervalSeconds, expiresIn);
  }

  // ---- And exactly when ----

  /** A server that says slow_down m times, then keeps the client waiting, with no time lost in between. */
  function Stalling(m: nat, n: nat): seq<Poll> {
    seq(n, i requires 0 <= i < n => Poll(if i < m then SlowDown else Pending, 0, 0, false))
  }

  lemma {:induction false} StallingSlowDowns(m: nat, n: nat, k: nat)
    requires k <= n
    ensures SlowDowns(Stalling(m, n)[..k]) == if k < m then k else m
  {
    if k == 0 {
    } else {
      StallingSlowDowns(m, n, k - 1);
      assert Stalling(m, n)[..k][..k - 1] == Stalling(m, n)[..k - 1];
    }
  }

  /** Once wrapped into the negative, the interval no longer holds anything up. */
  lemma StallingStep(start: int, m: nat, n: nat, k: nat)
    requires 0 < k <= n && m <= k && TWO_TO_63 <= start + 5 * SECOND * m < TWO_TO_64
    ensures Due(start, 0, Stalling(m, n), k) == Due(start, 0, Stalling(m, n), k - 1)
  {
    StallingSlowDowns(m, n, k);
  }

  lemma {:induction false} StallingDue(start: int, m: nat, n: nat, k: nat)
    requires 0 < m <= k <= n && TWO_TO_63 <= start + 5 * SECOND * m < TWO_TO_64
    ensures Due(start, 0, Stalling(m, n), k) == Due(start, 0, Stalling(m, n), m - 1)
  {
    StallingStep(start, m, n, k);
    if k == m {
    } else {
      StallingDue(start, m, n, k - 1);
    }
  }

  /** The wait after a first slow_down that does not wrap. */
  lemma {:induction false} FirstWait(start: int, n: nat)
    requires 0 < start && start + 5 * SECOND < TWO_TO_63 && n >= 2
    ensures Due(start, 0, Stalling(2, n), 1) == start + 5 * SECOND
  {
    StallingSlowDowns(2, n, 1);
    assert Due(start, 0, Stalling(2, n), 0) == 0;
  }

  function DueTimes(start: int, script: seq<Poll>): seq<int> {
    seq(|script|, k requires 0 <= k < |script| => Due(start, 0, script, k))
  }

  /** Where a slow_down can wrap in time, some server is polled as often as it likes without the time running out. */
  lemma UnboundedPolls(start: int, lifetime: int, n: nat) returns (times: seq<int>, script: seq<Poll>)
    requires 0 < start < TWO_TO_63 && 0 <= lifetime < TWO_TO_63 && !Steady(start, lifetime) && n >= 2
    ensures |times| == n && |script| == n && Polled(times, start, 0, script) && InTime(times, 0, Some(lifetime))
    ensures Ends(StillPolling, times, start, 0, Some(lifetime), script) && !NoWrap(start, script)
  {
    var m := if start + 5 * SECOND >= TWO_TO_63 then 1 else 2;
    script := Stalling(m, n);
    times := DueTimes(start, script);
    forall k | 0 <= k < n
      ensures 0 <= times[k] <= lifetime
    {
      if m <= k {
        StallingDue(start, m, n, k);
      }
      if m == 2 {
        FirstWait(start, n);
      }
    }
    StallingSlowDowns(m, n, n);
    assert script[..n] == script;
  }

  lemma ManyPolls(start: int, lifetime: int) returns (n: nat)
    requires 0 < start && 0 <= lifetime
    ensures n >= 2 && (n - 1) * start > lifetime
  {
    n := lifetime / start + 2;
  }

  /** The interval stays the start plus five seconds per slow_down in every run if and only if start and lifetime are steady. */
  lemma NeverWrapsIff(start: int, lifetime: int)
    requires 0 < start < TWO_TO_63 && 0 <= lifetime < TWO_TO_63
    ensures (forall times, begin, script | Polled(times, start, begin, script) && InTime(times, begin, Some(lifetime)) ::
               NoWrap(start, script[..|times|])) <==> Steady(start, lifetime)
  {
    if Steady(start, lifetime) {
      forall times, begin, script | Polled(times, start, begin, script) && InTime(times, begin, Some(lifetime))
        ensures NoWrap(start, script[..|times|])
      {
        NeverWraps(times, start, begin, lifetime, script, |times|);
      }
    } else {
      var times, script := UnboundedPolls(start, lifetime, 2);
      assert script[..|times|] == script;
    }
  }

  /** Every run satisfies (n - 1) * I <= E if and only if start and lifetime are steady. */
  lemma PollsBoundedIff(start: int, lifetime: int)
    requires 0 < start < TWO_TO_63 && 0 <= lifetime < TWO_TO_63
    ensures (forall times, begin, script | Polled(times, start, begin, script) && InTime(times, begin, Some(lifetime)) && times != [] ::
               (|times| - 1) * start <= lifetime) <==> Steady(start, lifetime)
  {
    if Steady(start, lifetime) {
      forall times, begin, script | Polled(times, start, begin, script) && InTime(times, begin, Some(lifetime)) && times != []
        ensures (|times| - 1) * start <= lifetime
      {
        PollsBounded(times, start, begin, lifetime, script);
      }
    } else {
      var n := ManyPolls(start, lifetime);
      var times, script := UnboundedPolls(start, lifetime, n);
      assert (|times| - 1) * start > lifetime;
    }
  }

  /** A run against a server with n answers to give, for an n with (n - 1) * I > E. */
  ghost predicate LongRun(times: seq<int>, outcome: Outcome, start: int, begin: int, lifetime: int, script: seq<Poll>) {
    && Polled(times, start, begin, script) && InTime(times, begin, Some(lifetime))
    && Ends(outcome, times, start, begin, Some(lifetime), script)
    && script != [] && (|script| - 1) * start > lifetime
  }

  /** And the polling ends by itself before it has used up so many answers, in every run, if and only if they are. */
  lemma PollingTerminatesIff(start: int, lifetime: int)
    requires 0 < start < TWO_TO_63 && 0 <= lifetime < TWO_TO_63
    ensures (forall times, outcome, begin, script | LongRun(times, outcome, start, begin, lifetime, script) :: outcome != StillPolling)
       <==> Steady(start, lifetime)
  {
    if Steady(start, lifetime) {
      forall times, outcome, begin, script | LongRun(times, outcome, start, begin, lifetime, script)
        ensures outcome != StillPolling
      {
        PollingTerminates(times, outcome, start, begin, lifetime, script);
      }
    } else {
      var n := ManyPolls(start, lifetime);
      var times, script := UnboundedPolls(start, lifetime, n);
      assert LongRun(times, StillPolling, start, 0, lifetime, script);
    }
  }
}
