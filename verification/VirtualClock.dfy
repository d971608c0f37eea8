/** The virtual-clock timers: intervals and timeouts driven by a hook's nanosecond clock. */
module VirtualClock {

  import opened Options
  import opened Words

  /** `duration_to_nanos_saturating`: a u128 of nanoseconds cut to u64. */
  function NanosSaturating(nanos: nat): nat {
    if nanos <= U64_MAX then nanos else U64_MAX
  }

  // ---------- intervals ----------

  datatype IntervalState = Unstarted(period: nat) | Ticking(period: nat, next: nat)

  /** One `poll_tick` at time `now`: the new state, and whether a tick fired. */
  function PollTick(s: IntervalState, now: nat): (IntervalState, bool) {
    var started := if s.Unstarted? then Ticking(NanosSaturating(s.period), now) else s;
    if now >= started.next then (started.(next := SaturatingAdd(started.next, started.period)), true)
    else (started, false)
  }

  class Interval {
    var state: IntervalState

    constructor (period: nat)
      requires period > 0
      ensures state == Unstarted(period)
    {
      state := Unstarted(period);
    }

    method Poll(now: nat) returns (ready: bool)
      modifies this
      ensures (state, ready) == PollTick(old(state), now)
    {
      if state.Unstarted? {
        state := Ticking(NanosSaturating(state.period), now);
      }
      if now >= state.next {
        state := state.(next := SaturatingAdd(state.next, state.period));
        return true;
      }
      return false;
    }

    /** Polls at each of `times` and counts the ticks. */
    method PollAll(times: seq<nat>) returns (ticks: nat)
      requires state.Unstarted?
      modifies this
      ensures state == AfterPolls(old(state.period), times) && ticks == Ticks(old(state.period), times)
    {
      ticks := 0;
      ghost var period := state.period;
      for i := 0 to |times|
        invariant state == AfterPolls(period, times[..i]) && ticks == Ticks(period, times[..i])
      {
        assert times[..i + 1][..i] == times[..i];
        var ready := Poll(times[i]);
        ticks := ticks + if ready then 1 else 0;
      }
      assert times[..|times|] == times;
    }
  }

  /** The interval after polls at `times`. */
  function AfterPolls(period: nat, times: seq<nat>): IntervalState {
    if times == [] then Unstarted(period)
    else PollTick(AfterPolls(period, times[..|times| - 1]), times[|times| - 1]).0
  }

  /** Whether the last of the polls fired. */
  predicate LastFired(period: nat, times: seq<nat>)
    requires times != []
  {
    PollTick(AfterPolls(period, times[..|times| - 1]), times[|times| - 1]).1
  }

  /** How many of the polls fired. */
  function Ticks(period: nat, times: seq<nat>): nat {
    if times == [] then 0
    else Ticks(period, times[..|times| - 1]) + if LastFired(period, times) then 1 else 0
  }

  predicate Monotone(times: seq<nat>) {
    forall i, j :: 0 <= i <= j < |times| ==> times[i] <= times[j]
  }

  lemma MulSucc(k: nat, period: nat)
    ensures (k + 1) * period == k * period + period
  {
  }

  lemma MulMonotone(a: nat, b: nat, period: nat)
    ensures a <= b ==> a * period <= b * period
  {
    if a <= b {
      assert b * period == a * period + (b - a) * period;
    }
  }

  /** After k ticks the deadline is the start plus k periods, cut at the top of u64. */
  lemma {:induction false} DeadlineAfterTicks(period: nat, times: seq<nat>)
    requires times != []
    ensures var k, p := Ticks(period, times), NanosSaturating(period);
            k >= 1 && AfterPolls(period, times) == Ticking(p, NanosSaturating(times[0] + k * p))
    decreases |times|
  {
    var n := |times| - 1;
    var before, p := times[..n], NanosSaturating(period);
    if n == 0 {
      assert before == [];
      assert AfterPolls(period, before) == Unstarted(period) && Ticks(period, before) == 0;
      assert LastFired(period, times) && Ticks(period, times) == 1;
    } else {
      DeadlineAfterTicks(period, before);
      MulSucc(Ticks(period, before), p);
    }
  }

  /** On a clock that does not run backwards and is below its top, the last tick was due by the
      latest poll. */
  lemma {:induction false} LastTickWasDue(period: nat, times: seq<nat>)
    requires times != [] && Monotone(times) && times[|times| - 1] < U64_MAX
    ensures var k, p := Ticks(period, times), NanosSaturating(period);
            k >= 1 && times[0] + (k - 1) * p <= times[|times| - 1]
    decreases |times|
  {
    var n := |times| - 1;
    var before := times[..n];
    DeadlineAfterTicks(period, times);
    if n == 0 {
      assert before == [];
      assert AfterPolls(period, before) == Unstarted(period) && Ticks(period, before) == 0;
    } else {
      assert before[0] == times[0] && before[n - 1] == times[n - 1];
      DeadlineAfterTicks(period, before);
      LastTickWasDue(period, before);
    }
  }

  lemma QuotientAtLeast(x: nat, period: nat, k: nat)
    requires period > 0 && k * period <= x
    ensures k <= x / period
  {
    var q := x / period;
    assert x < q * period + period;
    MulSucc(q, period);
    MulMonotone(q + 1, k, period);
  }

  lemma QuotientBelow(x: nat, period: nat, k: nat)
    requires period > 0 && x < k * period
    ensures x / period < k
  {
    var q := x / period;
    assert q * period <= x;
    MulMonotone(k, q, period);
  }

  /** Polling to exhaustion: once a poll at `now` finds no tick due, exactly
      (now - start) / period + 1 ticks have fired; before that, never more. */
  lemma ExhaustedIntervalHasTicked(period: nat, times: seq<nat>)
    requires 0 < period && times != [] && Monotone(times)
    requires times[|times| - 1] < U64_MAX
    ensures var elapsed, p := times[|times| - 1] - times[0], NanosSaturating(period);
            && Ticks(period, times) <= elapsed / p + 1
            && (!LastFired(period, times) ==> Ticks(period, times) == elapsed / p + 1)
  {
    var n, p := |times| - 1, NanosSaturating(period);
    var k, elapsed := Ticks(period, times), times[n] - times[0];
    LastTickWasDue(period, times);
    QuotientAtLeast(elapsed, p, k - 1);
    assert n == 0 ==> times[..n] == [];
    if !LastFired(period, times) {
      assert times[..n][0] == times[0];
      DeadlineAfterTicks(period, times[..n]);
      QuotientBelow(elapsed, p, k);
    }
  }

  /** At the very top of the clock a cut-off deadline is always due, so there the burst has no end, */
  lemma TopOfClockAlwaysTicks(period: nat)
    ensures PollTick(Ticking(period, U64_MAX), U64_MAX) == (Ticking(period, U64_MAX), true)
  {
  }

  ghost predicate TicksWithin(period: nat, times: seq<nat>)
    requires period > 0 && times != [] && Monotone(times)
  {
    Ticks(period, times) <= (times[|times| - 1] - times[0]) / NanosSaturating(period) + 1
  }

  /** and two polls there are one tick too many. */
  lemma TwoPollsAtTop(period: nat)
    requires period > 0
    ensures Ticks(period, [U64_MAX, U64_MAX]) == 2 && !TicksWithin(period, [U64_MAX, U64_MAX])
  {
    var two, one, p := [U64_MAX, U64_MAX], [U64_MAX], NanosSaturating(period);
    assert two[..1] == one && one[..0] == [];
    assert AfterPolls(period, one) == Ticking(p, U64_MAX) && Ticks(period, one) == 1;
    TopOfClockAlwaysTicks(p);
    assert 0 / p == 0;
  }

  /** So the bound on the number of ticks holds of every way of polling up to `now` iff `now`
      is below the top of the clock. */
  lemma TickBoundIffBelowTop(period: nat, now: nat)
    requires period > 0 && now <= U64_MAX
    ensures (forall times: seq<nat> :: times != [] && Monotone(times) && times[|times| - 1] == now ==>
                TicksWithin(period, times)) <==>
            now < U64_MAX
  {
    if now < U64_MAX {
      forall times: seq<nat> | times != [] && Monotone(times) && times[|times| - 1] == now
        ensures TicksWithin(period, times)
      {
        ExhaustedIntervalHasTicked(period, times);
      }
    } else {
      TwoPollsAtTop(period);
    }
  }

  // ---------- timeouts ----------

  datatype Delay = Idle(duration: nat) | Sleeping(deadline: nat)

  datatype Verdict = Unresolved | Ok | Elapsed

  /** One poll of a timeout: the clock, and whether the wrapped future is ready. */
  datatype TimeoutPoll = TimeoutPoll(now: nat, futureReady: bool)

  /** The future is polled first; the delay starts at the first poll that finds it pending. */
  function PollTimeout(d: Delay, p: TimeoutPoll): (Delay, Verdict) {
    if p.futureReady then (d, Ok)
    else
      var started := if d.Idle? then Sleeping(SaturatingAdd(p.now, NanosSaturating(d.duration))) else d;
      (started, if p.now >= started.deadline then Elapsed else Unresolved)
  }

  class Timeout {
    var delay: Delay

    constructor (duration: nat)
      ensures delay == Idle(duration)
    {
      delay := Idle(duration);
    }

    method Poll(p: TimeoutPoll) returns (verdict: Verdict)
      modifies this
      ensures (delay, verdict) == PollTimeout(old(delay), p)
    {
      if p.futureReady {
        return Ok;
      }
      if delay.Idle? {
        delay := Sleeping(SaturatingAdd(p.now, NanosSaturating(delay.duration)));
      }
      return if p.now >= delay.deadline then Elapsed else Unresolved;
    }
  }

  /** The first poll that resolves, and how. */
  function Resolution(d: Delay, polls: seq<TimeoutPoll>): Option<(nat, Verdict)>
    decreases |polls|
  {
    if polls == [] then None
    else
      var (d', verdict) := PollTimeout(d, polls[0]);
      if verdict != Unresolved then Some((0, verdict))
      else
        match Resolution(d', polls[1..])
        case None => None
        case Some(r) => Some((r.0 + 1, r.1))
  }

  predicate Ends(p: TimeoutPoll, deadline: nat) {
    p.futureReady || p.now >= deadline
  }

  predicate FirstEnd(polls: seq<TimeoutPoll>, deadline: nat, i: nat) {
    i < |polls| && Ends(polls[i], deadline) && forall j :: 0 <= j < i ==> !Ends(polls[j], deadline)
  }

  lemma {:induction false} SleepingResolution(deadline: nat, polls: seq<TimeoutPoll>, i: nat, verdict: Verdict)
    ensures Resolution(Sleeping(deadline), polls) == Some((i, verdict)) <==>
            FirstEnd(polls, deadline, i) && verdict == if polls[i].futureReady then Ok else Elapsed
    decreases |polls|
  {
    if polls != [] && !Ends(polls[0], deadline) {
      if i > 0 {
        SleepingResolution(deadline, polls[1..], i - 1, verdict);
        if FirstEnd(polls[1..], deadline, i - 1) {
          forall j | 0 <= j < i
            ensures !Ends(polls[j], deadline)
          {
            assert j > 0 ==> polls[j] == polls[1..][j - 1];
          }
        }
        if FirstEnd(polls, deadline, i) {
          assert forall j :: 0 <= j < i - 1 ==> polls[1..][j] == polls[j + 1];
        }
      }
    }
  }

  /** A timeout resolves at the first poll where its future is ready or the clock is at or
      past the deadline fixed at its first poll; it is Ok iff the future is ready there. */
  lemma TimeoutResolution(duration: nat, polls: seq<TimeoutPoll>, i: nat, verdict: Verdict)
    requires polls != []
    ensures var deadline := SaturatingAdd(polls[0].now, NanosSaturating(duration));
            Resolution(Idle(duration), polls) == Some((i, verdict)) <==>
            FirstEnd(polls, deadline, i) && verdict == if polls[i].futureReady then Ok else Elapsed
  {
    var deadline := SaturatingAdd(polls[0].now, NanosSaturating(duration));
    if !polls[0].futureReady {
      assert PollTimeout(Idle(duration), polls[0]) == PollTimeout(Sleeping(deadline), polls[0]);
      SleepingResolution(deadline, polls, i, verdict);
    }
  }

}
