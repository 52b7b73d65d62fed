// Time-outs and periodic delays on the wrapping counter.
module Deadlines {
  import opened TickTime
  import opened KernelState
  import opened KernelProof
  import opened KernelCalls
  import opened KernelTheorems
  import opened KernelWaking

  // ----- xTaskCheckForTimeOut -----

  // xNumOfOverflows is itself a 32-bit counter.
  function OverflowCount(time: nat): Tick { Epoch(time) % TICK_RANGE }

  datatype Check = Check(expired: bool, overflows: Tick, entered: Tick, ticksToWait: Tick)

  function CheckForTimeOut(overflows: Tick, entered: Tick, ticksToWait: Tick, nowOverflows: Tick, now: Tick): Check {
    var elapsed := TickSub(now, entered);
    if ticksToWait == PORT_MAX_DELAY then Check(false, overflows, entered, ticksToWait)
    else if nowOverflows != overflows && now >= entered then Check(true, overflows, entered, ticksToWait)
    else if elapsed < ticksToWait then Check(false, nowOverflows, now, ticksToWait - elapsed)
    else Check(true, overflows, entered, 0)
  }

  class TimeOut {
    var overflowCount: Tick
    var timeOnEntering: Tick

    predicate RecordedAt(time: nat)
      reads this
    {
      overflowCount == OverflowCount(time) && timeOnEntering == Wrap(time)
    }

    // vTaskInternalSetTimeOutState
    method SetState(nowOverflows: Tick, now: Tick)
      modifies this
      ensures overflowCount == nowOverflows && timeOnEntering == now
    {
      overflowCount := nowOverflows;
      timeOnEntering := now;
    }

    // xTaskCheckForTimeOut, asked at true time at about a wait that was last counted from true time
    // entry: with no wrap missed in between it expires exactly when the deadline entry + ticksToWait
    // has come, and otherwise counts from here with the same deadline.
    method CheckFor(nowOverflows: Tick, now: Tick, ticksToWait: Tick, ghost entry: nat, ghost at: nat)
      returns (expired: bool, left: Tick)
      requires RecordedAt(entry) && nowOverflows == OverflowCount(at) && now == Wrap(at) && entry <= at
      modifies this
      ensures Check(expired, overflowCount, timeOnEntering, left) == CheckAt(entry, ticksToWait, at)
      ensures ticksToWait == PORT_MAX_DELAY ==> !expired && left == ticksToWait && RecordedAt(entry)
      ensures !expired ==> left > 0
      ensures ticksToWait != PORT_MAX_DELAY && Epoch(at) <= Epoch(entry) + 1 ==>
        (expired <==> at >= entry + ticksToWait) && (!expired ==> RecordedAt(at) && at + left == entry + ticksToWait)
    {
      hide TickSub, OverflowCount, Wrap, Epoch;
      if ticksToWait != PORT_MAX_DELAY && Epoch(at) <= Epoch(entry) + 1 { DeadlineKept(entry, ticksToWait, at); }
      left := ticksToWait;
      var elapsed := TickSub(now, timeOnEntering);
      if ticksToWait == PORT_MAX_DELAY {
        expired := false;
      } else if nowOverflows != overflowCount && now >= timeOnEntering {
        expired := true;
      } else if elapsed < ticksToWait {
        left := ticksToWait - elapsed;
        SetState(nowOverflows, now);
        expired := false;
      } else {
        left := 0;
        expired := true;
      }
    }
  }

  // The check made at true time now, for a wait of ticksToWait that began at true time entry.
  function CheckAt(entry: nat, ticksToWait: Tick, now: nat): Check {
    CheckForTimeOut(OverflowCount(entry), Wrap(entry), ticksToWait, OverflowCount(now), Wrap(now))
  }

  // The answer is the true one unless a whole counter period has passed unnoticed.
  lemma TimeOutExactly(entry: nat, ticksToWait: Tick, now: nat)
    requires entry <= now && ticksToWait != PORT_MAX_DELAY
    ensures (CheckAt(entry, ticksToWait, now).expired <==> now >= entry + ticksToWait)
       <==> (|| now - entry < TICK_RANGE
             || (OverflowCount(now) != OverflowCount(entry) && Wrap(now) >= Wrap(entry))
             || (now - entry) % TICK_RANGE >= ticksToWait)
  {
    ElapsedWraps(entry, now);
    if now - entry < TICK_RANGE { OneWrapAtMost(entry, now); }
  }

  lemma ElapsedWraps(entry: nat, now: nat)
    requires entry <= now
    ensures TickSub(Wrap(now), Wrap(entry)) == (now - entry) % TICK_RANGE
  {
  }

  lemma OneWrapAtMost(entry: nat, now: nat)
    requires entry <= now < entry + TICK_RANGE
    ensures Epoch(now) == Epoch(entry) || (Epoch(now) == Epoch(entry) + 1 && Wrap(now) < Wrap(entry))
  {
  }

  // A wait for nine ticks begun just before one wrap, first checked just after the next.
  lemma TimeOutMissed()
    ensures var entry, now := TICK_RANGE - 1, 2 * TICK_RANGE + 4;
      now >= entry + 9 && !CheckAt(entry, 9, now).expired
  {
    assert TickSub(Wrap(2 * TICK_RANGE + 4), Wrap(TICK_RANGE - 1)) == 5;
  }

  // A check that does not expire leaves the true deadline where it was.
  lemma DeadlineKept(entry: nat, ticksToWait: Tick, now: nat)
    requires entry <= now && Epoch(now) <= Epoch(entry) + 1 && ticksToWait != PORT_MAX_DELAY
    ensures CheckAt(entry, ticksToWait, now).expired <==> now >= entry + ticksToWait
    ensures now < entry + ticksToWait ==>
      CheckAt(entry, ticksToWait, now) == Check(false, OverflowCount(now), Wrap(now), entry + ticksToWait - now)
  {
    ElapsedWraps(entry, now);
  }

  // The checks of a blocking call, made at the given true times, up to the first that expires.
  function ChecksUntilExpired(overflows: Tick, entered: Tick, ticksToWait: Tick, times: seq<nat>): nat
    decreases |times|
  {
    if times == [] then 0
    else
      var c := CheckForTimeOut(overflows, entered, ticksToWait, OverflowCount(times[0]), Wrap(times[0]));
      if c.expired then 0 else 1 + ChecksUntilExpired(c.overflows, c.entered, c.ticksToWait, times[1..])
  }

  function Before(entry: nat, times: seq<nat>, i: nat): nat
    requires i < |times|
  {
    if i == 0 then entry else times[i - 1]
  }

  ghost predicate OneWrapBetween(entry: nat, times: seq<nat>) {
    forall i :: 0 <= i < |times| ==>
      Before(entry, times, i) <= times[i] && Epoch(times[i]) <= Epoch(Before(entry, times, i)) + 1
  }

  // However often a call is woken and checks again, it expires at the first check made at or
  // after entry + ticksToWait and at no earlier one.
  lemma {:induction false} OneDeadline(entry: nat, ticksToWait: Tick, times: seq<nat>, k: nat)
    requires ticksToWait != PORT_MAX_DELAY && OneWrapBetween(entry, times)
    requires k == ChecksUntilExpired(OverflowCount(entry), Wrap(entry), ticksToWait, times)
    ensures k <= |times|
    ensures forall i :: 0 <= i < k ==> times[i] < entry + ticksToWait
    ensures k < |times| ==> times[k] >= entry + ticksToWait
    decreases |times|
  {
    if times != [] {
      var t := times[0];
      FirstCheck(entry, times);
      DeadlineKept(entry, ticksToWait, t);
      hide CheckAt, OverflowCount, Wrap, Epoch, OneWrapBetween;
      if t < entry + ticksToWait {
        LaterChecks(entry, times);
        CheckedOnce(entry, ticksToWait, times);
        OneDeadline(t, entry + ticksToWait - t, times[1..], k - 1);
      }
    }
  }

  lemma FirstCheck(entry: nat, times: seq<nat>)
    requires OneWrapBetween(entry, times) && times != []
    ensures entry <= times[0] && Epoch(times[0]) <= Epoch(entry) + 1
  {
    assert Before(entry, times, 0) == entry;
  }

  lemma LaterChecks(entry: nat, times: seq<nat>)
    requires OneWrapBetween(entry, times) && times != []
    ensures OneWrapBetween(times[0], times[1..])
  {
    var rest := times[1..];
    assert forall i :: 0 <= i < |rest| ==> Before(times[0], rest, i) == Before(entry, times, i + 1);
  }

  lemma CheckedOnce(entry: nat, ticksToWait: Tick, times: seq<nat>)
    requires times != [] && entry <= times[0] < entry + ticksToWait && ticksToWait != PORT_MAX_DELAY
    requires Epoch(times[0]) <= Epoch(entry) + 1
    ensures ChecksUntilExpired(OverflowCount(entry), Wrap(entry), ticksToWait, times)
         == 1 + ChecksUntilExpired(OverflowCount(times[0]), Wrap(times[0]), entry + ticksToWait - times[0], times[1..])
  {
    DeadlineKept(entry, ticksToWait, times[0]);
  }

  // portMAX_DELAY never expires.
  lemma {:induction false} ForeverNeverExpires(overflows: Tick, entered: Tick, times: seq<nat>)
    ensures ChecksUntilExpired(overflows, entered, PORT_MAX_DELAY, times) == |times|
    decreases |times|
  {
    if times != [] { ForeverNeverExpires(overflows, entered, times[1..]); }
  }

  // ----- vTaskDelayUntil -----

  // The branches that decide whether to delay.
  predicate ShouldDelay(previous: Tick, now: Tick, increment: Tick) {
    var wake := TickAdd(previous, increment);
    if now < previous then wake < previous && wake > now
    else wake < previous || wake > now
  }

  // It delays exactly when the true wake time is still ahead, and for exactly what is left.
  lemma DelayUntilExactly(previous: nat, now: nat, increment: Tick)
    requires previous <= now < previous + TICK_RANGE && increment > 0
    ensures ShouldDelay(Wrap(previous), Wrap(now), increment) <==> now < previous + increment
    ensures now < previous + increment ==>
      TickSub(TickAdd(Wrap(previous), increment), Wrap(now)) == previous + increment - now
  {
    OneWrapAtMost(previous, now);
    WakeEpoch(previous, increment);
    if now < previous + increment { ElapsedWraps(now, previous + increment); }
  }

  // vTaskDelayUntil up to its call of prvAddCurrentTaskToDelayedList: previous and now are what the
  // variable and the counter show at true times p and n.
  method DelayUntil(previous: Tick, now: Tick, increment: Tick, ghost p: nat, ghost n: nat)
    returns (timeToWake: Tick, shouldDelay: bool, ticks: Tick)
    requires previous == Wrap(p) && now == Wrap(n) && p <= n < p + TICK_RANGE && increment > 0
    ensures timeToWake == Wrap(p + increment)
    ensures shouldDelay <==> n < p + increment
    ensures shouldDelay ==> n + ticks == p + increment
  {
    DelayUntilExactly(p, n, increment);
    WakeEpoch(p, increment);
    hide Wrap, Epoch, TickAdd, TickSub;
    timeToWake := TickAdd(previous, increment);
    shouldDelay := false;
    if now < previous {
      if timeToWake < previous && timeToWake > now { shouldDelay := true; }
    } else {
      if timeToWake < previous || timeToWake > now { shouldDelay := true; }
    }
    ticks := TickSub(timeToWake, now);
  }

  // *pxPreviousWakeTime after j calls: the j-th target, whether or not any call was late.
  function WakeVariable(start: Tick, increment: Tick, j: nat): Tick {
    if j == 0 then start else TickAdd(WakeVariable(start, increment, j - 1), increment)
  }

  lemma {:induction false} TargetsDoNotDrift(start: nat, increment: Tick, j: nat)
    ensures WakeVariable(Wrap(start), increment, j) == Wrap(start + j * increment)
  {
    hide Wrap, TickAdd;
    assert Wrap(start + 0 * increment) == Wrap(start);
    if j > 0 {
      TargetsDoNotDrift(start, increment, j - 1);
      assert j * increment == (j - 1) * increment + increment;
      WakeEpoch(start + (j - 1) * increment, increment);
    }
  }

  // In every run the call that has target previous + increment, when it delays at all, keeps its task
  // off the ready list exactly until the clock reaches that target.
  lemma PeriodicWake(run: seq<Kernel>, steps: seq<Step>, k: nat, previous: nat, increment: Tick, n: nat)
    requires IsRun(run, steps) && k < n < |run| && Inv(run[0])
    requires previous <= run[k].time < previous + TICK_RANGE && increment > 0
    requires ShouldDelay(Wrap(previous), run[k].tick, increment)
    requires steps[k] == DoDelay(TickSub(TickAdd(Wrap(previous), increment), run[k].tick))
    requires Undisturbed(run, steps, run[k].current, previous + increment, k + 1, n)
    ensures WaitsUntil(run, steps, run[k].current, previous + increment, k + 1, n)
  {
    hide IsRun, Inv, WaitsUntil, Undisturbed;
    RunKeeps(run, steps, k);
    CounterShowsTime(run[k]);
    DelayUntilExactly(previous, run[k].time, increment);
    DelayLastsExactly(run, steps, k, n);
  }

  lemma CounterShowsTime(s: Kernel)
    requires Inv(s)
    ensures s.tick == Wrap(s.time)
  {
  }
}
