// When a task that waits for time is made ready, in every run of the kernel.
module KernelWaking {
  import opened TickTime
  import opened ListRing
  import opened KernelState
  import opened KernelKeeps
  import opened KernelSteps
  import opened KernelProof
  import opened KernelTick
  import opened KernelCalls
  import opened KernelRun
  import opened KernelSafety
  import opened KernelTheorems
  import opened KernelFrames

  // The task is on a delayed list, due at true time w, and nothing has woken it: an interrupt that
  // wakes a task while the scheduler is suspended puts its event item on the pending ready list.
  ghost predicate Waits(s: Kernel, t: Task, w: nat) {
    IsTimed(s, t) && t in s.wake && s.wake[t] == w && s.tcb[t].eventIn != In(PendingReady)
  }

  // The steps that take a waiting task off its delayed list, or decide to, before its time.
  ghost predicate Disturbs(s: Kernel, step: Step, t: Task) {
    match step
    case DoWake(e) => |EventList(s, Event(e)).items| > 0 && EventList(s, Event(e)).items[0] == t
    case DoWakeUnordered(x, _) => x == t
    case DoSuspend(x) => x == t
    case DoDelete(x) => x == t
    case _ => false
  }

  // ----- One step -----

  lemma UntouchedWaits(s: Kernel, s': Kernel, t: Task, w: nat)
    requires Waits(s, t, w) && Untouched(s, s', t)
    ensures Waits(s', t, w) && s'.time == s.time
  {
  }

  lemma WaitsParts(s: Kernel, t: Task, w: nat)
    requires Waits(s, t, w)
    ensures IsTimed(s, t) && t in s.tcb && t in s.wake && s.wake[t] == w
  {
  }

  // A task made ready by a tick, or by the pended ticks worked off when the scheduler resumes.
  ghost predicate WaitsOrWoken(s: Kernel, s': Kernel, t: Task, w: nat) {
    && s'.time >= s.time
    && (if s'.time > s.time && w <= s'.time then IsReady(s', t) else Waits(s', t, w))
  }

  lemma TickWaits(s: Kernel, t: Task, w: nat)
    requires Inv(s) && Waits(s, t, w)
    ensures Partition(s, {}) && WaitsOrWoken(s, TickInterrupt(s), t, w)
    ensures TickInterrupt(s).time <= s.time + 1
  {
    hide Inv, Core, ProcessTick, Partition, EventPartition, TimeOk, SuspensionOk, CountsOk, IsReady;
    InvParts(s);
    var s1 := s.(delivered := s.delivered + 1);
    CoreFrame(s, s1, {}, false);
    CoreParts(s1, {}, false);
    if s.suspended == 0 {
      TickWakesExactly(s1, t);
      if !(w <= s1.time + 1) { SameTcbTimed(s1, ProcessTick(s1), t); }
    }
  }

  lemma {:induction false} DrainPendingOthers(s: Kernel, t: Task)
    requires Core(s, {}, false) && t in s.tcb && s.tcb[t].eventIn != In(PendingReady)
    ensures EventPartition(s) && Untouched(s, DrainPending(s), t)
    decreases |EventList(s, PendingReady).items|
  {
    CoreParts(s, {}, false);
    hide Core, EventPartition, ReadyPending, Untouched, EventList;
    if |EventList(s, PendingReady).items| == 0 {
      DrainNothing(s, t);
    } else {
      var x := EventList(s, PendingReady).items[0];
      assert x in EventList(s, PendingReady).items;
      PendingNotTerminated(s, PendingReady, x);
      ReadyPendingFacts(s, x);
      ReadyPendingKeeps(s, x, false);
      ReadyPendingOthers(s, x, t);
      UntouchedParts(s, ReadyPending(s, x), t);
      DrainPendingOthers(ReadyPending(s, x), t);
      UntouchedTrans(s, ReadyPending(s, x), DrainPending(s), t);
    }
  }

  lemma DrainNothing(s: Kernel, t: Task)
    requires EventPartition(s) && |EventList(s, PendingReady).items| == 0 && t in s.tcb
    ensures Untouched(s, DrainPending(s), t)
  {
  }

  lemma UntouchedParts(s: Kernel, s': Kernel, t: Task)
    requires Untouched(s, s', t)
    ensures t in s.tcb && t in s'.tcb && s'.tcb[t].eventIn == s.tcb[t].eventIn
  {
  }

  lemma TicksWait(s: Kernel, t: Task, w: nat, n: nat)
    requires Core(s, {}, false) && Waits(s, t, w)
    ensures WaitsOrWoken(s, Ticks(s, n).(pended := 0), t, w) && Ticks(s, n).time == s.time + n
  {
    hide Core, Ticks, IsReady;
    WakesOnTime(s, t, n);
    if n > 0 && w <= s.time + n { ReadyAnyway(Ticks(s, n), t); }
  }

  lemma ReadyAnyway(s: Kernel, t: Task)
    requires IsReady(s, t)
    ensures IsReady(s.(pended := 0), t)
  {
  }

  lemma FinishResumeWaits(s: Kernel, t: Task, w: nat)
    requires Core(s, {}, false) && Waits(s, t, w)
    ensures WaitsOrWoken(s, FinishResume(s), t, w)
  {
    WaitsParts(s, t, w);
    DrainPendingOthers(s, t);
    hide Core, EventPartition, DrainPending, Ticks, ResetNextUnblock, Untouched, WaitsOrWoken, Waits, IsTimed;
    DrainPendingKeeps(s);
    var s1 := DrainPending(s);
    UntouchedWaits(s, s1, t, w);
    WaitsParts(s1, t, w);
    ResetNextUnblockKeeps(s1, {}, false);
    ResetSame(s1, t);
    UntouchedWaits(s1, ResetNextUnblock(s1), t, w);
    var s2 := if |EventList(s, PendingReady).items| == 0 then s1 else ResetNextUnblock(s1);
    TicksWait(s2, t, w, s.pended);
    WaitsFrom(s, s2, FinishResume(s), t, w);
  }

  lemma WaitsFrom(s: Kernel, s1: Kernel, s2: Kernel, t: Task, w: nat)
    requires s1.time == s.time && WaitsOrWoken(s1, s2, t, w)
    ensures WaitsOrWoken(s, s2, t, w)
  {
  }

  lemma ResumeAllWaits(s: Kernel, t: Task, w: nat)
    requires Inv(s) && s.suspended > 0 && Waits(s, t, w)
    ensures Core(s, {}, false) && WaitsOrWoken(s, ResumeAll(s), t, w)
  {
    hide Inv, Core, FinishResume;
    InvParts(s);
    var s1 := s.(suspended := s.suspended - 1);
    CoreFrame(s, s1, {}, false);
    FinishResumeWaits(s1, t, w);
  }

  lemma UndisturbedStays(s: Kernel, step: Step, t: Task, w: nat)
    requires Inv(s) && Enabled(s, step) && Waits(s, t, w) && !Disturbs(s, step, t)
    ensures !Moves(s, step, t)
  {
    hide Inv, EventList;
  }

  lemma TickStep(s: Kernel, step: Step)
    requires Inv(s) && Enabled(s, step)
    ensures Partition(s, {}) && (step.DoTick? ==> Apply(s, step) == TickInterrupt(s))
    ensures Core(s, {}, false) && (step.DoResumeAll? ==> s.suspended > 0 && Apply(s, step) == ResumeAll(s))
  {
    hide Inv, Core, Partition, TickInterrupt, ResumeAll;
    InvParts(s);
  }

  // An undisturbed task stays where it is until the clock reaches its time, and is ready then.
  lemma StepWaits(s: Kernel, step: Step, t: Task, w: nat)
    requires Inv(s) && Enabled(s, step) && Waits(s, t, w) && !Disturbs(s, step, t)
    ensures WaitsOrWoken(s, Apply(s, step), t, w)
  {
    hide Inv, Core, Partition, Enabled, Apply, WaitsOrWoken, Disturbs, TickInterrupt, ResumeAll, Waits, IsTimed,
      Moves, Untouched;
    WaitsParts(s, t, w);
    TickStep(s, step);
    if step.DoTick? {
      TickWaits(s, t, w);
    } else if step.DoResumeAll? {
      ResumeAllWaits(s, t, w);
    } else {
      UndisturbedStays(s, step, t, w);
      StepKeepsOthers(s, step, t);
      UntouchedWaits(s, Apply(s, step), t, w);
      StillWaits(s, Apply(s, step), t, w);
    }
  }

  lemma StillWaits(s: Kernel, s': Kernel, t: Task, w: nat)
    requires Waits(s', t, w) && s'.time == s.time
    ensures WaitsOrWoken(s, s', t, w)
  {
  }

  // ----- Every run -----

  lemma RunStep(run: seq<Kernel>, steps: seq<Step>, i: nat)
    requires IsRun(run, steps) && i < |steps| && Inv(run[i])
    ensures Enabled(run[i], steps[i]) && run[i + 1] == Apply(run[i], steps[i])
  {
    hide Inv, Enabled, Apply;
  }

  // No call wakes, suspends or deletes t before true time w.
  ghost predicate Undisturbed(run: seq<Kernel>, steps: seq<Step>, t: Task, w: nat, i: nat, n: nat)
    requires |run| == |steps| + 1 && n < |run|
  {
    forall j :: i <= j < n && run[j].time < w ==> !Disturbs(run[j], steps[j], t)
  }

  // Up to state m the task waits and the clock has not reached w; the step into state m, a tick or the
  // resumption of the scheduler that works off pended ticks, reaches it and makes the task ready.
  ghost predicate WokenAt(run: seq<Kernel>, steps: seq<Step>, t: Task, w: nat, i: nat, m: nat)
    requires |run| == |steps| + 1 && m < |run|
  {
    && i < m && (forall j :: i <= j < m ==> run[j].time < w && Waits(run[j], t, w))
    && MovesClock(steps[m - 1]) && w <= run[m].time && (steps[m - 1].DoTick? ==> run[m].time == w)
    && IsReady(run[m], t)
  }

  ghost predicate WaitsUntil(run: seq<Kernel>, steps: seq<Step>, t: Task, w: nat, i: nat, n: nat)
    requires |run| == |steps| + 1 && n < |run|
  {
    && (run[n].time < w ==> forall j :: i <= j <= n ==> run[j].time < w && Waits(run[j], t, w))
    && (run[n].time >= w ==> exists m: nat :: m <= n && WokenAt(run, steps, t, w, i, m))
  }

  // In every run a task that waits for true time w, and that nothing else wakes, suspends or deletes,
  // waits exactly as long as the clock is short of w and is made ready by the step that reaches it.
  lemma {:induction false} WakesInEveryRun(run: seq<Kernel>, steps: seq<Step>, t: Task, w: nat, i: nat, n: nat)
    requires IsRun(run, steps) && i <= n < |run| && Inv(run[0])
    requires Waits(run[i], t, w) && run[i].time < w && Undisturbed(run, steps, t, w, i, n)
    ensures WaitsUntil(run, steps, t, w, i, n)
  {
    hide Inv, Apply, Enabled, Waits, Disturbs, IsReady, MovesClock;
    if i < n {
      WakesInEveryRun(run, steps, t, w, i, n - 1);
      RunKeeps(run, steps, n - 1);
      RunStep(run, steps, n - 1);
      ApplyKeeps(run[n - 1], steps[n - 1]);
      if run[n - 1].time < w {
        StepWaits(run[n - 1], steps[n - 1], t, w);
        if run[n].time >= w { assert WokenAt(run, steps, t, w, i, n); }
      }
    }
  }

  // ----- vTaskDelay -----

  lemma DelayedWaits(s: Kernel, ticks: Tick)
    requires s.current in s.tcb && s.tcb[s.current].stateIn.In? && s.tcb[s.current].eventIn.NotInList?
    ensures Waits(AddToDelayed(s, ticks, false), s.current, s.time + ticks)
    ensures AddToDelayed(s, ticks, false).time == s.time
  {
    hide StateList, InsertAt, InsertPos, StateValues, Remove, TickAdd;
  }

  lemma RunningWaitsForNothing(s: Kernel)
    requires Inv(s) && Running(s)
    ensures s.current in s.tcb && s.tcb[s.current].stateIn.In? && s.tcb[s.current].eventIn.NotInList?
  {
  }

  lemma DelayStep(s: Kernel, step: Step)
    requires Inv(s) && Enabled(s, step) && step.DoDelay?
    ensures Running(s) && step.ticks > 0 && Apply(s, step) == AddToDelayed(s, step.ticks, false)
  {
    hide Inv, Running, AddToDelayed;
  }

  // In every run vTaskDelay( ticks ) keeps its task off the ready list exactly until the clock has
  // advanced by that many ticks, wherever the counter stands and however often it wraps.
  lemma DelayLastsExactly(run: seq<Kernel>, steps: seq<Step>, k: nat, n: nat)
    requires IsRun(run, steps) && k < n < |run| && Inv(run[0]) && steps[k].DoDelay?
    requires Undisturbed(run, steps, run[k].current, run[k].time + steps[k].ticks, k + 1, n)
    ensures WaitsUntil(run, steps, run[k].current, run[k].time + steps[k].ticks, k + 1, n)
  {
    hide WaitsUntil, Inv, Apply, Enabled, Waits, Disturbs, AddToDelayed, Running, Undisturbed;
    RunKeeps(run, steps, k);
    RunStep(run, steps, k);
    DelayStep(run[k], steps[k]);
    RunningWaitsForNothing(run[k]);
    DelayedWaits(run[k], steps[k].ticks);
    WakesInEveryRun(run, steps, run[k].current, run[k].time + steps[k].ticks, k + 1, n);
  }
}
