// An idle task that never blocks keeps the search for a task to run from failing.
module KernelIdle {
  import opened ListRing
  import opened KernelState
  import opened KernelKeeps
  import opened KernelSteps
  import opened KernelTick
  import opened KernelCalls
  import opened KernelRun
  import opened KernelSafety
  import opened KernelTheorems
  import opened KernelFrames
  import opened KernelWaking

  // The calls that block, suspend or delete t.
  predicate Stops(s: Kernel, step: Step, t: Task) {
    match step
    case DoDelay(_) => t == s.current
    case DoPlace(_, _) => t == s.current
    case DoPlaceUnordered(_, _, _) => t == s.current
    case DoSuspend(x) => x == t
    case DoDelete(x) => x == t
    case _ => false
  }

  predicate Reprioritises(step: Step, t: Task) {
    || (step.DoSetPriority? && step.task == t)
    || (step.DoInherit? && step.holder == t)
    || (step.DoLower? && step.holder == t)
  }

  lemma ReadyWaitsForNothing(s: Kernel, t: Task)
    requires Inv(s) && OnReadyList(s, t)
    ensures IsReady(s, t) && !IsTimed(s, t) && s.tcb[t].eventIn.NotInList?
  {
  }

  // A ready task is moved only by a change of its own priority.
  lemma ReadyMoves(s: Kernel, step: Step, t: Task)
    requires Inv(s) && Enabled(s, step) && OnReadyList(s, t) && Moves(s, step, t) && !Stops(s, step, t)
    ensures Reprioritises(step, t)
  {
    hide Inv, Core, Partition, EventPartition, SuspensionOk, CountsOk, EventList;
    ReadyWaitsForNothing(s, t);
    InvParts(s);
    if step.DoWake? { HeadWaits(s, Event(step.event)); }
  }

  lemma HeadWaits(s: Kernel, e: EventId)
    requires EventPartition(s) && |EventList(s, e).items| > 0
    ensures var t := EventList(s, e).items[0]; t in s.tcb && s.tcb[t].eventIn == In(e)
  {
    assert EventList(s, e).items[0] in EventList(s, e).items;
  }

  lemma MoveToReady(s: Kernel, t: Task, priority: nat, base: nat)
    requires t in s.tcb && s.tcb[t].stateIn == In(Ready(s.tcb[t].priority))
    ensures OnReadyList(MoveTo(s, t, priority, base), t)
  {
    hide StateList, Remove, InsertEnd;
  }

  lemma EventValueReady(s: Kernel, t: Task, p: nat)
    requires t in s.tcb && s.tcb[t].stateIn == In(Ready(s.tcb[t].priority))
    ensures var s1 := SetEventValue(s, t, p); t in s1.tcb && s1.tcb[t].stateIn == In(Ready(s1.tcb[t].priority))
  {
  }

  lemma MovedReady(s: Kernel, t: Task, q: nat, priority: nat, base: nat)
    requires t in s.tcb && s.tcb[t].stateIn == In(Ready(s.tcb[t].priority))
    ensures t in SetEventValue(s, t, q).tcb && OnReadyList(MoveTo(SetEventValue(s, t, q), t, priority, base), t)
  {
    hide MoveTo, SetEventValue, OnReadyList;
    EventValueReady(s, t, q);
    MoveToReady(SetEventValue(s, t, q), t, priority, base);
  }

  lemma PriorityKeepsReady(s: Kernel, t: Task, p: nat)
    requires t in s.tcb && s.tcb[t].stateIn == In(Ready(s.tcb[t].priority)) && s.current in s.tcb
    ensures OnReadyList(PrioritySet(s, t, p), t) && OnReadyList(PriorityLower(s, t, p), t)
    ensures OnReadyList(PriorityInherit(s, t), t)
  {
    assert OnReadyList(s, t);
    hide MoveTo, SetEventValue, OnReadyList;
    var b, n := s.tcb[t], Capped(p);
    MovedReady(s, t, n, if b.basePriority == b.priority then n else b.priority, n);
    MovedReady(s, t, p, p, b.basePriority);
    MovedReady(s, t, s.tcb[s.current].priority, s.tcb[s.current].priority, b.basePriority);
  }

  lemma ReprioritisedReady(s: Kernel, step: Step, t: Task)
    requires Inv(s) && Enabled(s, step) && IsReady(s, t) && Reprioritises(step, t)
    ensures OnReadyList(ApplyToTask(s, step), t)
  {
    hide Inv, OnReadyList, PrioritySet, PriorityLower, PriorityInherit;
    InvCurrent(s);
    match step {
      case DoSetPriority(x, p) => PriorityKeepsReady(s, t, p);
      case DoInherit(x) => PriorityKeepsReady(s, t, 0);
      case DoLower(x, p) => PriorityKeepsReady(s, t, p);
    }
  }

  // ----- Ticks and resumption -----

  lemma TickKeepsReady(s: Kernel, t: Task)
    requires Inv(s) && OnReadyList(s, t)
    ensures Partition(s, {}) && OnReadyList(TickInterrupt(s), t)
  {
    hide Inv, Core, ProcessTick, Partition, EventPartition, TimeOk, SuspensionOk, CountsOk, IsReady;
    ReadyWaitsForNothing(s, t);
    InvParts(s);
    var s1 := s.(delivered := s.delivered + 1);
    CoreFrame(s, s1, {}, false);
    CoreParts(s1, {}, false);
    if s.suspended == 0 { TickWakesExactly(s1, t); }
  }

  lemma FinishKeepsReady(s: Kernel, t: Task)
    requires Core(s, {}, false) && IsReady(s, t)
    ensures IsReady(FinishResume(s), t)
  {
    hide Core, EventPartition, DrainPending, Ticks, ResetNextUnblock;
    DrainPendingOthers(s, t);
    DrainPendingKeeps(s);
    var s1 := DrainPending(s);
    ReadyByCore(s1, t);
    ResetNextUnblockKeeps(s1, {}, false);
    ResetSame(s1, t);
    var s2 := if |EventList(s, PendingReady).items| == 0 then s1 else ResetNextUnblock(s1);
    StaysReady(s2, t, s.pended);
  }

  lemma ReadyByCore(s: Kernel, t: Task)
    requires Core(s, {}, false) && OnReadyList(s, t)
    ensures IsReady(s, t)
  {
  }

  lemma ResumeAllKeepsReady(s: Kernel, t: Task)
    requires Inv(s) && s.suspended > 0 && OnReadyList(s, t)
    ensures Core(s, {}, false) && OnReadyList(ResumeAll(s), t)
  {
    hide Inv, Core, FinishResume, OnReadyList, IsReady;
    InvParts(s);
    var s1 := s.(suspended := s.suspended - 1);
    CoreFrame(s, s1, {}, false);
    SameTcbReady(s, s1, t);
    ReadyByCore(s1, t);
    FinishKeepsReady(s1, t);
    if s1.suspended == 0 && s.count > 0 { ReadyIsOnList(FinishResume(s1), t); }
  }

  lemma SameTcbReady(s: Kernel, s': Kernel, t: Task)
    requires OnReadyList(s, t) && s'.tcb == s.tcb
    ensures OnReadyList(s', t)
  {
  }

  lemma ReadyIsOnList(s: Kernel, t: Task)
    requires IsReady(s, t)
    ensures OnReadyList(s, t)
  {
  }

  // A task that is ready stays so unless it blocks, is suspended or is deleted.
  lemma StepKeepsReady(s: Kernel, step: Step, t: Task)
    requires Inv(s) && Enabled(s, step) && OnReadyList(s, t) && !Stops(s, step, t)
    ensures OnReadyList(Apply(s, step), t)
  {
    hide Inv, Core, Partition, Enabled, Apply, ApplyToTask, TickInterrupt, ResumeAll, Moves, Stops;
    TickStep(s, step);
    if step.DoTick? {
      TickKeepsReady(s, t);
    } else if step.DoResumeAll? {
      ResumeAllKeepsReady(s, t);
    } else if Moves(s, step, t) {
      ReadyMoves(s, step, t);
      ReadyWaitsForNothing(s, t);
      ApplyIsToTask(s, step);
      ReprioritisedReady(s, step, t);
    } else {
      StepKeepsOthers(s, step, t);
    }
  }

  // ----- Every run -----

  ghost predicate NeverStopped(run: seq<Kernel>, steps: seq<Step>, t: Task, n: nat)
    requires |run| == |steps| + 1 && n < |run|
  {
    forall j :: 0 <= j < n ==> !Stops(run[j], steps[j], t)
  }

  lemma {:induction false} IdleStaysReady(run: seq<Kernel>, steps: seq<Step>, idle: Task, n: nat)
    requires IsRun(run, steps) && n < |run| && Inv(run[0]) && OnReadyList(run[0], idle)
    requires NeverStopped(run, steps, idle, n)
    ensures OnReadyList(run[n], idle)
  {
    hide Inv, Apply, Enabled, OnReadyList, Stops;
    if n > 0 {
      IdleStaysReady(run, steps, idle, n - 1);
      RunKeeps(run, steps, n - 1);
      RunStep(run, steps, n - 1);
      StepKeepsReady(run[n - 1], steps[n - 1], idle);
    }
  }

  lemma ReadyListed(s: Kernel, t: Task)
    requires Inv(s) && OnReadyList(s, t)
    ensures exists q: nat :: StateList(s, Ready(q)).items != []
  {
    var q := s.tcb[t].stateIn.list.priority;
    assert t in StateList(s, Ready(q)).items;
  }

  // In every run with an idle task that never blocks and is neither suspended nor deleted, the search
  // for the highest priority finds a list that is not empty, and the task chosen from it is ready with
  // no ready task above it.
  lemma SelectsInEveryRun(run: seq<Kernel>, steps: seq<Step>, idle: Task, n: nat)
    requires IsRun(run, steps) && n < |run| && Inv(run[0]) && OnReadyList(run[0], idle)
    requires NeverStopped(run, steps, idle, n) && run[n].suspended == 0
    ensures StateList(run[n], Ready(HighestReady(run[n], run[n].top))).items != []
    ensures SelectedIsHighest(run[n])
  {
    hide IsRun, Inv, OnReadyList, NeverStopped, HighestReady, SelectedIsHighest, StateList;
    RunKeeps(run, steps, n);
    IdleStaysReady(run, steps, idle, n);
    ReadyListed(run[n], idle);
    SelectsHighestPriority(run[n]);
    SearchFinds(run[n]);
  }

  lemma SearchFinds(s: Kernel)
    requires Inv(s) && exists q: nat :: StateList(s, Ready(q)).items != []
    ensures StateList(s, Ready(HighestReady(s, s.top))).items != []
  {
    hide Inv, HighestReady, StateList;
    var q: nat :| StateList(s, Ready(q)).items != [];
    AboveTopEmpty(s, q);
    HighestReadyIs(s, s.top);
  }
}
