// Wake-ups made while the scheduler is suspended: none is lost, in any run of the kernel.
module KernelPending {
  import opened KernelState
  import opened KernelSteps
  import opened KernelTick
  import opened KernelCalls
  import opened KernelRun
  import opened KernelTheorems
  import opened KernelFrames
  import opened KernelWaking
  import opened KernelIdle
  import opened KernelEffects

  // The task has been woken, but waits for the scheduler to be resumed before it can be made ready.
  predicate IsPending(s: Kernel, t: Task) { t in s.tcb && s.tcb[t].eventIn == In(PendingReady) }

  // ----- One step -----

  lemma PendingMeansSuspended(s: Kernel, t: Task)
    requires Inv(s) && IsPending(s, t)
    ensures t in EventList(s, PendingReady).items && s.suspended > 0
    ensures s.tcb[t].stateIn.In? && !s.tcb[t].stateIn.list.Ready? && s.tcb[t].stateIn != In(Termination)
  {
  }

  predicate Withdraws(step: Step, t: Task) { step == DoSuspend(t) || step == DoDelete(t) }

  lemma PendingIsNotMoved(s: Kernel, step: Step, t: Task)
    requires Inv(s) && Enabled(s, step) && IsPending(s, t) && !Withdraws(step, t)
    ensures !Moves(s, step, t)
  {
    PendingMeansSuspended(s, t);
    InvParts(s);
    hide Inv, Core, Partition, EventPartition, SuspensionOk, CountsOk, EventList;
    if step.DoWake? && EventList(s, Event(step.event)).items != [] { HeadWaits(s, Event(step.event)); }
  }

  predicate Resumes(s: Kernel, step: Step) { step.DoResumeAll? && s.suspended == 1 }

  // A pending task stays so until it is suspended or deleted, or the scheduler is resumed: then it is ready.
  lemma PendingStep(s: Kernel, step: Step, t: Task)
    requires Inv(s) && Enabled(s, step) && IsPending(s, t) && !Withdraws(step, t)
    ensures if Resumes(s, step) then IsReady(Apply(s, step), t) else IsPending(Apply(s, step), t)
  {
    hide Inv, Core, Partition, Enabled, Apply, IsReady, TickInterrupt, ResumeAll, Moves, Withdraws;
    PendingMeansSuspended(s, t);
    TickStep(s, step);
    if step.DoTick? {
      PendedTick(s);
    } else if step.DoResumeAll? {
      if s.suspended == 1 { ResumeReadiesPending(s, t); } else { NestedResume(s); }
    } else {
      PendingIsNotMoved(s, step, t);
      StepKeepsOthers(s, step, t);
    }
  }

  lemma PendedTick(s: Kernel)
    requires Partition(s, {}) && s.suspended > 0
    ensures TickInterrupt(s).tcb == s.tcb && TickInterrupt(s).suspended == s.suspended
  {
    hide Partition;
  }

  lemma NestedResume(s: Kernel)
    requires Core(s, {}, false) && s.suspended > 1
    ensures ResumeAll(s) == s.(suspended := s.suspended - 1)
  {
    hide Core, FinishResume;
  }

  // ----- Every run -----

  ghost predicate NotWithdrawn(run: seq<Kernel>, steps: seq<Step>, t: Task, i: nat, n: nat)
    requires |run| == |steps| + 1 && n < |run|
  {
    forall j :: i <= j < n && IsPending(run[j], t) ==> !Withdraws(steps[j], t)
  }

  // Up to state m the task is pending; the step into state m resumes the scheduler and makes it ready.
  ghost predicate ReadiedAt(run: seq<Kernel>, steps: seq<Step>, t: Task, i: nat, m: nat)
    requires |run| == |steps| + 1 && m < |run|
  {
    && i < m && (forall j :: i <= j < m ==> IsPending(run[j], t) && (j < m - 1 ==> !Resumes(run[j], steps[j])))
    && Resumes(run[m - 1], steps[m - 1]) && IsReady(run[m], t)
  }

  ghost predicate PendingUntil(run: seq<Kernel>, steps: seq<Step>, t: Task, i: nat, n: nat)
    requires |run| == |steps| + 1 && n < |run|
  {
    || (forall j :: i <= j <= n ==> IsPending(run[j], t) && (j < n ==> !Resumes(run[j], steps[j])))
    || exists m: nat :: m <= n && ReadiedAt(run, steps, t, i, m)
  }

  // In every run a pending task that is neither suspended nor deleted stays pending exactly until the
  // scheduler is resumed for good, and that makes it ready.
  lemma {:induction false} PendingInEveryRun(run: seq<Kernel>, steps: seq<Step>, t: Task, i: nat, n: nat)
    requires IsRun(run, steps) && i <= n < |run| && Inv(run[0])
    requires IsPending(run[i], t) && NotWithdrawn(run, steps, t, i, n)
    ensures PendingUntil(run, steps, t, i, n)
  {
    hide Inv, Apply, Enabled, IsPending, IsReady, Withdraws, Resumes;
    if i < n {
      PendingInEveryRun(run, steps, t, i, n - 1);
      if forall j :: i <= j <= n - 1 ==> IsPending(run[j], t) && (j < n - 1 ==> !Resumes(run[j], steps[j])) {
        RunKeeps(run, steps, n - 1);
        RunStep(run, steps, n - 1);
        PendingStep(run[n - 1], steps[n - 1], t);
        if Resumes(run[n - 1], steps[n - 1]) { assert ReadiedAt(run, steps, t, i, n); }
      } else {
        var m: nat :| m <= n - 1 && ReadiedAt(run, steps, t, i, m);
        assert m <= n && ReadiedAt(run, steps, t, i, m);
      }
    }
  }

  lemma WakeStep(s: Kernel, step: Step)
    requires Inv(s) && Enabled(s, step) && step.DoWake?
    ensures EventPartition(s) && |EventList(s, Event(step.event)).items| > 0
    ensures Apply(s, step) == RemoveFromEventList(s, Event(step.event))
  {
    InvParts(s);
    hide Inv, RemoveFromEventList;
  }

  // In every run, whoever is at the head of an event list when it is woken is ready at once; or, if the
  // scheduler is suspended, pending until it is resumed, and ready then.
  lemma NoWakeUpIsLost(run: seq<Kernel>, steps: seq<Step>, k: nat, n: nat)
    requires IsRun(run, steps) && k < n < |run| && Inv(run[0]) && steps[k].DoWake?
    ensures Inv(run[k]) && EventList(run[k], Event(steps[k].event)).items != []
    ensures var t := EventList(run[k], Event(steps[k].event)).items[0];
      if run[k].suspended == 0 then IsReady(run[k + 1], t)
      else NotWithdrawn(run, steps, t, k + 1, n) ==> PendingUntil(run, steps, t, k + 1, n)
  {
    hide Inv, Apply, Enabled, IsReady, EventList, NotWithdrawn, PendingUntil;
    RunKeeps(run, steps, k);
    RunStep(run, steps, k);
    WakeStep(run[k], steps[k]);
    WakeEffect(run[k], Event(steps[k].event));
    var t := EventList(run[k], Event(steps[k].event)).items[0];
    if run[k].suspended > 0 && NotWithdrawn(run, steps, t, k + 1, n) { PendingInEveryRun(run, steps, t, k + 1, n); }
  }
}
