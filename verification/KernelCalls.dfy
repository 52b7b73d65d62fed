// The remaining kernel calls of tasks.c as functions, and a run of the kernel as a sequence of calls.
module KernelCalls {
  import opened TickTime
  import opened ListRing
  import opened KernelState
  import opened KernelKeeps
  import opened KernelSteps
  import opened KernelProof
  import opened KernelTick

  lemma DrainPendingKeeps(s: Kernel)
    requires Core(s, {}, false)
    ensures EventPartition(s) && Core(DrainPending(s), {}, false)
    decreases |EventList(s, PendingReady).items|
  {
    hide Core, ReadyPending;
    CoreParts(s, {}, false);
    var r := EventList(s, PendingReady);
    if |r.items| > 0 {
      var t := r.items[0];
      assert t in r.items;
      ReadyPendingFacts(s, t);
      ReadyPendingKeeps(s, t, false);
      DrainPendingKeeps(ReadyPending(s, t));
    }
  }

  // xTaskResumeAll once the suspension count has reached zero.
  function FinishResume(s: Kernel): Kernel
    requires Core(s, {}, false)
  {
    DrainPendingKeeps(s);
    var s1 := DrainPending(s);
    ResetNextUnblockKeeps(s1, {}, false);
    var s2 := if |EventList(s, PendingReady).items| == 0 then s1 else ResetNextUnblock(s1);
    Ticks(s2, s.pended).(pended := 0)
  }

  // xTaskResumeAll
  function ResumeAll(s: Kernel): Kernel
    requires Core(s, {}, false) && s.suspended > 0
  {
    var s1 := s.(suspended := s.suspended - 1);
    CoreFrame(s, s1, {}, false);
    if s1.suspended == 0 && s.count > 0 then FinishResume(s1) else s1
  }

  // prvTaskIsTaskSuspended
  predicate TaskIsSuspended(s: Kernel, t: Task) {
    t in s.tcb && s.tcb[t].stateIn == In(Suspended) && s.tcb[t].eventIn.NotInList?
  }

  function TaskSuspend(s: Kernel, t: Task): Kernel {
    ResetNextUnblock(AppendState(RemoveEvent(RemoveState(s, t), t), Suspended, t))
  }

  function TaskResume(s: Kernel, t: Task): Kernel {
    if t != s.current && TaskIsSuspended(s, t) then AddReady(RemoveState(s, t), t) else s
  }

  function TaskResumeFromIsr(s: Kernel, t: Task): Kernel {
    if !TaskIsSuspended(s, t) then s
    else if s.suspended == 0 then AddReady(RemoveState(s, t), t)
    else AppendEvent(s, PendingReady, t)
  }

  // xTaskCreate: prvInitialiseNewTask and prvAddNewTaskToReadyList, with the scheduler running.
  function TaskCreate(s: Kernel, t: Task, priority: nat): Kernel {
    AddReady(NewTcb(s, t, priority), t)
  }

  function Capped(priority: nat): nat { if priority < MAX_PRIORITIES then priority else MAX_PRIORITIES - 1 }

  function NewTcb(s: Kernel, t: Task, priority: nat): Kernel {
    var p := Capped(priority);
    s.(tcb := s.tcb[t := Tcb(p, p, NotInList, 0, NotInList, MAX_PRIORITIES - p)], count := s.count + 1)
  }

  function TaskDelete(s: Kernel, t: Task): Kernel {
    var s1 := RemoveEvent(RemoveState(s, t), t);
    if t == s.current then AppendState(s1, Termination, t).(waitingCleanUp := s.waitingCleanUp + 1)
    else if s.count > 0 then ResetNextUnblock(DropTcb(s1, t)) else s1
  }

  function DropTcb(s: Kernel, t: Task): Kernel
    requires s.count > 0
  {
    s.(tcb := s.tcb - {t}, count := s.count - 1)
  }

  // One round of prvCheckTasksWaitingTermination.
  function CleanUpOne(s: Kernel): Kernel
    requires s.count > 0 && s.waitingCleanUp > 0 && |StateList(s, Termination).items| > 0
  {
    var t := StateList(s, Termination).items[0];
    DropTcb(RemoveState(s, t), t).(waitingCleanUp := s.waitingCleanUp - 1)
  }

  // A change of priority, with the task moved between ready lists when it is ready.
  function MoveTo(s: Kernel, t: Task, priority: nat, base: nat): Kernel
    requires t in s.tcb
  {
    if s.tcb[t].stateIn == In(Ready(s.tcb[t].priority)) then
      AddReady(Reprioritise(RemoveState(s, t), t, priority, base), t)
    else Reprioritise(s, t, priority, base)
  }

  const EVENT_VALUE_IN_USE := 0x8000_0000

  function Reprioritise(s: Kernel, t: Task, priority: nat, base: nat): Kernel
    requires t in s.tcb
  {
    var b := s.tcb[t];
    s.(tcb := s.tcb[t := b.(priority := priority, basePriority := base)])
  }

  function SetEventValue(s: Kernel, t: Task, p: nat): Kernel
    requires t in s.tcb
  {
    if s.tcb[t].eventValue < EVENT_VALUE_IN_USE && p <= MAX_PRIORITIES then
      s.(tcb := s.tcb[t := s.tcb[t].(eventValue := MAX_PRIORITIES - p)])
    else s
  }

  // vTaskPrioritySet
  function PrioritySet(s: Kernel, t: Task, newPriority: nat): Kernel
    requires t in s.tcb
  {
    var n := Capped(newPriority);
    var b := s.tcb[t];
    if b.basePriority == n then s
    else MoveTo(SetEventValue(s, t, n), t, if b.basePriority == b.priority then n else b.priority, n)
  }

  // xTaskPriorityInherit
  function PriorityInherit(s: Kernel, holder: Task): Kernel
    requires holder in s.tcb && s.current in s.tcb
  {
    var p := s.tcb[s.current].priority;
    if s.tcb[holder].priority < p then MoveTo(SetEventValue(s, holder, p), holder, p, s.tcb[holder].basePriority)
    else s
  }

  // The part of xTaskPriorityDisinherit and vTaskPriorityDisinheritAfterTimeout that lowers a holder.
  function PriorityLower(s: Kernel, holder: Task, p: nat): Kernel
    requires holder in s.tcb
  {
    MoveTo(SetEventValue(s, holder, p), holder, p, s.tcb[holder].basePriority)
  }

  // The loop of taskSELECT_HIGHEST_PRIORITY_TASK.
  function HighestReady(s: Kernel, p: nat): nat {
    if |StateList(s, Ready(p)).items| > 0 || p == 0 then p else HighestReady(s, p - 1)
  }

  // vTaskSwitchContext
  function SwitchContext(s: Kernel): Kernel {
    var p := HighestReady(s, s.top);
    var r := Advance(StateList(s, Ready(p)));
    if s.suspended == 0 && 0 < r.index <= |r.items| then
      s.(lists := s.lists[Ready(p) := r], current := Chosen(r), top := p)
    else s
  }

  // ----- Runs -----

  datatype Step =
    | DoTick | DoSuspendAll | DoResumeAll
    | DoDelay(ticks: Tick) | DoPlace(event: nat, ticks: Tick)
    | DoPlaceUnordered(event: nat, value: Tick, ticks: Tick)
    | DoWake(event: nat) | DoWakeUnordered(task: Task, value: Tick)
    | DoSuspend(task: Task) | DoResume(task: Task) | DoResumeFromIsr(task: Task)
    | DoCreate(task: Task, priority: nat) | DoDelete(task: Task) | DoCleanUp
    | DoSetPriority(task: Task, priority: nat) | DoInherit(holder: Task) | DoLower(holder: Task, priority: nat)
    | DoSwitch

  // The running task is on its ready list and waits for nothing.
  ghost predicate Running(s: Kernel) {
    s.current in s.tcb && s.tcb[s.current].stateIn.In? && s.tcb[s.current].stateIn.list.Ready?
  }

  ghost predicate Live(s: Kernel, t: Task) {
    t in s.tcb && s.tcb[t].stateIn != In(Termination)
  }

  // What the source asks of its callers. vTaskDelay and vTaskDelayUntil block only for more than zero ticks.
  ghost predicate Enabled(s: Kernel, step: Step) {
    match step
    case DoTick => true
    case DoSuspendAll => true
    case DoResumeAll => s.suspended > 0
    case DoDelay(ticks) => s.suspended > 0 && Running(s) && ticks > 0
    case DoPlace(e, ticks) => Running(s) && BlockTimeOk(s, ticks)
    case DoPlaceUnordered(e, v, ticks) => s.suspended > 0 && Running(s) && BlockTimeOk(s, ticks)
    case DoWake(e) => |EventList(s, Event(e)).items| > 0
    case DoWakeUnordered(t, v) => s.suspended > 0 && t in s.tcb && s.tcb[t].eventIn.In? && s.tcb[t].eventIn.list.Event?
    case DoSuspend(t) => Live(s, t) && (t == s.current ==> s.suspended == 0)
    case DoResume(t) => t in s.tcb
    case DoResumeFromIsr(t) => t in s.tcb
    case DoCreate(t, p) => t !in s.tcb
    case DoDelete(t) => Live(s, t) && (t == s.current ==> s.suspended == 0)
    case DoCleanUp => s.waitingCleanUp > 0 && Live(s, s.current)
    case DoSetPriority(t, p) => t in s.tcb
    case DoInherit(h) => h in s.tcb
    case DoLower(h, p) => h in s.tcb && p < MAX_PRIORITIES
    case DoSwitch => true
  }
}
