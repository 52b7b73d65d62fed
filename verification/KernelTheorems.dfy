// The kernel's promises about every run.
module KernelTheorems {
  import opened TickTime
  import opened ListRing
  import opened KernelState
  import opened KernelKeeps
  import opened KernelSteps
  import opened KernelProof
  import opened KernelTick
  import opened KernelCalls
  import opened KernelRun
  import opened KernelSafety

  // The calls that suspend, resume, create, delete or reprioritise a task.
  predicate AboutATask(step: Step) {
    || step.DoSuspend? || step.DoResume? || step.DoResumeFromIsr? || step.DoCreate? || step.DoDelete? || step.DoCleanUp?
    || step.DoSetPriority? || step.DoInherit? || step.DoLower?
  }

  function ApplyToTask(s: Kernel, step: Step): Kernel
    requires Inv(s) && Enabled(s, step) && AboutATask(step)
  {
    InvParts(s);
    match step
    case DoSuspend(t) => TaskSuspend(s, t)
    case DoResume(t) => TaskResume(s, t)
    case DoResumeFromIsr(t) => TaskResumeFromIsr(s, t)
    case DoCreate(t, p) => TaskCreate(s, t, p)
    case DoDelete(t) => TaskDelete(s, t)
    case DoCleanUp => CleanUpKeeps(s); CleanUpOne(s)
    case DoSetPriority(t, p) => PrioritySet(s, t, p)
    case DoInherit(h) => PriorityInherit(s, h)
    case DoLower(h, p) => PriorityLower(s, h, p)
  }

  function Apply(s: Kernel, step: Step): Kernel
    requires Inv(s) && Enabled(s, step)
  {
    InvParts(s);
    match step
    case DoTick => TickInterrupt(s)
    case DoSuspendAll => SuspendAll(s)
    case DoResumeAll => ResumeAll(s)
    case DoDelay(ticks) => AddToDelayed(s, ticks, false)
    case DoPlace(e, ticks) => PlaceOnEventList(s, Event(e), ticks)
    case DoPlaceUnordered(e, v, ticks) => PlaceOnUnorderedEventList(s, Event(e), v, ticks)
    case DoWake(e) => RemoveFromEventList(s, Event(e))
    case DoWakeUnordered(t, v) => RemoveFromUnorderedEventList(s, t, v)
    case DoSwitch => SwitchContext(s)
    case _ => ApplyToTask(s, step)
  }

  lemma SuspendAllKeeps(s: Kernel)
    requires Inv(s)
    ensures Inv(SuspendAll(s)) && SuspendAll(s).delivered == s.delivered && SuspendAll(s).time == s.time
  {
    hide Core;
    CoreFrame(s, SuspendAll(s), {}, false);
    assert StateList(SuspendAll(s), Termination) == StateList(s, Termination);
  }

  lemma ApplyToTaskKeeps(s: Kernel, step: Step)
    requires Inv(s) && Enabled(s, step) && AboutATask(step)
    ensures Inv(ApplyToTask(s, step)) && ApplyToTask(s, step).delivered == s.delivered
    ensures ApplyToTask(s, step).time == s.time
  {
    hide Inv, Core, Partition, EventPartition, SuspensionOk, CountsOk, Live, TaskSuspend, TaskResume,
      TaskResumeFromIsr, TaskCreate, TaskDelete, CleanUpOne, PrioritySet, PriorityInherit, PriorityLower;
    InvParts(s);
    match step {
      case DoSuspend(t) => SuspendKeeps(s, t);
      case DoResume(t) => ResumeKeeps(s, t);
      case DoResumeFromIsr(t) => ResumeKeeps(s, t);
      case DoCreate(t, p) => CreateKeeps(s, t, p);
      case DoDelete(t) => DeleteKeeps(s, t);
      case DoCleanUp => CleanUpKeeps(s);
      case DoSetPriority(t, p) => PrioritySetKeeps(s, t, p);
      case DoInherit(h) => PriorityInheritKeeps(s, h);
      case DoLower(h, p) => PriorityLowerKeeps(s, h, p);
    }
  }

  predicate MovesClock(step: Step) { step.DoTick? || step.DoResumeAll? }

  // Every kernel call keeps the invariant, and only ticks and resumptions move the clock.
  lemma ApplyKeeps(s: Kernel, step: Step)
    requires Inv(s) && Enabled(s, step)
    ensures Inv(Apply(s, step))
    ensures Apply(s, step).delivered == s.delivered + (if step.DoTick? then 1 else 0)
    ensures Apply(s, step).time >= s.time && (MovesClock(step) || Apply(s, step).time == s.time)
    ensures step.DoTick? ==> Apply(s, step).time <= s.time + 1
  {
    hide Inv, Core, Partition, EventPartition, SuspensionOk, CountsOk, TickInterrupt, ResumeAll, AddToDelayed,
      PlaceOnEventList, PlaceOnUnorderedEventList, RemoveFromEventList, RemoveFromUnorderedEventList, ApplyToTask,
      SwitchContext;
    InvParts(s);
    if AboutATask(step) {
      ApplyToTaskKeeps(s, step);
    } else {
      match step {
        case DoTick => TickKeeps(s);
        case DoSuspendAll => SuspendAllKeeps(s);
        case DoResumeAll => ResumeAllKeeps(s);
        case DoDelay(ticks) => DelayKeeps(s, ticks, false);
        case DoPlace(e, ticks) => PlaceKeeps(s, Event(e), ticks);
        case DoPlaceUnordered(e, v, ticks) => PlaceUnorderedKeeps(s, Event(e), v, ticks);
        case DoWake(e) => WakeKeeps(s, Event(e));
        case DoWakeUnordered(t, v) => WakeUnorderedKeeps(s, t, v);
        case DoSwitch => SwitchKeeps(s);
      }
    }
  }

  // A run: each state follows from the one before by an enabled call. A call is defined where the
  // invariant holds, which RunKeeps shows to be everywhere.
  ghost predicate IsRun(run: seq<Kernel>, steps: seq<Step>) {
    && |run| == |steps| + 1
    && forall i :: 0 <= i < |steps| && Inv(run[i]) ==>
         Enabled(run[i], steps[i]) && run[i + 1] == Apply(run[i], steps[i])
  }

  lemma {:induction false} RunKeeps(run: seq<Kernel>, steps: seq<Step>, n: nat)
    requires IsRun(run, steps) && n < |run| && Inv(run[0])
    ensures Inv(run[n])
  {
    hide Inv, Apply, Enabled;
    if n > 0 {
      RunKeeps(run, steps, n - 1);
      ApplyKeeps(run[n - 1], steps[n - 1]);
    }
  }

  // The state vTaskStartScheduler starts from: one task, ready and running, at any tick count.
  function Initial(t: Task, priority: nat, time: nat): Kernel {
    var s := Kernel(map[], map[], map[], t, Wrap(time), 0, PORT_MAX_DELAY, true, 0, 0, 0, 0, 0, time, time, map[]);
    TaskCreate(s, t, priority)
  }

  lemma InitialInv(t: Task, priority: nat, time: nat)
    ensures Inv(Initial(t, priority, time))
  {
    var s := Kernel(map[], map[], map[], t, Wrap(time), 0, PORT_MAX_DELAY, true, 0, 0, 0, 0, 0, time, time, map[]);
    assert Core(s, {}, false);
    NewTcbCore(s, t, priority);
    NoneOut(t);
    AddReadyKeeps(NewTcb(s, t, priority), {t}, t, false);
    AddReadyBooks(NewTcb(s, t, priority), t);
  }

  // ----- Time -----

  // The list switch at the next tick asserts that the current delayed list is empty.
  ghost predicate SwitchAssertHolds(s: Kernel) {
    s.tick == PORT_MAX_DELAY ==> StateList(s, CurrentDelayed(s)).items == []
  }

  // Joining a delayed list leaves that assertion true exactly when the block time is not zero
  // at the last tick before the wrap.
  lemma SwitchAssertExactly(s: Kernel, ticks: Tick, indefinitely: bool)
    requires Inv(s) && Running(s)
    ensures SwitchAssertHolds(AddToDelayed(s, ticks, indefinitely)) <==> BlockTimeOk(s, ticks)
  {
    hide Core, AddToDelayed;
    InvParts(s);
    var s1 := AddToDelayed(s, ticks, indefinitely);
    DelayClock(s, ticks, indefinitely);
    if BlockTimeOk(s, ticks) {
      AddToDelayedKeeps(s, ticks, indefinitely);
      if s1.tick == PORT_MAX_DELAY { SwitchFindsEmptyList(s1); }
    } else {
      ZeroDelayListed(s, indefinitely);
    }
  }

  // In every run whose callers keep to that the assertion never fails.
  lemma SwitchAssertInRuns(run: seq<Kernel>, steps: seq<Step>, n: nat)
    requires IsRun(run, steps) && n < |run| && Inv(run[0])
    ensures SwitchAssertHolds(run[n])
  {
    hide IsRun, Core;
    RunKeeps(run, steps, n);
    InvParts(run[n]);
    if run[n].tick == PORT_MAX_DELAY { SwitchFindsEmptyList(run[n]); }
  }

  lemma DelayClock(s: Kernel, ticks: Tick, indefinitely: bool)
    requires s.current in s.tcb
    ensures AddToDelayed(s, ticks, indefinitely).tick == s.tick
  {
  }

  lemma ZeroDelayListed(s: Kernel, indefinitely: bool)
    requires s.current in s.tcb
    ensures var s1 := AddToDelayed(s, 0, indefinitely); s.current in StateList(s1, CurrentDelayed(s1)).items
  {
    var t := s.current;
    var s1 := RemoveState(s, t);
    assert t in s1.tcb && s1.list1IsCurrent == s.list1IsCurrent && s1.current == t && s1.tick == s.tick;
    hide RemoveState, StateValues;
    var s2 := SetWake(s1, t, 0);
    var r := StateList(s2, CurrentDelayed(s));
    var k := InsertPos(StateValues(s2, r), s2.tcb[t].stateValue);
    assert InsertAt(r, k, t).items[k] == t;
    hide InsertPos, InsertAt;
    assert StateList(AddToDelayed(s, 0, indefinitely), CurrentDelayed(s)) == InsertAt(r, k, t);
  }

  // ----- Suspending the scheduler loses nothing -----

  predicate IsrStep(step: Step) { step.DoTick? || step.DoWake? || step.DoResumeFromIsr? }

  ghost predicate SameLists(s: Kernel, s': Kernel) {
    && s'.lists == s.lists && s'.tick == s.tick && s'.tcb.Keys == s.tcb.Keys
    && forall t :: t in s.tcb ==> s'.tcb[t].stateIn == s.tcb[t].stateIn
  }

  lemma EventMovesLeaveLists(s: Kernel, t: Task)
    requires t in s.tcb
    ensures SameLists(s, RemoveEvent(s, t)) && t in RemoveEvent(s, t).tcb
    ensures SameLists(RemoveEvent(s, t), AppendEvent(RemoveEvent(s, t), PendingReady, t))
  {
    hide EventList, Remove, InsertEnd;
  }

  lemma SameListsTrans(s: Kernel, s1: Kernel, s2: Kernel)
    requires SameLists(s, s1) && SameLists(s1, s2)
    ensures SameLists(s, s2)
  {
  }

  lemma WakeLeavesLists(s: Kernel, e: EventId)
    requires EventPartition(s) && |EventList(s, e).items| > 0 && s.suspended > 0
    ensures SameLists(s, RemoveFromEventList(s, e))
  {
    var t := EventList(s, e).items[0];
    assert t in EventList(s, e).items;
    assert t in s.tcb;
    hide EventPartition, EventList, SameLists;
    EventMovesLeaveLists(s, t);
    SameListsTrans(s, RemoveEvent(s, t), AppendEvent(RemoveEvent(s, t), PendingReady, t));
  }

  // While the scheduler is suspended no interrupt moves a state item or the clock.
  lemma IsrLeavesListsAlone(s: Kernel, step: Step)
    requires Inv(s) && s.suspended > 0 && IsrStep(step) && Enabled(s, step)
    ensures SameLists(s, Apply(s, step))
  {
    hide Core, Inv, Partition, EventPartition, RemoveFromEventList;
    InvParts(s);
    if step.DoWake? { WakeLeavesLists(s, Event(step.event)); }
  }

  function TickCount(steps: seq<Step>): nat {
    if steps == [] then 0 else TickCount(steps[..|steps| - 1]) + (if steps[|steps| - 1].DoTick? then 1 else 0)
  }

  // Every tick interrupt of a run has been processed or is still pended; with the scheduler
  // running none is pended, so the clock has advanced by exactly the interrupts delivered.
  lemma {:induction false} NoTickIsLost(run: seq<Kernel>, steps: seq<Step>, n: nat)
    requires IsRun(run, steps) && n < |run| && Inv(run[0])
    ensures run[n].time + run[n].pended == run[0].time + run[0].pended + TickCount(steps[..n])
    ensures run[n].suspended == 0 ==> run[n].pended == 0 && EventList(run[n], PendingReady).items == []
  {
    hide Inv, Apply, Enabled;
    RunKeeps(run, steps, n);
    Balance(run[n]);
    Balance(run[0]);
    if n > 0 {
      NoTickIsLost(run, steps, n - 1);
      RunKeeps(run, steps, n - 1);
      Balance(run[n - 1]);
      ApplyKeeps(run[n - 1], steps[n - 1]);
      assert steps[..n][..n - 1] == steps[..n - 1];
    }
  }

  lemma Balance(s: Kernel)
    requires Inv(s)
    ensures s.delivered == s.time + s.pended
    ensures s.suspended == 0 ==> s.pended == 0 && EventList(s, PendingReady).items == []
  {
    hide Core, CountsOk;
  }

  // ----- The list lengths -----

  ghost function Members(s: Kernel, l: ListId): set<Task> {
    set t | t in s.tcb && s.tcb[t].stateIn == In(l)
  }

  lemma {:induction false} DistinctCount(q: seq<Task>, m: set<Task>)
    requires NoDup(q) && forall t :: t in q <==> t in m
    ensures |q| == |m|
  {
    if q == [] {
      assert m == {};
    } else {
      var t := q[|q| - 1];
      var p := q[..|q| - 1];
      assert q == p + [t];
      DistinctCount(p, m - {t});
    }
  }

  lemma ListLength(s: Kernel, l: ListId)
    requires Partition(s, {})
    ensures |StateList(s, l).items| == |Members(s, l)|
  {
    DistinctCount(StateList(s, l).items, Members(s, l));
  }

  ghost function ReadyMembers(s: Kernel, n: nat): set<Task> {
    set t | t in s.tcb && s.tcb[t].stateIn.In? && s.tcb[t].stateIn.list.Ready? && s.tcb[t].stateIn.list.priority < n
  }

  function ReadyTotal(s: Kernel, n: nat): nat {
    if n == 0 then 0 else ReadyTotal(s, n - 1) + |StateList(s, Ready(n - 1)).items|
  }

  lemma ReadyMembersStep(s: Kernel, n: nat)
    ensures ReadyMembers(s, 0) == {}
    ensures ReadyMembers(s, n + 1) == ReadyMembers(s, n) + Members(s, Ready(n))
    ensures ReadyMembers(s, n) !! Members(s, Ready(n))
  {
  }

  lemma {:induction false} ReadyLength(s: Kernel, n: nat)
    requires Partition(s, {})
    ensures ReadyTotal(s, n) == |ReadyMembers(s, n)|
  {
    hide Partition, Members, ReadyMembers, StateList;
    if n == 0 {
      ReadyMembersStep(s, 0);
    } else {
      ReadyLength(s, n - 1);
      ListLength(s, Ready(n - 1));
      ReadyMembersStep(s, n - 1);
      DisjointCount(ReadyMembers(s, n - 1), Members(s, Ready(n - 1)));
    }
  }

  // The lengths of the state lists add up to the number of tasks the kernel counts, and the
  // termination list is as long as the idle task believes.
  lemma ListLengthsAddUp(s: Kernel)
    requires Inv(s)
    ensures ReadyTotal(s, MAX_PRIORITIES) + |StateList(s, Delayed1).items| + |StateList(s, Delayed2).items|
            + |StateList(s, Suspended).items| + |StateList(s, Termination).items| == s.count
    ensures |StateList(s, Termination).items| == s.waitingCleanUp
  {
    ReadyLength(s, MAX_PRIORITIES);
    ListLength(s, Delayed1);
    ListLength(s, Delayed2);
    ListLength(s, Suspended);
    ListLength(s, Termination);
    AllMembers(s);
  }

  lemma AllMembers(s: Kernel)
    requires Partition(s, {}) && ReadyOk(s)
    ensures |ReadyMembers(s, MAX_PRIORITIES)| + |Members(s, Delayed1)| + |Members(s, Delayed2)|
            + |Members(s, Suspended)| + |Members(s, Termination)| == |s.tcb|
  {
    EveryTaskListed(s);
    MembersApart(s);
    hide Partition, ReadyOk, Members, ReadyMembers;
    FiveCount(ReadyMembers(s, MAX_PRIORITIES), Members(s, Delayed1), Members(s, Delayed2), Members(s, Suspended),
              Members(s, Termination));
    assert |s.tcb| == |s.tcb.Keys|;
  }

  ghost predicate Apart(a: set<Task>, b: set<Task>, c: set<Task>, d: set<Task>, e: set<Task>) {
    a !! b && a + b !! c && a + b + c !! d && a + b + c + d !! e
  }

  lemma MembersApart(s: Kernel)
    ensures Apart(ReadyMembers(s, MAX_PRIORITIES), Members(s, Delayed1), Members(s, Delayed2), Members(s, Suspended),
                  Members(s, Termination))
  {
  }

  lemma FiveCount(a: set<Task>, b: set<Task>, c: set<Task>, d: set<Task>, e: set<Task>)
    requires Apart(a, b, c, d, e)
    ensures |a + b + c + d + e| == |a| + |b| + |c| + |d| + |e|
  {
    DisjointCount(a, b);
    DisjointCount(a + b, c);
    DisjointCount(a + b + c, d);
    DisjointCount(a + b + c + d, e);
  }

  lemma EveryTaskListed(s: Kernel)
    requires Partition(s, {}) && ReadyOk(s)
    ensures s.tcb.Keys == ReadyMembers(s, MAX_PRIORITIES) + Members(s, Delayed1) + Members(s, Delayed2)
                          + Members(s, Suspended) + Members(s, Termination)
  {
    forall t | t in s.tcb ensures s.tcb[t].stateIn.In? { }
    hide Partition;
  }

  lemma DisjointCount(a: set<Task>, b: set<Task>)
    requires a !! b
    ensures |a + b| == |a| + |b|
  {
  }
}
