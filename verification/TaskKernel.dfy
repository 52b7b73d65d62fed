// tasks.c as it works: one set of kernel variables, changed in place.
module TaskKernel {
  import opened TickTime
  import opened ListRing
  import opened KernelState
  import opened KernelKeeps
  import opened KernelSteps
  import opened KernelProof
  import opened KernelTick
  import opened KernelCalls
  import opened KernelRun
  import opened KernelSafety
  import opened KernelTheorems
  import opened KernelEffects

  class Tasks {
    var tcb: map<Task, Tcb>
    var lists: map<ListId, Ring<Task>>
    var events: map<EventId, Ring<Task>>
    var current: Task
    var tick: Tick
    var overflows: nat
    var nextUnblock: Tick
    var list1IsCurrent: bool
    var suspended: nat
    var pended: nat
    var top: nat
    var count: nat
    var waitingCleanUp: nat
    ghost var time: nat
    ghost var delivered: nat
    ghost var wake: map<Task, nat>

    ghost function State(): Kernel
      reads this
    {
      Kernel(tcb, lists, events, current, tick, overflows, nextUnblock, list1IsCurrent,
             suspended, pended, top, count, waitingCleanUp, time, delivered, wake)
    }

    function Listed(l: ListId): Ring<Task>
      reads this
      ensures Listed(l) == StateList(State(), l)
    {
      if l in lists then lists[l] else EmptyRing()
    }

    function Waiting(e: EventId): Ring<Task>
      reads this
      ensures Waiting(e) == EventList(State(), e)
    {
      if e in events then events[e] else EmptyRing()
    }

    // ----- List operations on the items of a task -----

    method UnlistState(t: Task)
      requires t in tcb
      modifies this`tcb, this`lists
      ensures State() == RemoveState(old(State()), t) && tcb.Keys == old(tcb.Keys)
    {
      if tcb[t].stateIn.In? {
        var l := tcb[t].stateIn.list;
        lists := lists[l := Remove(Listed(l), t)];
        tcb := tcb[t := tcb[t].(stateIn := NotInList)];
      }
    }

    method UnlistEvent(t: Task)
      requires t in tcb
      modifies this`tcb, this`events
      ensures State() == RemoveEvent(old(State()), t) && tcb.Keys == old(tcb.Keys)
    {
      if tcb[t].eventIn.In? {
        var e := tcb[t].eventIn.list;
        events := events[e := Remove(Waiting(e), t)];
        tcb := tcb[t := tcb[t].(eventIn := NotInList)];
      }
    }

    method ListStateEnd(l: ListId, t: Task)
      requires t in tcb
      modifies this`tcb, this`lists
      ensures State() == AppendState(old(State()), l, t)
    {
      lists := lists[l := InsertEnd(Listed(l), t)];
      tcb := tcb[t := tcb[t].(stateIn := In(l))];
    }

    method ListEventEnd(e: EventId, t: Task)
      requires t in tcb
      modifies this`tcb, this`events
      ensures State() == AppendEvent(old(State()), e, t)
    {
      events := events[e := InsertEnd(Waiting(e), t)];
      tcb := tcb[t := tcb[t].(eventIn := In(e))];
    }

    method ListStateSorted(l: ListId, t: Task)
      requires t in tcb
      modifies this`tcb, this`lists
      ensures State() == InsertState(old(State()), l, t)
    {
      var r := Listed(l);
      var values := seq(|r.items|, i requires 0 <= i < |r.items| reads this =>
        if r.items[i] in tcb then tcb[r.items[i]].stateValue else 0);
      assert values == StateValues(State(), r);
      lists := lists[l := InsertAt(r, InsertPos(values, tcb[t].stateValue), t)];
      tcb := tcb[t := tcb[t].(stateIn := In(l))];
    }

    // prvAddTaskToReadyList
    method AddTaskToReadyList(t: Task)
      requires t in tcb
      modifies this`tcb, this`lists, this`top
      ensures State() == AddReady(old(State()), t) && Readied(old(State()), State(), t)
    {
      hide Readied;
      AddReadyEffect(State(), t);
      var p := tcb[t].priority;
      if p > top { top := p; }
      ListStateEnd(Ready(p), t);
    }

    // prvResetNextTaskUnblockTime
    method ResetNextTaskUnblockTime()
      modifies this`nextUnblock
      ensures State() == ResetNextUnblock(old(State()))
      ensures old(Core(State(), {}, false)) ==> Core(State(), {}, false) && NextUnblockExact(State())
    {
      hide Core, NextUnblockExact;
      ghost var s0 := State();
      if Core(s0, {}, false) {
        ResetNextUnblockKeeps(s0, {}, false);
        CoreSorted(s0);
        ResetIsExact(s0);
      }
      var r := Listed(CurrentDelayedList());
      if |r.items| == 0 {
        nextUnblock := PORT_MAX_DELAY;
      } else if r.items[0] in tcb {
        nextUnblock := tcb[r.items[0]].stateValue;
      }
    }

    function CurrentDelayedList(): ListId
      reads this
      ensures CurrentDelayedList() == CurrentDelayed(State())
    {
      if list1IsCurrent then Delayed1 else Delayed2
    }

    // ----- Time -----

    // xTaskIncrementTick
    method IncrementTick()
      requires Core(State(), {}, false)
      modifies this
      ensures Core(old(State()), {}, false) && Core(State(), {}, false)
      ensures State() == if old(suspended) == 0 then ProcessTick(old(State()))
                         else old(State()).(pended := old(pended) + 1)
    {
      hide Core, Partition, UnblockDue, AdvanceClock;
      ghost var s0 := State();
      CoreParts(s0, {}, false);
      if suspended == 0 {
        AdvanceClockKeeps(s0);
        ProcessTickKeeps(s0);
        AdvanceTickCount();
        if tick >= nextUnblock {
          UnblockDueTasks();
        }
      } else {
        CoreFrame(s0, s0.(pended := pended + 1), {}, false);
        pended := pended + 1;
      }
    }

    // The counter and, when it wraps, taskSWITCH_DELAYED_LISTS.
    method AdvanceTickCount()
      modifies this`tick, this`time, this`list1IsCurrent, this`overflows, this`nextUnblock
      ensures State() == AdvanceClock(old(State()))
    {
      hide NextUnblockExact, Core, ResetNextUnblock, TickAdd;
      tick := TickAdd(tick, 1);
      time := time + 1;
      if tick == 0 {
        list1IsCurrent := !list1IsCurrent;
        overflows := overflows + 1;
        ResetNextTaskUnblockTime();
      }
    }

    // The loop of xTaskIncrementTick.
    method UnblockDueTasks()
      requires Core(State(), {}, true)
      modifies this`tcb, this`lists, this`events, this`top, this`nextUnblock
      ensures Core(old(State()), {}, true) && State() == UnblockDue(old(State()))
    {
      hide Readied, Core, Partition, UnblockDue, RemoveState, RemoveEvent, AddReady;
      CoreParts(State(), {}, true);
      ghost var s0 := State();
      var l := CurrentDelayedList();
      while true
        invariant Core(State(), {}, true) && Partition(State(), {}) && l == CurrentDelayed(State())
        invariant UnblockDue(State()) == UnblockDue(s0)
        decreases |Listed(l).items|
      {
        ghost var s := State();
        var r := Listed(l);
        if !LoopGoesOn(s) { LoopEnds(s); }
        if |r.items| == 0 {
          nextUnblock := PORT_MAX_DELAY;
          break;
        }
        var t := r.items[0];
        ListedHead(s, l);
        if tick < tcb[t].stateValue {
          nextUnblock := tcb[t].stateValue;
          break;
        }
        LoopStep(s);
        UnblockKeeps(s, t, true);
        UnblockEffect(s, t, t);
        UnlistState(t);
        UnlistEvent(t);
        AddTaskToReadyList(t);
        CoreParts(State(), {}, true);
      }
    }

    // The tick interrupt.
    method OnTickInterrupt()
      requires Inv(State())
      modifies this
      ensures Inv(State()) && State() == old(TickInterrupt(State())) && OverflowsCounted(old(State()), State())
    {
      hide Core, Inv, Partition, ProcessTick, TickInterrupt, OverflowsCounted;
      ClockCallsCount(State());
      TickIs(State());
      InvParts(State());
      TickKeeps(State());
      CoreFrame(State(), State().(delivered := delivered + 1), {}, false);
      delivered := delivered + 1;
      IncrementTick();
    }

    // ----- Suspending the scheduler -----

    // vTaskSuspendAll
    method SuspendScheduler()
      requires Inv(State())
      modifies this`suspended
      ensures Inv(State()) && State() == old(SuspendAll(State())) && suspended == old(suspended) + 1
    {
      hide Core, Inv;
      SuspendAllKeeps(State());
      suspended := suspended + 1;
    }

    // xTaskResumeAll
    method ResumeScheduler()
      requires Inv(State()) && suspended > 0
      modifies this
      ensures Inv(State()) && State() == old(ResumeAll(State())) && suspended == old(suspended) - 1
      ensures OverflowsCounted(old(State()), State())
      ensures old(suspended) == 1 ==> forall t :: t in old(Waiting(PendingReady)).items ==> IsReady(State(), t)
    {
      hide Core, Inv, FinishResume, SuspensionOk, CountsOk;
      ghost var s0 := State();
      InvParts(s0);
      ResumeAllKeeps(s0);
      ResumeCounts(s0);
      ClockCallsCount(s0);
      forall t | suspended == 1 && t in EventList(s0, PendingReady).items ensures IsReady(ResumeAll(s0), t) {
        ResumeReadiesPending(s0, t);
      }
      hide IsReady, EventList, ResumeAll, OverflowsCounted;
      CoreFrame(s0, s0.(suspended := suspended - 1), {}, false);
      suspended := suspended - 1;
      if suspended == 0 && count > 0 {
        MovePendingTasks();
      }
    }

    // What xTaskResumeAll does when the count reaches zero.
    method MovePendingTasks()
      requires Core(State(), {}, false) && suspended == 0
      modifies this
      ensures State() == old(FinishResume(State()))
    {
      hide NextUnblockExact, Core, EventPartition, DrainPending, Ticks, ResetNextUnblock;
      ghost var s0 := State();
      var moved := |Waiting(PendingReady).items| > 0;
      DrainPendingKeeps(s0);
      DrainPendingBooks(s0);
      BooksCount(s0, DrainPending(s0));
      BooksKeys(s0, DrainPending(s0));
      DrainPendingList();
      ResetNextUnblockKeeps(State(), {}, false);
      if moved {
        ResetNextTaskUnblockTime();
      }
      ghost var s2 := State();
      var pendedCounts := pended;
      while pendedCounts > 0
        invariant Core(State(), {}, false) && suspended == 0
        invariant Ticks(State(), pendedCounts) == Ticks(s2, s0.pended)
      {
        ghost var s := State();
        TicksStep(s, pendedCounts);
        ProcessTickBooks(s);
        BooksCount(s, ProcessTick(s));
        IncrementTick();
        pendedCounts := pendedCounts - 1;
      }
      TicksStep(State(), 0);
      pended := 0;
    }

    method DrainPendingList()
      requires Core(State(), {}, false)
      modifies this`tcb, this`lists, this`events, this`top
      ensures EventPartition(old(State())) && State() == DrainPending(old(State()))
    {
      hide Readied, Core, EventPartition, DrainPending, RemoveState, RemoveEvent, AddReady;
      ghost var s0 := State();
      CoreParts(s0, {}, false);
      while |Waiting(PendingReady).items| > 0
        invariant Core(State(), {}, false) && EventPartition(State())
        invariant DrainPending(State()) == DrainPending(s0)
        decreases |Waiting(PendingReady).items|
      {
        ghost var s := State();
        var t := Waiting(PendingReady).items[0];
        DrainStep(s);
        ReadyPendingKeeps(s, t, false);
        UnlistEvent(t);
        UnlistState(t);
        AddTaskToReadyList(t);
        CoreParts(State(), {}, false);
      }
      DrainEnd(State());
    }

    // ----- Blocking and waking -----

    // prvAddCurrentTaskToDelayedList
    method AddCurrentTaskToDelayedList(ticksToWait: Tick, canBlockIndefinitely: bool)
      requires current in tcb
      modifies this`tcb, this`lists, this`nextUnblock, this`wake
      ensures State() == old(AddToDelayed(State(), ticksToWait, canBlockIndefinitely))
      ensures old(tick == Wrap(time)) ==> Blocks(old(State()), State(), ticksToWait, canBlockIndefinitely)
      ensures old(Inv(State()) && Running(State()) && BlockTimeOk(State(), ticksToWait)) ==> Inv(State())
    {
      hide RemoveState, TimedDelay, AppendState, Inv, Running, Blocks, Wrap;
      DelayGives(State(), ticksToWait, canBlockIndefinitely);
      var t := current;
      UnlistState(t);
      if ticksToWait == PORT_MAX_DELAY && canBlockIndefinitely {
        ListStateEnd(Suspended, t);
      } else {
        ListForTime(t, ticksToWait);
      }
    }

    // listSET_LIST_ITEM_VALUE of the state item, with the true time it stands for.
    method SetItemValue(t: Task, timeToWake: Tick, ghost ticks: Tick)
      requires t in tcb && timeToWake == TickAdd(tick, ticks)
      modifies this`tcb, this`wake
      ensures State() == old(SetWake(State(), t, ticks))
    {
      tcb := tcb[t := tcb[t].(stateValue := timeToWake)];
      wake := wake[t := time + ticks];
    }

    // Its timed half: the wake time, and the list of the epoch that time lies in.
    method ListForTime(t: Task, ticksToWait: Tick)
      requires t in tcb
      modifies this`tcb, this`lists, this`nextUnblock, this`wake
      ensures State() == old(TimedDelay(State(), t, ticksToWait))
    {
      hide InsertState, TickAdd, SetWake;
      SetWakeKeepsTasks(State(), t, ticksToWait);
      var timeToWake := TickAdd(tick, ticksToWait);
      SetItemValue(t, timeToWake, ticksToWait);
      if timeToWake < tick {
        ListStateSorted(if list1IsCurrent then Delayed2 else Delayed1, t);
      } else {
        ListStateSorted(CurrentDelayedList(), t);
        if timeToWake < nextUnblock {
          nextUnblock := timeToWake;
        }
      }
    }

    method ListEventSorted(e: EventId, t: Task)
      requires t in tcb
      modifies this`tcb, this`events
      ensures State() == InsertEvent(old(State()), e, t) && tcb.Keys == old(tcb.Keys)
    {
      var r := Waiting(e);
      var values := seq(|r.items|, i requires 0 <= i < |r.items| reads this =>
        if r.items[i] in tcb then tcb[r.items[i]].eventValue else 0);
      assert values == EventValues(State(), r);
      events := events[e := InsertAt(r, InsertPos(values, tcb[t].eventValue), t)];
      tcb := tcb[t := tcb[t].(eventIn := In(e))];
    }

    // vTaskPlaceOnEventList
    method PlaceCurrentOnEventList(event: nat, ticksToWait: Tick)
      requires Inv(State()) && Running(State()) && BlockTimeOk(State(), ticksToWait)
      modifies this`tcb, this`lists, this`events, this`nextUnblock, this`wake
      ensures Inv(State()) && State() == old(PlaceOnEventList(State(), Event(event), ticksToWait))
      ensures Blocks(old(State()), State(), ticksToWait, true)
      ensures current in tcb && tcb[current].eventIn == In(Event(event))
      ensures QueuedInOrder(old(State()), State(), Event(event), current)
    {
      hide Inv, Running, InsertEvent, AddToDelayed, Blocks, QueuedInOrder, Wrap;
      RunningFacts(State());
      PlaceKeeps(State(), Event(event), ticksToWait);
      PlaceBlocks(State(), Event(event), ticksToWait);
      ListEventSorted(Event(event), current);
      AddCurrentTaskToDelayedList(ticksToWait, true);
    }

    // vTaskPlaceOnUnorderedEventList
    method PlaceCurrentOnUnorderedEventList(event: nat, itemValue: Tick, ticksToWait: Tick)
      requires Inv(State()) && Running(State()) && BlockTimeOk(State(), ticksToWait)
      modifies this`tcb, this`lists, this`events, this`nextUnblock, this`wake
      ensures Inv(State()) && State() == old(PlaceOnUnorderedEventList(State(), Event(event), itemValue, ticksToWait))
      ensures Blocks(old(State()), State(), ticksToWait, true)
      ensures current in tcb && tcb[current].eventIn == In(Event(event)) && tcb[current].eventValue == itemValue
      ensures Waiting(Event(event)) == InsertEnd(old(Waiting(Event(event))), current)
    {
      hide Inv, Running, AddToDelayed, Blocks, Wrap;
      RunningFacts(State());
      PlaceUnorderedKeeps(State(), Event(event), itemValue, ticksToWait);
      PlaceUnorderedBlocks(State(), Event(event), itemValue, ticksToWait);
      tcb := tcb[current := tcb[current].(eventValue := itemValue)];
      ListEventEnd(Event(event), current);
      AddCurrentTaskToDelayedList(ticksToWait, true);
    }

    // vTaskRemoveFromUnorderedEventList
    method WakeFromUnorderedEventList(t: Task, itemValue: Tick)
      requires Inv(State()) && t in tcb && tcb[t].eventIn.In? && tcb[t].eventIn.list.Event?
      modifies this`tcb, this`lists, this`events, this`top
      ensures Inv(State()) && State() == old(RemoveFromUnorderedEventList(State(), t, itemValue))
      ensures IsReady(State(), t) && tcb[t].eventValue == itemValue && OthersUntouched(old(State()), State(), t)
    {
      hide Inv, Core, RemoveEvent, RemoveState, AddReady, IsReady, OthersUntouched, Readied;
      InvParts(State());
      WaiterBlocked(State(), t);
      WakeUnorderedKeeps(State(), t, itemValue);
      WakeUnorderedReadies(State(), t, itemValue);
      tcb := tcb[t := tcb[t].(eventValue := itemValue)];
      UnlistEvent(t);
      UnlistState(t);
      AddTaskToReadyList(t);
    }

    // prvInitialiseNewTask and prvAddNewTaskToReadyList
    method AddNewTask(t: Task, priority: nat)
      requires t !in tcb
      modifies this`tcb, this`lists, this`top, this`count
      ensures State() == old(TaskCreate(State(), t, priority)) && (old(Inv(State())) ==> Inv(State()))
      ensures IsReady(State(), t) && tcb.Keys == old(tcb.Keys) + {t} && OthersUntouched(old(State()), State(), t)
      ensures var p := if priority < MAX_PRIORITIES then priority else MAX_PRIORITIES - 1;
        tcb == old(tcb)[t := Tcb(p, p, In(Ready(p)), 0, NotInList, MAX_PRIORITIES - p)]
    {
      hide Inv, AddReady, IsReady, OthersUntouched, Readied;
      if Inv(State()) { CreateKeeps(State(), t, priority); }
      CreateEffect(State(), t, priority);
      InitialiseNewTask(t, priority);
      AddTaskToReadyList(t);
    }

    method InitialiseNewTask(t: Task, priority: nat)
      modifies this`tcb, this`count
      ensures State() == old(NewTcb(State(), t, priority)) && t in tcb
    {
      var p := priority;
      if p >= MAX_PRIORITIES { p := MAX_PRIORITIES - 1; }
      tcb := tcb[t := Tcb(p, p, NotInList, 0, NotInList, MAX_PRIORITIES - p)];
      count := count + 1;
    }

    // xTaskResumeFromISR
    method ResumeTaskFromIsr(t: Task)
      requires Inv(State()) && t in tcb
      modifies this`tcb, this`lists, this`events, this`top
      ensures Inv(State()) && State() == old(TaskResumeFromIsr(State(), t))
      ensures t in tcb && OthersUntouched(old(State()), State(), t)
      ensures !old(TaskIsSuspended(State(), t)) ==> State() == old(State())
      ensures old(TaskIsSuspended(State(), t)) && suspended == 0 ==> IsReady(State(), t)
      ensures old(TaskIsSuspended(State(), t)) && suspended > 0 ==>
        tcb[t] == old(tcb[t]).(eventIn := In(PendingReady)) && t in Waiting(PendingReady).items
    {
      hide Inv, RemoveState, AddReady, AppendEvent, IsReady, OthersUntouched, Readied, EventList;
      ResumeKeeps(State(), t);
      ResumeFromIsrEffect(State(), t);
      if tcb[t].stateIn == In(Suspended) && tcb[t].eventIn.NotInList? {
        if suspended == 0 {
          UnlistState(t);
          AddTaskToReadyList(t);
        } else {
          ListEventEnd(PendingReady, t);
        }
      }
    }

    // xTaskRemoveFromEventList
    method WakeHeadOf(event: nat)
      requires Inv(State()) && |Waiting(Event(event)).items| > 0
      modifies this`tcb, this`lists, this`events, this`top
      ensures Inv(State()) && State() == old(RemoveFromEventList(State(), Event(event)))
      ensures WakesHead(old(State()), State(), Event(event))
    {
      hide Readied, WakesHead, Core, Inv, EventPartition, RemoveEvent, RemoveState, AddReady, AppendEvent;
      ghost var s0 := State();
      WakeEffect(s0, Event(event));
      InvParts(s0);
      WakeKeeps(s0, Event(event));
      var t := Waiting(Event(event)).items[0];
      WaitingHead(s0, Event(event));
      UnlistEvent(t);
      if suspended == 0 {
        UnlistState(t);
        AddTaskToReadyList(t);
      } else {
        ListEventEnd(PendingReady, t);
      }
    }

    // ----- Choosing the task to run -----

    // vTaskSwitchContext
    method SwitchToHighestPriority()
      requires Inv(State())
      modifies this`lists, this`current, this`top
      ensures Inv(State()) && State() == old(SwitchContext(State()))
      ensures SwitchedTo(old(State()), State())
    {
      hide Core, Inv, SwitchedTo;
      SwitchKeeps(State());
      SwitchEffect(State());
      if suspended == 0 {
        var p := top;
        while |Listed(Ready(p)).items| == 0 && p > 0
          invariant HighestReady(State(), p) == HighestReady(State(), top)
        {
          p := p - 1;
        }
        var r := Advance(Listed(Ready(p)));
        if 0 < r.index <= |r.items| {
          lists := lists[Ready(p) := r];
          current := Chosen(r);
          top := p;
        }
      }
    }

    // ----- Managing tasks -----

    // vTaskSuspend
    method SuspendTask(t: Task)
      requires Inv(State()) && Live(State(), t)
      modifies this`tcb, this`lists, this`events, this`nextUnblock
      ensures Inv(State()) && State() == old(TaskSuspend(State(), t))
      ensures Becomes(old(State()), State(), t, old(tcb)[t].(stateIn := In(Suspended), eventIn := NotInList))
    {
      hide Becomes, NextUnblockExact, Core, Inv, RemoveState, RemoveEvent, AppendState, ResetNextUnblock;
      ListedSomewhere(State(), t);
      SuspendEffect(State(), t);
      SuspendKeeps(State(), t);
      UnlistState(t);
      UnlistEvent(t);
      ListStateEnd(Suspended, t);
      ResetNextTaskUnblockTime();
    }

    // vTaskResume
    method ResumeTask(t: Task)
      requires Inv(State())
      modifies this`tcb, this`lists, this`top
      ensures Inv(State()) && State() == old(TaskResume(State(), t))
      ensures t in old(tcb) ==>
        if t != current && old(tcb)[t].stateIn == In(Suspended) && old(tcb)[t].eventIn.NotInList?
        then Becomes(old(State()), State(), t, old(tcb)[t].(stateIn := In(Ready(old(tcb)[t].priority))))
        else State() == old(State())
    {
      if t in tcb { ResumeEffect(State(), t); }
      hide Readied, Core, Inv, RemoveState, AddReady;
      ResumeKeeps(State(), t);
      if t != current && t in tcb && tcb[t].stateIn == In(Suspended) && tcb[t].eventIn.NotInList? {
        UnlistState(t);
        AddTaskToReadyList(t);
      }
    }

    // vTaskDelete
    method DeleteTask(t: Task)
      requires Inv(State()) && Live(State(), t)
      modifies this`tcb, this`lists, this`events, this`nextUnblock, this`count, this`waitingCleanUp
      ensures Inv(State()) && State() == old(TaskDelete(State(), t))
      ensures Deleted(old(State()), State(), t)
    {
      hide Deleted, DropTcb, NextUnblockExact, Core, Inv, Partition, EventPartition, SuspensionOk, CountsOk,
        RemoveState, RemoveEvent, AppendState, ResetNextUnblock;
      ListedSomewhere(State(), t);
      DeleteKeeps(State(), t);
      InvParts(State());
      CountIsPositive(State());
      DeleteEffect(State(), t);
      RemoveKeepsCount(State(), t);
      UnlistState(t);
      UnlistEvent(t);
      if t == current {
        ListStateEnd(Termination, t);
        waitingCleanUp := waitingCleanUp + 1;
      } else {
        ForgetTask(t);
        ResetNextTaskUnblockTime();
      }
    }

    // The task is no longer counted, and its control block is gone.
    method ForgetTask(t: Task)
      requires count > 0
      modifies this`tcb, this`count
      ensures State() == old(DropTcb(State(), t))
    {
      count := count - 1;
      tcb := tcb - {t};
    }

    // prvCheckTasksWaitingTermination frees every task on the termination list and no other.
    method CheckTasksWaitingTermination()
      requires Inv(State()) && Live(State(), current)
      modifies this`tcb, this`lists, this`count, this`waitingCleanUp
      ensures Inv(State()) && waitingCleanUp == 0
      ensures forall t :: t in tcb <==> t in old(tcb) && old(tcb)[t].stateIn != In(Termination)
      ensures forall t :: t in tcb ==> tcb[t] == old(tcb)[t]
    {
      hide Core, Inv, CleanUpOne;
      ghost var s0 := State();
      while waitingCleanUp > 0
        invariant Inv(State()) && Live(State(), current) && current == s0.current
        invariant forall t :: t in tcb ==> t in s0.tcb && tcb[t] == s0.tcb[t]
        invariant forall t :: t in s0.tcb && s0.tcb[t].stateIn != In(Termination) ==> t in tcb
      {
        CleanUpKeeps(State());
        TerminatedHead(State());
        CleanUpEffect(State());
        FreeTerminatedTask();
      }
      NoneTerminated(State());
    }

    method FreeTerminatedTask()
      requires |Listed(Termination).items| > 0 && count > 0 && waitingCleanUp > 0
      requires Listed(Termination).items[0] in tcb
      modifies this`tcb, this`lists, this`count, this`waitingCleanUp
      ensures State() == old(CleanUpOne(State()))
    {
      hide RemoveState;
      var t := Listed(Termination).items[0];
      RemoveStateEvent'(State(), t);
      UnlistState(t);
      ForgetTask(t);
      waitingCleanUp := waitingCleanUp - 1;
    }

    // vTaskPrioritySet
    method SetTaskPriority(t: Task, priority: nat)
      requires Inv(State()) && t in tcb
      modifies this`tcb, this`lists, this`top
      ensures Inv(State()) && State() == old(PrioritySet(State(), t, priority))
      ensures PrioritySetTo(old(State()), State(), t, priority)
    {
      hide PrioritySetTo, Core, Inv, MoveTo;
      PrioritySetEffect(State(), t, priority);
      PrioritySetKeeps(State(), t, priority);
      var n := Capped(priority);
      var entry := tcb[t];
      if entry.basePriority != n {
        if entry.eventValue < EVENT_VALUE_IN_USE {
          tcb := tcb[t := entry.(eventValue := MAX_PRIORITIES - n)];
        }
        ChangePriority(t, if entry.basePriority == entry.priority then n else entry.priority, n);
      }
    }

    // The priority fields and, for a ready task, the ready list.
    method ChangePriority(t: Task, priority: nat, base: nat)
      requires t in tcb
      modifies this`tcb, this`lists, this`top
      ensures State() == old(MoveTo(State(), t, priority, base))
    {
      hide Readied, RemoveState, AddReady;
      if tcb[t].stateIn == In(Ready(tcb[t].priority)) {
        UnlistState(t);
        tcb := tcb[t := tcb[t].(priority := priority, basePriority := base)];
        AddTaskToReadyList(t);
      } else {
        tcb := tcb[t := tcb[t].(priority := priority, basePriority := base)];
      }
    }

    // xTaskPriorityInherit
    method InheritPriority(holder: Task)
      requires Inv(State()) && holder in tcb
      modifies this`tcb, this`lists, this`top
      ensures Inv(State()) && State() == old(PriorityInherit(State(), holder))
      ensures InheritsFrom(old(State()), State(), holder)
    {
      hide InheritsFrom, Core, Inv, MoveTo;
      InvParts(State());
      PriorityInheritKeeps(State(), holder);
      PrioritiesInRange(State(), current);
      InheritEffect(State(), holder);
      var p := tcb[current].priority;
      if tcb[holder].priority < p {
        if tcb[holder].eventValue < EVENT_VALUE_IN_USE {
          tcb := tcb[holder := tcb[holder].(eventValue := MAX_PRIORITIES - p)];
        }
        ChangePriority(holder, p, tcb[holder].basePriority);
      }
    }
  }

  lemma TickIs(s: Kernel)
    requires Partition(s, {})
    ensures var s1 := s.(delivered := s.delivered + 1);
      && Partition(s1, {})
      && TickInterrupt(s) == if s.suspended == 0 then ProcessTick(s1) else s1.(pended := s.pended + 1)
  {
    PartitionFrame(s, s.(delivered := s.delivered + 1), {});
    hide Partition, ProcessTick;
  }

  lemma ListedSomewhere(s: Kernel, t: Task)
    requires Inv(s) && t in s.tcb
    ensures s.tcb[t].stateIn.In?
  {
  }

  lemma SetWakeKeepsTasks(s: Kernel, t: Task, ticks: Tick)
    requires t in s.tcb
    ensures var s1 := SetWake(s, t, ticks);
      t in s1.tcb && s1.tick == s.tick && s1.nextUnblock == s.nextUnblock && s1.list1IsCurrent == s.list1IsCurrent
  {
  }

  lemma CoreSorted(s: Kernel)
    requires Core(s, {}, false)
    ensures Partition(s, {}) && SortedList(s, CurrentDelayed(s))
  {
  }

  // What blocking gives, under what is known of the state it starts from.
  lemma DelayGives(s: Kernel, ticks: Tick, indefinitely: bool)
    requires s.current in s.tcb
    ensures s.tick == Wrap(s.time) ==> Blocks(s, AddToDelayed(s, ticks, indefinitely), ticks, indefinitely)
    ensures Inv(s) && Running(s) && BlockTimeOk(s, ticks) ==> Inv(AddToDelayed(s, ticks, indefinitely))
  {
    hide Inv, Running, BlockTimeOk, Blocks, AddToDelayed, Wrap;
    if s.tick == Wrap(s.time) { DelayBlocks(s, ticks, indefinitely); }
    if Inv(s) && Running(s) && BlockTimeOk(s, ticks) { DelayKeeps(s, ticks, indefinitely); }
  }

  lemma RunningFacts(s: Kernel)
    requires Inv(s) && Running(s)
    ensures s.current in s.tcb && s.tick == Wrap(s.time)
  {
  }

  lemma RemoveKeepsCount(s: Kernel, t: Task)
    requires t in s.tcb
    ensures RemoveEvent(RemoveState(s, t), t).count == s.count
    ensures RemoveEvent(RemoveState(s, t), t).tcb.Keys == s.tcb.Keys
  {
    hide StateList, EventList, Remove;
  }

  lemma ListedHead(s: Kernel, l: ListId)
    requires Partition(s, {}) && |StateList(s, l).items| > 0
    ensures StateList(s, l).items[0] in s.tcb
    ensures s.tcb[StateList(s, l).items[0]].stateIn == In(l)
  {
    assert StateList(s, l).items[0] in StateList(s, l).items;
  }

  lemma WaitingHead(s: Kernel, e: EventId)
    requires EventPartition(s) && |EventList(s, e).items| > 0
    ensures EventList(s, e).items[0] in s.tcb
  {
    assert EventList(s, e).items[0] in EventList(s, e).items;
  }

  lemma DrainStep(s: Kernel)
    requires EventPartition(s) && |EventList(s, PendingReady).items| > 0
    ensures var t := EventList(s, PendingReady).items[0];
      && t in s.tcb && EventPartition(ReadyPending(s, t)) && DrainPending(s) == DrainPending(ReadyPending(s, t))
      && |EventList(ReadyPending(s, t), PendingReady).items| < |EventList(s, PendingReady).items|
  {
    var t := EventList(s, PendingReady).items[0];
    assert t in EventList(s, PendingReady).items;
    ReadyPendingFacts(s, t);
  }

  lemma DrainEnd(s: Kernel)
    requires EventPartition(s) && |EventList(s, PendingReady).items| == 0
    ensures DrainPending(s) == s
  {
  }

  lemma CleanUpEffect(s: Kernel)
    requires s.waitingCleanUp > 0 && s.count > 0 && |StateList(s, Termination).items| > 0
    requires var t := StateList(s, Termination).items[0]; t in s.tcb && s.tcb[t].stateIn == In(Termination)
    ensures CleanUpOne(s).tcb == s.tcb - {StateList(s, Termination).items[0]}
    ensures CleanUpOne(s).current == s.current && CleanUpOne(s).waitingCleanUp == s.waitingCleanUp - 1
  {
    hide StateList;
  }

  lemma NoneTerminated(s: Kernel)
    requires Inv(s) && s.waitingCleanUp == 0
    ensures forall t :: t in s.tcb ==> s.tcb[t].stateIn != In(Termination)
  {
    hide Core;
    InvParts(s);
    NoneListed(s, Termination);
  }
}
