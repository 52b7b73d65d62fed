// The kernel calls of tasks.c as functions on the kernel's state.
module KernelSteps {
  import opened TickTime
  import opened ListRing
  import opened KernelState
  import opened KernelKeeps

  // ----- Blocking -----

  function SetWake(s: Kernel, t: Task, ticks: Tick): Kernel
    requires t in s.tcb
  {
    s.(tcb := s.tcb[t := s.tcb[t].(stateValue := TickAdd(s.tick, ticks))], wake := s.wake[t := s.time + ticks])
  }

  // prvAddCurrentTaskToDelayedList
  function AddToDelayed(s: Kernel, ticks: Tick, indefinitely: bool): Kernel
    requires s.current in s.tcb
  {
    var s1 := RemoveState(s, s.current);
    if ticks == PORT_MAX_DELAY && indefinitely then AppendState(s1, Suspended, s.current)
    else TimedDelay(s1, s.current, ticks)
  }

  function TimedDelay(s: Kernel, t: Task, ticks: Tick): Kernel
    requires t in s.tcb
  {
    var value := TickAdd(s.tick, ticks);
    var s1 := SetWake(s, t, ticks);
    if value < s.tick then InsertState(s1, OverflowDelayed(s), t)
    else InsertState(s1, CurrentDelayed(s), t).(nextUnblock := if value < s.nextUnblock then value else s.nextUnblock)
  }

  // vTaskPlaceOnEventList
  function PlaceOnEventList(s: Kernel, e: EventId, ticks: Tick): Kernel
    requires s.current in s.tcb
  {
    AddToDelayed(InsertEvent(s, e, s.current), ticks, true)
  }

  // vTaskPlaceOnUnorderedEventList
  function PlaceOnUnorderedEventList(s: Kernel, e: EventId, value: Tick, ticks: Tick): Kernel
    requires s.current in s.tcb
  {
    var s1 := s.(tcb := s.tcb[s.current := s.tcb[s.current].(eventValue := value)]);
    AddToDelayed(AppendEvent(s1, e, s.current), ticks, true)
  }

  // ----- Waking -----

  // Take a blocked task off its state and event lists and make it ready.
  function Unblock(s: Kernel, t: Task): Kernel
    requires t in s.tcb
  {
    AddReady(RemoveEvent(RemoveState(s, t), t), t)
  }

  // xTaskRemoveFromEventList
  function RemoveFromEventList(s: Kernel, e: EventId): Kernel
    requires EventPartition(s) && |EventList(s, e).items| > 0
  {
    var t := EventList(s, e).items[0];
    assert t in EventList(s, e).items;
    if s.suspended == 0 then AddReady(RemoveState(RemoveEvent(s, t), t), t)
    else AppendEvent(RemoveEvent(s, t), PendingReady, t)
  }

  // vTaskRemoveFromUnorderedEventList
  function RemoveFromUnorderedEventList(s: Kernel, t: Task, value: Tick): Kernel
    requires t in s.tcb
  {
    var s1 := s.(tcb := s.tcb[t := s.tcb[t].(eventValue := value)]);
    AddReady(RemoveState(RemoveEvent(s1, t), t), t)
  }

  // ----- Time -----

  // taskSWITCH_DELAYED_LISTS
  function SwitchDelayedLists(s: Kernel): Kernel {
    ResetNextUnblock(s.(list1IsCurrent := !s.list1IsCurrent, overflows := s.overflows + 1))
  }

  // The loop of xTaskIncrementTick that readies every task whose time has come.
  function UnblockDue(s: Kernel): Kernel
    requires Partition(s, {})
    decreases |StateList(s, CurrentDelayed(s)).items|
  {
    var r := StateList(s, CurrentDelayed(s));
    if |r.items| == 0 then s.(nextUnblock := PORT_MAX_DELAY)
    else
      var t := r.items[0];
      assert t in r.items;
      if s.tick < s.tcb[t].stateValue then s.(nextUnblock := s.tcb[t].stateValue)
      else
        UnblockPartition(s, t);
        UnblockShrinks(s, t, CurrentDelayed(s));
        UnblockDue(Unblock(s, t))
  }

  // Readying a task touches no list but its ready list and the one it leaves.
  lemma UnblockLists(s: Kernel, t: Task, l: ListId)
    requires t in s.tcb && !l.Ready?
    ensures StateList(Unblock(s, t), l) == StateList(RemoveState(s, t), l)
  {
    hide RemoveState, InsertEnd, Remove;
    assert t in RemoveState(s, t).tcb ==>
      StateList(RemoveEvent(RemoveState(s, t), t), l) == StateList(RemoveState(s, t), l);
  }

  lemma UnblockShrinks(s: Kernel, t: Task, l: ListId)
    requires t in s.tcb && !l.Ready? && s.tcb[t].stateIn == In(l) && t in StateList(s, l).items
    ensures |StateList(Unblock(s, t), l).items| == |StateList(s, l).items| - 1
  {
    UnblockLists(s, t, l);
  }

  lemma UnblockPartition(s: Kernel, t: Task)
    requires Partition(s, {}) && t in s.tcb
    ensures Partition(Unblock(s, t), {})
  {
    RemoveStatePartition(s, {}, t);
    var s1 := RemoveState(s, t);
    assert {} + {t} == {t} && {t} - {t} == {};
    PartitionFrame(s1, RemoveEvent(s1, t), {t});
    AddReadyPartition(RemoveEvent(s1, t), {t}, t);
  }

  function StartTick(s: Kernel): Kernel {
    s.(tick := TickAdd(s.tick, 1), time := s.time + 1)
  }

  // xTaskIncrementTick while the scheduler runs, up to the search for due tasks.
  function AdvanceClock(s: Kernel): Kernel {
    var s1 := StartTick(s);
    if s1.tick == 0 then SwitchDelayedLists(s1) else s1
  }

  lemma AdvanceClockPartition(s: Kernel)
    requires Partition(s, {})
    ensures Partition(AdvanceClock(s), {})
  {
    PartitionFrame(s, AdvanceClock(s), {});
  }

  // xTaskIncrementTick while the scheduler runs.
  function ProcessTick(s: Kernel): Kernel
    requires Partition(s, {})
  {
    AdvanceClockPartition(s);
    var s1 := AdvanceClock(s);
    if s1.tick >= s1.nextUnblock then UnblockDue(s1) else s1
  }

  // xTaskIncrementTick, called by the tick interrupt.
  function TickInterrupt(s: Kernel): Kernel
    requires Partition(s, {})
  {
    var s1 := s.(delivered := s.delivered + 1);
    PartitionFrame(s, s1, {});
    if s.suspended == 0 then ProcessTick(s1) else s1.(pended := s.pended + 1)
  }

  // ----- Suspending the scheduler -----

  function SuspendAll(s: Kernel): Kernel { s.(suspended := s.suspended + 1) }

  // The loop of xTaskResumeAll that empties the pending ready list.
  function DrainPending(s: Kernel): Kernel
    requires EventPartition(s)
    decreases |EventList(s, PendingReady).items|
  {
    var r := EventList(s, PendingReady);
    if |r.items| == 0 then s
    else
      var t := r.items[0];
      assert t in r.items;
      ReadyPendingFacts(s, t);
      DrainPending(ReadyPending(s, t))
  }

  function ReadyPending(s: Kernel, t: Task): Kernel
    requires t in s.tcb
  {
    AddReady(RemoveState(RemoveEvent(s, t), t), t)
  }

  lemma ReadyPendingFacts(s: Kernel, t: Task)
    requires EventPartition(s) && t in EventList(s, PendingReady).items
    ensures EventPartition(ReadyPending(s, t))
    ensures |EventList(ReadyPending(s, t), PendingReady).items| == |EventList(s, PendingReady).items| - 1
  {
    var r := EventList(s, PendingReady);
    RemoveFacts(r, t);
    EventPartitionLeave(s, PendingReady, Remove(r, t), t);
    EventPartitionFrame(RemoveEvent(s, t), ReadyPending(s, t));
  }
}
