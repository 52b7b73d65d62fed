// The task lists and clock of the kernel as one value, and the primitives every kernel call is made of.
module KernelState {
  import opened TickTime
  import opened ListRing

  const MAX_PRIORITIES: nat := 7

  type Task = nat

  // The lists a task's state item can be on, and those its event item can be on.
  datatype ListId = Ready(priority: nat) | Delayed1 | Delayed2 | Suspended | Termination
  datatype EventId = PendingReady | Event(id: nat)

  // pvContainer of a list item.
  datatype Container<L> = NotInList | In(list: L)

  datatype Tcb = Tcb(
    priority: nat, basePriority: nat,
    stateIn: Container<ListId>, stateValue: Tick,
    eventIn: Container<EventId>, eventValue: Tick)

  datatype Kernel = Kernel(
    tcb: map<Task, Tcb>,
    lists: map<ListId, Ring<Task>>, events: map<EventId, Ring<Task>>,
    current: Task,
    tick: Tick, overflows: nat, nextUnblock: Tick,
    list1IsCurrent: bool,
    suspended: nat, pended: nat, top: nat,
    count: nat, waitingCleanUp: nat,
    // Specification only: unbounded time, ticks delivered by the hardware, unbounded wake times.
    time: nat, delivered: nat, wake: map<Task, nat>)

  function StateList(s: Kernel, l: ListId): Ring<Task> {
    if l in s.lists then s.lists[l] else EmptyRing()
  }

  function EventList(s: Kernel, e: EventId): Ring<Task> {
    if e in s.events then s.events[e] else EmptyRing()
  }

  function CurrentDelayed(s: Kernel): ListId { if s.list1IsCurrent then Delayed1 else Delayed2 }
  function OverflowDelayed(s: Kernel): ListId { if s.list1IsCurrent then Delayed2 else Delayed1 }

  predicate IsDelayed(l: ListId) { l.Delayed1? || l.Delayed2? }

  function StateValues(s: Kernel, r: Ring<Task>): seq<Tick> {
    seq(|r.items|, i requires 0 <= i < |r.items| => if r.items[i] in s.tcb then s.tcb[r.items[i]].stateValue else 0)
  }

  function EventValues(s: Kernel, r: Ring<Task>): seq<Tick> {
    seq(|r.items|, i requires 0 <= i < |r.items| => if r.items[i] in s.tcb then s.tcb[r.items[i]].eventValue else 0)
  }

  // ----- The invariant -----

  ghost predicate RingsOk(s: Kernel) { forall l :: RingWf(StateList(s, l)) }

  ghost predicate ListedOk(s: Kernel) {
    forall l, t :: t in StateList(s, l).items ==> t in s.tcb && s.tcb[t].stateIn == In(l)
  }

  ghost predicate ContainedOk(s: Kernel) {
    forall t :: t in s.tcb && s.tcb[t].stateIn.In? ==> t in StateList(s, s.tcb[t].stateIn.list).items
  }

  ghost predicate OutOk(s: Kernel, d: set<Task>) { forall t :: t in s.tcb ==> (s.tcb[t].stateIn.In? <==> t !in d) }

  // Every list holds exactly the items whose container names it; the tasks in d have
  // their state item in no list, which happens only in the middle of a kernel call.
  ghost predicate Partition(s: Kernel, d: set<Task>) { RingsOk(s) && ListedOk(s) && ContainedOk(s) && OutOk(s, d) }

  ghost predicate EventPartition(s: Kernel) {
    && (forall e :: RingWf(EventList(s, e)))
    && (forall e, t :: t in EventList(s, e).items ==> t in s.tcb && s.tcb[t].eventIn == In(e))
    && (forall t :: t in s.tcb && s.tcb[t].eventIn.In? ==> t in EventList(s, s.tcb[t].eventIn.list).items)
  }

  // A task whose event item is on a list is blocked, not ready.
  ghost predicate WaitersBlocked(s: Kernel) {
    forall t :: t in s.tcb && s.tcb[t].eventIn.In? && s.tcb[t].stateIn.In? ==>
      IsDelayed(s.tcb[t].stateIn.list) || s.tcb[t].stateIn.list == Suspended
  }

  ghost predicate ReadyOk(s: Kernel) {
    && s.top < MAX_PRIORITIES
    && (forall t :: t in s.tcb ==> s.tcb[t].priority < MAX_PRIORITIES && s.tcb[t].basePriority < MAX_PRIORITIES)
    && (forall t :: t in s.tcb && s.tcb[t].stateIn.In? && s.tcb[t].stateIn.list.Ready? ==>
         s.tcb[t].stateIn.list.priority == s.tcb[t].priority <= s.top)
  }

  // A delayed task and its true wake time. Unless the tick is still looking for due tasks, that
  // time lies ahead; the one case in which it is already here is a block time of zero, taken
  // while the counter is not at its maximum.
  ghost predicate OnTime(s: Kernel, t: Task, due: bool)
    requires t in s.tcb
  {
    && t in s.wake
    && s.tcb[t].stateValue == Wrap(s.wake[t])
    && (!due ==> s.wake[t] >= s.time && (s.wake[t] == s.time ==> s.tick != PORT_MAX_DELAY))
  }

  // The two lists against unbounded time.
  ghost predicate ClockOk(s: Kernel, due: bool) {
    && s.tick == Wrap(s.time)
    && (forall t :: t in s.tcb && s.tcb[t].stateIn == In(CurrentDelayed(s)) ==>
         OnTime(s, t, due) && Epoch(s.wake[t]) == Epoch(s.time))
    && (forall t :: t in s.tcb && s.tcb[t].stateIn == In(OverflowDelayed(s)) ==>
         OnTime(s, t, due) && Epoch(s.wake[t]) == Epoch(s.time) + 1)
  }

  // The wake times, the order of the two lists and the cached earliest wake time.
  ghost predicate TimeOk(s: Kernel, due: bool) {
    ClockOk(s, due) && SortedList(s, Delayed1) && SortedList(s, Delayed2) && (!due ==> NextUnblockOk(s))
  }

  ghost predicate NextUnblockOk(s: Kernel) {
    forall t :: t in s.tcb && s.tcb[t].stateIn == In(CurrentDelayed(s)) ==> s.nextUnblock <= s.tcb[t].stateValue
  }

  ghost predicate SortedList(s: Kernel, l: ListId) {
    Sorted(StateValues(s, StateList(s, l)))
  }

  // What the scheduler's suspension count promises between kernel calls.
  ghost predicate SuspensionOk(s: Kernel) {
    && s.delivered == s.time + s.pended
    && (s.suspended == 0 ==> s.pended == 0 && EventList(s, PendingReady).items == [])
  }

  ghost predicate CountsOk(s: Kernel) {
    && s.count == |s.tcb|
    && s.waitingCleanUp == |StateList(s, Termination).items|
  }

  // Everything but the suspension promise and the task count, with the tasks in d between lists.
  ghost predicate Core(s: Kernel, d: set<Task>, due: bool) {
    Partition(s, d) && EventPartition(s) && WaitersBlocked(s) && ReadyOk(s) && TimeOk(s, due)
  }

  ghost predicate Inv(s: Kernel) {
    Core(s, {}, false) && SuspensionOk(s) && CountsOk(s) && s.current in s.tcb
  }

  // ----- Primitives -----

  function SetStateList(s: Kernel, l: ListId, r: Ring<Task>, t: Task, c: Container<ListId>): Kernel
    requires t in s.tcb
  {
    s.(lists := s.lists[l := r], tcb := s.tcb[t := s.tcb[t].(stateIn := c)])
  }

  function SetEventList(s: Kernel, e: EventId, r: Ring<Task>, t: Task, c: Container<EventId>): Kernel
    requires t in s.tcb
  {
    s.(events := s.events[e := r], tcb := s.tcb[t := s.tcb[t].(eventIn := c)])
  }

  // uxListRemove( &( pxTCB->xStateListItem ) )
  function RemoveState(s: Kernel, t: Task): Kernel {
    if t in s.tcb && s.tcb[t].stateIn.In? then
      var l := s.tcb[t].stateIn.list;
      SetStateList(s, l, Remove(StateList(s, l), t), t, NotInList)
    else s
  }

  // if( container of xEventListItem != NULL ) uxListRemove( &( pxTCB->xEventListItem ) )
  function RemoveEvent(s: Kernel, t: Task): Kernel {
    if t in s.tcb && s.tcb[t].eventIn.In? then
      var e := s.tcb[t].eventIn.list;
      SetEventList(s, e, Remove(EventList(s, e), t), t, NotInList)
    else s
  }

  // vListInsertEnd of the state item.
  function AppendState(s: Kernel, l: ListId, t: Task): Kernel
  {
    if t in s.tcb then SetStateList(s, l, InsertEnd(StateList(s, l), t), t, In(l)) else s
  }

  // vListInsertEnd of the event item.
  function AppendEvent(s: Kernel, e: EventId, t: Task): Kernel
  {
    if t in s.tcb then SetEventList(s, e, InsertEnd(EventList(s, e), t), t, In(e)) else s
  }

  // vListInsert of the event item, ordered by its value.
  function InsertEvent(s: Kernel, e: EventId, t: Task): Kernel {
    if t in s.tcb then
      var r := EventList(s, e);
      SetEventList(s, e, InsertAt(r, InsertPos(EventValues(s, r), s.tcb[t].eventValue), t), t, In(e))
    else s
  }

  // vListInsert of the state item, ordered by its value.
  function InsertState(s: Kernel, l: ListId, t: Task): Kernel {
    if t in s.tcb then
      var r := StateList(s, l);
      SetStateList(s, l, InsertAt(r, InsertPos(StateValues(s, r), s.tcb[t].stateValue), t), t, In(l))
    else s
  }

  // prvAddTaskToReadyList
  function AddReady(s: Kernel, t: Task): Kernel
    requires t in s.tcb
  {
    var p := s.tcb[t].priority;
    AppendState(s, Ready(p), t).(top := if p > s.top then p else s.top)
  }

  // prvResetNextTaskUnblockTime
  function ResetNextUnblock(s: Kernel): Kernel {
    var r := StateList(s, CurrentDelayed(s));
    s.(nextUnblock := if |r.items| == 0 then PORT_MAX_DELAY
                      else if r.items[0] in s.tcb then s.tcb[r.items[0]].stateValue else s.nextUnblock)
  }
}
