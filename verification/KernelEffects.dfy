// What the blocking and waking calls mean for the task they are about and for every other task.
module KernelEffects {
  import opened TickTime
  import opened ListRing
  import opened KernelState
  import opened KernelKeeps
  import opened KernelSteps
  import opened KernelProof
  import opened KernelTick
  import opened KernelCalls
  import opened KernelRun
  import opened KernelSafety
  import opened KernelFrames
  import RoundRobin

  ghost predicate OthersUntouched(s: Kernel, s': Kernel, t: Task) {
    forall x: Task :: x in s.tcb && x != t ==> Untouched(s, s', x)
  }

  // Only task t's entry has changed: it is now b.
  ghost predicate Becomes(s: Kernel, s': Kernel, t: Task, b: Tcb) { t in s.tcb && s'.tcb == s.tcb[t := b] }

  // ----- Blocking -----

  // The running task is suspended, or waits for true time s.time + ticks on the list of that time's
  // epoch; nobody else is moved.
  ghost predicate Blocks(s: Kernel, s': Kernel, ticks: Tick, indefinitely: bool) {
    var t, w := s.current, s.time + ticks;
    && t in s'.tcb && s'.current == t && s'.time == s.time && OthersUntouched(s, s', t)
    && (if ticks == PORT_MAX_DELAY && indefinitely then s'.tcb[t].stateIn == In(Suspended)
        else
          && t in s'.wake && s'.wake[t] == w && s'.tcb[t].stateValue == Wrap(w)
          && s'.tcb[t].stateIn == In(if Epoch(w) == Epoch(s.time) then CurrentDelayed(s) else OverflowDelayed(s)))
  }

  lemma TimedDelayBlocks(s: Kernel, t: Task, ticks: Tick)
    requires t in s.tcb && s.tick == Wrap(s.time)
    ensures var s', w := TimedDelay(s, t, ticks), s.time + ticks;
      && t in s'.tcb && s'.current == s.current && s'.time == s.time
      && t in s'.wake && s'.wake[t] == w && s'.tcb[t].stateValue == Wrap(w)
      && s'.tcb[t].stateIn == In(if Epoch(w) == Epoch(s.time) then CurrentDelayed(s) else OverflowDelayed(s))
  {
    WakeEpoch(s.time, ticks);
    hide StateList, InsertAt, InsertPos, StateValues, TickAdd, Wrap, Epoch;
  }

  lemma SuspendedBlocks(s: Kernel, t: Task)
    requires t in s.tcb
    ensures var s' := AppendState(s, Suspended, t);
      t in s'.tcb && s'.current == s.current && s'.time == s.time && s'.tcb[t].stateIn == In(Suspended)
  {
  }

  lemma OffItsList(s: Kernel)
    requires s.current in s.tcb
    ensures var s1 := RemoveState(s, s.current);
      && s.current in s1.tcb && s1.current == s.current && s1.tick == s.tick && s1.time == s.time
      && s1.list1IsCurrent == s.list1IsCurrent
  {
  }

  lemma DelayBlocks(s: Kernel, ticks: Tick, indefinitely: bool)
    requires s.current in s.tcb && s.tick == Wrap(s.time)
    ensures Blocks(s, AddToDelayed(s, ticks, indefinitely), ticks, indefinitely)
    ensures AddToDelayed(s, ticks, indefinitely).current == s.current
  {
    hide RemoveState, AppendState, TimedDelay, Untouched, Wrap, Epoch;
    OffItsList(s);
    TimedDelayBlocks(RemoveState(s, s.current), s.current, ticks);
    SuspendedBlocks(RemoveState(s, s.current), s.current);
    forall x: Task | x in s.tcb && x != s.current ensures Untouched(s, AddToDelayed(s, ticks, indefinitely), x) {
      DelayOthers(s, ticks, indefinitely, x);
    }
  }

  // The task's event item is behind those whose value is not greater and before the first that is.
  ghost predicate QueuedInOrder(s: Kernel, s': Kernel, e: EventId, t: Task) {
    exists k: nat :: QueuedAt(s, s', e, t, k)
  }

  ghost predicate QueuedAt(s: Kernel, s': Kernel, e: EventId, t: Task, k: nat) {
    var before, values := EventList(s, e).items, EventValues(s, EventList(s, e));
    && k <= |before| && EventList(s', e).items == before[..k] + [t] + before[k..]
    && t in s.tcb && (forall i :: 0 <= i < k ==> values[i] <= s.tcb[t].eventValue)
    && (k < |before| ==> s.tcb[t].eventValue < values[k])
  }

  lemma InsertEventQueues(s: Kernel, e: EventId, t: Task)
    requires t in s.tcb
    ensures QueuedInOrder(s, InsertEvent(s, e, t), e, t) && t in InsertEvent(s, e, t).tcb
    ensures InsertEvent(s, e, t).tcb[t].eventIn == In(e)
  {
    var k := InsertPos(EventValues(s, EventList(s, e)), s.tcb[t].eventValue);
    assert QueuedAt(s, InsertEvent(s, e, t), e, t, k);
  }

  ghost predicate SameEventItem(s: Kernel, s': Kernel, t: Task) {
    && s'.events == s.events && t in s.tcb && t in s'.tcb
    && s'.tcb[t].eventIn == s.tcb[t].eventIn && s'.tcb[t].eventValue == s.tcb[t].eventValue
  }

  lemma StateMovesLeaveEvents(s: Kernel, t: Task)
    requires t in s.tcb
    ensures SameEventItem(s, RemoveState(s, t), t) && RemoveState(s, t).current == s.current
    ensures SameEventItem(s, AppendState(s, Suspended, t), t)
  {
    hide StateList, Remove, InsertEnd;
  }

  lemma TimedDelayLeavesEvents(s: Kernel, t: Task, ticks: Tick)
    requires t in s.tcb
    ensures SameEventItem(s, TimedDelay(s, t, ticks), t)
  {
    hide StateList, InsertAt, InsertPos, StateValues, TickAdd;
  }

  lemma DelayLeavesEvents(s: Kernel, ticks: Tick, indefinitely: bool)
    requires s.current in s.tcb
    ensures SameEventItem(s, AddToDelayed(s, ticks, indefinitely), s.current)
  {
    hide RemoveState, AppendState, TimedDelay;
    StateMovesLeaveEvents(s, s.current);
    var s1 := RemoveState(s, s.current);
    StateMovesLeaveEvents(s1, s.current);
    TimedDelayLeavesEvents(s1, s.current, ticks);
  }

  lemma SameEvents(s: Kernel, s1: Kernel, s2: Kernel, e: EventId, t: Task)
    requires QueuedInOrder(s, s1, e, t) && s2.events == s1.events
    ensures QueuedInOrder(s, s2, e, t)
  {
    var k: nat :| QueuedAt(s, s1, e, t, k);
    assert QueuedAt(s, s2, e, t, k);
  }

  lemma EventEntersOnly(s: Kernel, s1: Kernel, e: EventId)
    requires s.current in s.tcb && (s1 == InsertEvent(s, e, s.current) || s1 == AppendEvent(s, e, s.current))
    ensures s.current in s1.tcb && s1.current == s.current && s1.tick == s.tick && s1.time == s.time
    ensures s1.list1IsCurrent == s.list1IsCurrent && OthersUntouched(s, s1, s.current)
    ensures s1.tcb[s.current].eventIn == In(e) && s1.tcb[s.current].eventValue == s.tcb[s.current].eventValue
  {
    hide EventList, InsertAt, InsertEnd, InsertPos, EventValues;
  }

  lemma BlocksAfter(s: Kernel, s1: Kernel, s2: Kernel, ticks: Tick, indefinitely: bool)
    requires s1.current == s.current && s1.time == s.time && s1.list1IsCurrent == s.list1IsCurrent
    requires OthersUntouched(s, s1, s.current) && Blocks(s1, s2, ticks, indefinitely)
    ensures Blocks(s, s2, ticks, indefinitely)
  {
    hide Wrap, Epoch;
    forall x: Task | x in s.tcb && x != s.current ensures Untouched(s, s2, x) {
      assert Untouched(s, s1, x) && Untouched(s1, s2, x);
    }
  }

  lemma PlaceBlocks(s: Kernel, e: EventId, ticks: Tick)
    requires s.current in s.tcb && s.tick == Wrap(s.time)
    ensures var s' := PlaceOnEventList(s, e, ticks);
      && Blocks(s, s', ticks, true) && s'.current == s.current && s.current in s'.tcb
      && s'.tcb[s.current].eventIn == In(e) && QueuedInOrder(s, s', e, s.current)
  {
    hide InsertEvent, AddToDelayed, Blocks, OthersUntouched, QueuedInOrder, Wrap;
    var s1 := InsertEvent(s, e, s.current);
    EventEntersOnly(s, s1, e);
    InsertEventQueues(s, e, s.current);
    DelayBlocks(s1, ticks, true);
    DelayLeavesEvents(s1, ticks, true);
    BlocksAfter(s, s1, AddToDelayed(s1, ticks, true), ticks, true);
    SameEvents(s, s1, AddToDelayed(s1, ticks, true), e, s.current);
  }

  lemma PlaceUnorderedBlocks(s: Kernel, e: EventId, value: Tick, ticks: Tick)
    requires s.current in s.tcb && s.tick == Wrap(s.time)
    ensures var s' := PlaceOnUnorderedEventList(s, e, value, ticks);
      && Blocks(s, s', ticks, true) && s'.current == s.current && s.current in s'.tcb
      && s'.tcb[s.current].eventIn == In(e) && s'.tcb[s.current].eventValue == value
      && EventList(s', e) == InsertEnd(EventList(s, e), s.current)
  {
    var s0 := WithEventValue(s, s.current, value);
    assert OthersUntouched(s, s0, s.current);
    assert EventList(AppendEvent(s0, e, s.current), e) == InsertEnd(EventList(s, e), s.current);
    hide AppendEvent, AddToDelayed, Blocks, OthersUntouched, Wrap, InsertEnd;
    var s1 := AppendEvent(s0, e, s.current);
    EventEntersOnly(s0, s1, e);
    DelayBlocks(s1, ticks, true);
    DelayLeavesEvents(s1, ticks, true);
    BlocksAfter(s0, s1, AddToDelayed(s1, ticks, true), ticks, true);
    BlocksAfter(s, s0, AddToDelayed(s1, ticks, true), ticks, true);
  }

  // ----- The cached wake time -----

  // No task of the current list is due before nextUnblock, and unless the list is empty one is due then.
  ghost predicate NextUnblockExact(s: Kernel) {
    && NextUnblockOk(s)
    && ((forall t :: t in s.tcb ==> s.tcb[t].stateIn != In(CurrentDelayed(s))) ==> s.nextUnblock == PORT_MAX_DELAY)
    && ((exists t :: t in s.tcb && s.tcb[t].stateIn == In(CurrentDelayed(s))) ==>
      exists t :: t in s.tcb && s.tcb[t].stateIn == In(CurrentDelayed(s)) && s.tcb[t].stateValue == s.nextUnblock)
  }

  lemma ResetIsExact(s: Kernel)
    requires Partition(s, {}) && SortedList(s, CurrentDelayed(s))
    ensures NextUnblockExact(ResetNextUnblock(s))
  {
    ResetBounds(s, {});
    var l, s' := CurrentDelayed(s), ResetNextUnblock(s);
    var r := StateList(s, l);
    hide SortedList;
    if |r.items| > 0 {
      assert r.items[0] in r.items;
      assert s'.tcb[r.items[0]].stateIn == In(l) && s'.tcb[r.items[0]].stateValue == s'.nextUnblock;
    } else {
      NoneListed(s, l);
    }
  }

  // ----- Waking -----

  lemma ReadyPendingReady(s: Kernel, t: Task)
    requires t in s.tcb && s.tcb[t].stateIn.In?
    ensures IsReady(ReadyPending(s, t), t) && ReadyPending(s, t).tcb[t].eventValue == s.tcb[t].eventValue
    ensures ReadyPending(s, t).tcb[t].priority == s.tcb[t].priority
  {
    hide StateList, EventList, Remove, InsertEnd;
  }

  lemma WakeUnorderedReadies(s: Kernel, t: Task, value: Tick)
    requires t in s.tcb && s.tcb[t].stateIn.In?
    ensures var s' := RemoveFromUnorderedEventList(s, t, value);
      IsReady(s', t) && s'.tcb[t].eventValue == value && OthersUntouched(s, s', t)
  {
    hide Untouched, RemoveState, RemoveEvent, AddReady, IsReady;
    ReadyPendingReady(WithEventValue(s, t, value), t);
    forall x: Task | x in s.tcb && x != t ensures Untouched(s, RemoveFromUnorderedEventList(s, t, value), x) {
      WakeUnorderedOthers(s, t, value, x);
    }
  }

  // The head of an event list leaves it. It is ready, after every other task of its priority; or, while
  // the scheduler is suspended, its event item is on the pending ready list and no state item moves.
  ghost predicate WakesHead(s: Kernel, s': Kernel, e: EventId) {
    var waiting := EventList(s, e).items;
    && waiting != [] && waiting[0] in s.tcb && EventList(s', e).items == waiting[1..]
    && var t := waiting[0];
    && (s.suspended == 0 ==>
          && Becomes(s, s', t, s.tcb[t].(stateIn := In(Ready(s.tcb[t].priority)), eventIn := NotInList))
          && IsReady(s', t)
          && GoesLast(StateList(s, Ready(s.tcb[t].priority)), StateList(s', Ready(s.tcb[t].priority)), t))
    && (s.suspended > 0 ==>
          && Becomes(s, s', t, s.tcb[t].(eventIn := In(PendingReady))) && s'.lists == s.lists
          && t in EventList(s', PendingReady).items)
  }

  lemma WakeEffect(s: Kernel, e: EventId)
    requires Inv(s) && EventList(s, e).items != [] && e != PendingReady
    ensures EventPartition(s) && WakesHead(s, RemoveFromEventList(s, e), e)
  {
    InvParts(s);
    var t := EventList(s, e).items[0];
    assert t in EventList(s, e).items;
    PendingNotTerminated(s, e, t);
    NotOnReadyList(s, t);
    hide Inv, RemoveEvent, RemoveState, AddReady, AppendEvent, Becomes, GoesLast, EventPartition;
    HeadLeaves(s, e);
    if s.suspended == 0 {
      ReadyPendingEntry(s, t, e);
      EndGoesLast(StateList(s, Ready(s.tcb[t].priority)), t);
    } else {
      PendingEntry(s, t, e);
      PendingListed(RemoveEvent(s, t), t);
    }
  }

  lemma NotOnReadyList(s: Kernel, t: Task)
    requires Partition(s, {}) && t in s.tcb && s.tcb[t].stateIn.In? && !s.tcb[t].stateIn.list.Ready?
    ensures RingWf(StateList(s, Ready(s.tcb[t].priority))) && t !in StateList(s, Ready(s.tcb[t].priority)).items
  {
  }

  lemma HeadLeaves(s: Kernel, e: EventId)
    requires EventPartition(s) && EventList(s, e).items != []
    ensures var t := EventList(s, e).items[0];
      && t in s.tcb && t in RemoveEvent(s, t).tcb
      && EventList(RemoveEvent(s, t), e).items == EventList(s, e).items[1..]
  {
    var r := EventList(s, e);
    assert r.items[0] in r.items && Find(r.items, r.items[0]) == 0;
    assert Cut(r.items, 0) == r.items[1..];
  }

  // A waiter that is made ready.
  lemma ReadyPendingEntry(s: Kernel, t: Task, e: EventId)
    requires t in s.tcb && s.tcb[t].stateIn.In? && !s.tcb[t].stateIn.list.Ready? && s.tcb[t].eventIn.In?
    ensures var s', l := ReadyPending(s, t), Ready(s.tcb[t].priority);
      && Becomes(s, s', t, s.tcb[t].(stateIn := In(l), eventIn := NotInList))
      && EventList(s', e) == EventList(RemoveEvent(s, t), e)
      && StateList(s', l) == InsertEnd(StateList(s, l), t) && IsReady(s', t)
  {
    hide InsertEnd, Remove;
  }

  lemma PendingEntry(s: Kernel, t: Task, e: EventId)
    requires t in s.tcb && s.tcb[t].eventIn.In? && t in RemoveEvent(s, t).tcb && e != PendingReady
    ensures var s' := AppendEvent(RemoveEvent(s, t), PendingReady, t);
      && Becomes(s, s', t, s.tcb[t].(eventIn := In(PendingReady))) && s'.lists == s.lists
      && EventList(s', e) == EventList(RemoveEvent(s, t), e)
  {
    hide InsertEnd, Remove;
  }

  // The resumption that brings the suspension count to zero makes every pending task ready.
  lemma ResumeReadiesPending(s: Kernel, t: Task)
    requires Inv(s) && s.suspended == 1 && t in EventList(s, PendingReady).items
    ensures Core(s, {}, false) && IsReady(ResumeAll(s), t)
  {
    InvParts(s);
    CountIsPositive(s);
    PendingNotTerminated(s, PendingReady, t);
    hide Inv, Core, EventPartition, DrainPending, Ticks, ResetNextUnblock, IsReady;
    var s1 := s.(suspended := s.suspended - 1);
    CoreFrame(s, s1, {}, false);
    DrainReadies(s1, t);
    DrainPendingKeeps(s1);
    var s2 := DrainPending(s1);
    ResetNextUnblockKeeps(s2, {}, false);
    ResetIsReady(s2, t);
    var s3 := if |EventList(s1, PendingReady).items| == 0 then s2 else ResetNextUnblock(s2);
    IsReadyIn(s3, t);
    StaysReady(s3, t, s1.pended);
    StillReady(Ticks(s3, s1.pended), t);
  }

  // Each resumption takes back one suspension.
  lemma ResumeCounts(s: Kernel)
    requires Inv(s) && s.suspended > 0
    ensures Core(s, {}, false) && ResumeAll(s).suspended == s.suspended - 1
  {
    hide Inv, Core, Partition, EventPartition, SuspensionOk, CountsOk, FinishResume;
    InvParts(s);
    var s1 := s.(suspended := s.suspended - 1);
    CoreFrame(s, s1, {}, false);
    FinishCounts(s1);
  }

  lemma FinishCounts(s: Kernel)
    requires Core(s, {}, false)
    ensures FinishResume(s).suspended == s.suspended
  {
    FinishResumeKeeps(s);
    hide Core, FinishResume;
  }

  lemma IsReadyIn(s: Kernel, t: Task)
    requires IsReady(s, t)
    ensures t in s.tcb
  {
  }

  lemma StillReady(s: Kernel, t: Task)
    requires IsReady(s, t)
    ensures IsReady(s.(pended := 0), t)
  {
  }

  lemma ResetIsReady(s: Kernel, t: Task)
    requires IsReady(s, t)
    ensures IsReady(ResetNextUnblock(s), t)
  {
  }

  lemma {:induction false} DrainReadies(s: Kernel, t: Task)
    requires Core(s, {}, false) && t in s.tcb && (s.tcb[t].eventIn == In(PendingReady) || IsReady(s, t))
    ensures EventPartition(s) && IsReady(DrainPending(s), t)
    decreases |EventList(s, PendingReady).items|
  {
    CoreParts(s, {}, false);
    hide Core, EventPartition, ReadyPending;
    if EventList(s, PendingReady).items == [] {
      NonePending(s, t);
    } else {
      var h := EventList(s, PendingReady).items[0];
      assert h in EventList(s, PendingReady).items;
      PendingNotTerminated(s, PendingReady, h);
      ReadyPendingFacts(s, h);
      ReadyPendingKeeps(s, h, false);
      hide IsReady;
      ReadyPendingNext(s, h, t);
      DrainReadies(ReadyPending(s, h), t);
    }
  }

  lemma ReadyPendingNext(s: Kernel, h: Task, t: Task)
    requires h in s.tcb && s.tcb[h].stateIn.In? && !s.tcb[h].stateIn.list.Ready? && s.tcb[h].eventIn == In(PendingReady)
    requires t in s.tcb && (s.tcb[t].eventIn == In(PendingReady) || IsReady(s, t))
    ensures var s' := ReadyPending(s, h); t in s'.tcb && (s'.tcb[t].eventIn == In(PendingReady) || IsReady(s', t))
  {
    ReadyPendingEntry(s, h, PendingReady);
    hide ReadyPending;
  }

  lemma NonePending(s: Kernel, t: Task)
    requires EventPartition(s) && EventList(s, PendingReady).items == [] && t in s.tcb
    ensures s.tcb[t].eventIn != In(PendingReady) && DrainPending(s) == s
  {
  }

  // ----- The overflow count -----

  // xNumOfOverflows has gone up by the number of times the counter has wrapped.
  ghost predicate OverflowsCounted(s: Kernel, s': Kernel) {
    s'.overflows - s.overflows == Epoch(s'.time) - Epoch(s.time)
  }

  lemma UnblockOverflows(s: Kernel, t: Task)
    requires t in s.tcb
    ensures Unblock(s, t).overflows == s.overflows && ReadyPending(s, t).overflows == s.overflows
  {
    hide StateList, EventList, Remove, InsertEnd;
  }

  lemma {:induction false} UnblockDueOverflows(s: Kernel)
    requires Core(s, {}, true)
    ensures Partition(s, {}) && UnblockDue(s).overflows == s.overflows
    decreases |StateList(s, CurrentDelayed(s)).items|
  {
    hide Core, Partition, LoopGoesOn, UnblockDue, Unblock;
    CoreParts(s, {}, true);
    if LoopGoesOn(s) {
      LoopStep(s);
      var h := StateList(s, CurrentDelayed(s)).items[0];
      UnblockKeeps(s, h, true);
      UnblockEffect(s, h, h);
      UnblockOverflows(s, h);
      UnblockDueOverflows(Unblock(s, h));
    } else {
      LoopEnds(s);
      ResetKeepsRest(s);
    }
  }

  lemma AdvanceClockOverflows(s: Kernel)
    requires s.tick == Wrap(s.time)
    ensures OverflowsCounted(s, AdvanceClock(s)) && AdvanceClock(s).time == s.time + 1
    ensures AdvanceClock(s).tick == Wrap(s.time + 1)
  {
    hide StateList;
  }

  lemma ClockIsWrapped(s: Kernel)
    requires Core(s, {}, false)
    ensures s.tick == Wrap(s.time)
  {
  }

  // One tick: the overflow count goes up exactly when the counter wraps.
  lemma ProcessTickOverflows(s: Kernel)
    requires Core(s, {}, false)
    ensures Partition(s, {}) && OverflowsCounted(s, ProcessTick(s))
  {
    hide Core, Partition, UnblockDue, AdvanceClock, Wrap, Epoch;
    CoreParts(s, {}, false);
    ClockIsWrapped(s);
    AdvanceClockKeeps(s);
    AdvanceClockOverflows(s);
    ProcessTickBooks(s);
    if AdvanceClock(s).tick >= AdvanceClock(s).nextUnblock { UnblockDueOverflows(AdvanceClock(s)); }
  }

  lemma {:induction false} TicksOverflows(s: Kernel, n: nat)
    requires Core(s, {}, false)
    ensures OverflowsCounted(s, Ticks(s, n))
    decreases n
  {
    hide Core, Partition, Ticks, ProcessTick, Epoch;
    CoreParts(s, {}, false);
    TicksStep(s, n);
    if n > 0 {
      ProcessTickOverflows(s);
      TicksOverflows(ProcessTick(s), n - 1);
    }
  }

  lemma {:induction false} DrainOverflows(s: Kernel)
    requires Core(s, {}, false)
    ensures EventPartition(s) && DrainPending(s).overflows == s.overflows
    decreases |EventList(s, PendingReady).items|
  {
    CoreParts(s, {}, false);
    hide Core, EventPartition, ReadyPending;
    if EventList(s, PendingReady).items != [] {
      var h := EventList(s, PendingReady).items[0];
      assert h in EventList(s, PendingReady).items;
      PendingNotTerminated(s, PendingReady, h);
      ReadyPendingFacts(s, h);
      ReadyPendingKeeps(s, h, false);
      UnblockOverflows(s, h);
      DrainOverflows(ReadyPending(s, h));
    }
  }

  lemma FinishOverflows(s: Kernel)
    requires Core(s, {}, false)
    ensures OverflowsCounted(s, FinishResume(s))
  {
    hide Core, EventPartition, DrainPending, Ticks, ResetNextUnblock, Epoch;
    DrainOverflows(s);
    DrainPendingBooks(s);
    DrainPendingKeeps(s);
    var s1 := DrainPending(s);
    ResetNextUnblockKeeps(s1, {}, false);
    ResetKeepsRest(s1);
    TicksOverflows(if |EventList(s, PendingReady).items| == 0 then s1 else ResetNextUnblock(s1), s.pended);
  }

  // The tick interrupt and xTaskResumeAll, the only calls that move the clock, keep count.
  lemma ClockCallsCount(s: Kernel)
    requires Inv(s)
    ensures Partition(s, {}) && OverflowsCounted(s, TickInterrupt(s))
    ensures s.suspended > 0 ==> Core(s, {}, false) && OverflowsCounted(s, ResumeAll(s))
  {
    hide Inv, Core, ProcessTick, Partition, EventPartition, TimeOk, SuspensionOk, CountsOk, FinishResume, Epoch;
    InvParts(s);
    var s1 := s.(delivered := s.delivered + 1);
    CoreFrame(s, s1, {}, false);
    CoreParts(s1, {}, false);
    if s.suspended == 0 {
      ProcessTickOverflows(s1);
    } else {
      var s2 := s.(suspended := s.suspended - 1);
      CoreFrame(s, s2, {}, false);
      FinishOverflows(s2);
    }
  }

  // ----- Suspending, resuming and deleting a task -----

  // The task is on the suspended list and waits for no event.
  lemma SuspendEffect(s: Kernel, t: Task)
    requires t in s.tcb && s.tcb[t].stateIn.In?
    ensures Becomes(s, TaskSuspend(s, t), t, s.tcb[t].(stateIn := In(Suspended), eventIn := NotInList))
  {
    hide StateList, EventList, Remove, InsertEnd;
  }

  // Only a task that is suspended, waits for no event and is not running is resumed: it becomes ready.
  lemma ResumeEffect(s: Kernel, t: Task)
    requires t in s.tcb
    ensures if t != s.current && s.tcb[t].stateIn == In(Suspended) && s.tcb[t].eventIn.NotInList?
            then Becomes(s, TaskResume(s, t), t, s.tcb[t].(stateIn := In(Ready(s.tcb[t].priority))))
            else TaskResume(s, t) == s
  {
    hide StateList, Remove, InsertEnd;
  }

  // The running task waits on the termination list to be freed; any other task is gone and no longer counted.
  ghost predicate Deleted(s: Kernel, s': Kernel, t: Task) {
    t in s.tcb &&
    if t == s.current
    then && Becomes(s, s', t, s.tcb[t].(stateIn := In(Termination), eventIn := NotInList))
         && s'.count == s.count && s'.waitingCleanUp == s.waitingCleanUp + 1
    else s'.tcb == s.tcb - {t} && s'.count == s.count - 1 && s'.waitingCleanUp == s.waitingCleanUp
  }

  lemma DeleteEffect(s: Kernel, t: Task)
    requires t in s.tcb && s.tcb[t].stateIn.In? && s.count > 0
    ensures Deleted(s, TaskDelete(s, t), t)
  {
    hide StateList, EventList, Remove, InsertEnd;
  }

  // ----- Priorities -----

  // Where a task whose priority changes is listed, and the value its event item is sorted by, which is
  // left alone while an event group uses it.
  function Repositioned(b: Tcb, p: nat): Container<ListId> {
    if b.stateIn == In(Ready(b.priority)) then In(Ready(p)) else b.stateIn
  }

  function SortValue(b: Tcb, p: nat): Tick
    requires p < MAX_PRIORITIES
  {
    if b.eventValue >= EVENT_VALUE_IN_USE then b.eventValue else MAX_PRIORITIES - p
  }

  // vTaskPrioritySet: the own priority is the new one, at most the highest there is; so is the priority,
  // unless one is inherited.
  ghost predicate PrioritySetTo(s: Kernel, s': Kernel, t: Task, newPriority: nat) {
    t in s.tcb &&
    var b, n := s.tcb[t], if newPriority < MAX_PRIORITIES then newPriority else MAX_PRIORITIES - 1;
    var p := if b.basePriority == b.priority then n else b.priority;
    Becomes(s, s', t, if b.basePriority == n then b else
      b.(priority := p, basePriority := n, stateIn := Repositioned(b, p), eventValue := SortValue(b, n)))
  }

  lemma PrioritySetEffect(s: Kernel, t: Task, newPriority: nat)
    requires t in s.tcb
    ensures PrioritySetTo(s, PrioritySet(s, t, newPriority), t, newPriority)
  {
    hide MoveTo, SetEventValue, Becomes, SortValue, Repositioned;
    var b, n := s.tcb[t], if newPriority < MAX_PRIORITIES then newPriority else MAX_PRIORITIES - 1;
    SetThenMoveEffect(s, t, n, if b.basePriority == b.priority then n else b.priority, n);
    Unchanged(s, t);
  }

  lemma SetThenMoveEffect(s: Kernel, t: Task, q: nat, p: nat, base: nat)
    requires t in s.tcb && q < MAX_PRIORITIES
    ensures t in SetEventValue(s, t, q).tcb
    ensures var b := s.tcb[t];
      Becomes(s, MoveTo(SetEventValue(s, t, q), t, p, base), t,
              b.(priority := p, basePriority := base, stateIn := Repositioned(b, p), eventValue := SortValue(b, q)))
  {
    SetEventValueEffect(s, t, q);
    hide MoveTo, SetEventValue;
    MoveToEffect(SetEventValue(s, t, q), t, p, base);
  }

  lemma SetEventValueEffect(s: Kernel, t: Task, q: nat)
    requires t in s.tcb && q < MAX_PRIORITIES
    ensures Becomes(s, SetEventValue(s, t, q), t, s.tcb[t].(eventValue := SortValue(s.tcb[t], q)))
  {
    assert s.tcb[t := s.tcb[t]] == s.tcb;
  }

  lemma MoveToEffect(s: Kernel, t: Task, p: nat, base: nat)
    requires t in s.tcb
    ensures var b := s.tcb[t];
      Becomes(s, MoveTo(s, t, p, base), t, b.(priority := p, basePriority := base, stateIn := Repositioned(b, p)))
  {
    hide StateList, Remove, InsertEnd;
  }

  lemma Unchanged(s: Kernel, t: Task)
    requires t in s.tcb
    ensures Becomes(s, s, t, s.tcb[t])
  {
    assert s.tcb[t := s.tcb[t]] == s.tcb;
  }

  // xTaskPriorityInherit: the priority is the higher of the two tasks', and the own priority stays.
  ghost predicate InheritsFrom(s: Kernel, s': Kernel, holder: Task) {
    holder in s.tcb && s.current in s.tcb && s.tcb[s.current].priority < MAX_PRIORITIES &&
    var b, p := s.tcb[holder], s.tcb[s.current].priority;
    Becomes(s, s', holder, if b.priority >= p then b else
      b.(priority := p, stateIn := Repositioned(b, p), eventValue := SortValue(b, p)))
  }

  lemma InheritEffect(s: Kernel, holder: Task)
    requires holder in s.tcb && s.current in s.tcb && s.tcb[s.current].priority < MAX_PRIORITIES
    ensures InheritsFrom(s, PriorityInherit(s, holder), holder)
  {
    hide MoveTo, SetEventValue, Becomes, SortValue, Repositioned;
    var p := s.tcb[s.current].priority;
    SetThenMoveEffect(s, holder, p, p, s.tcb[holder].basePriority);
    Unchanged(s, holder);
  }

  lemma LowerEffect(s: Kernel, holder: Task, p: nat)
    requires holder in s.tcb && p < MAX_PRIORITIES
    ensures var b := s.tcb[holder];
      Becomes(s, PriorityLower(s, holder, p), holder,
              b.(priority := p, stateIn := Repositioned(b, p), eventValue := SortValue(b, p)))
  {
    hide MoveTo, SetEventValue, Becomes, SortValue, Repositioned;
    SetThenMoveEffect(s, holder, p, p, s.tcb[holder].basePriority);
  }

  // ----- Choosing the task to run -----

  // Priority p is the highest that has ready tasks.
  ghost predicate IsTop(s: Kernel, p: nat) {
    StateList(s, Ready(p)).items != [] && forall q: nat :: q > p ==> StateList(s, Ready(q)).items == []
  }

  // The ready list of priority p has moved on by one: the task that was next runs, and every other on
  // that list is one place closer.
  ghost predicate Rotated(s: Kernel, s': Kernel, p: nat) {
    var r, r' := StateList(s, Ready(p)), StateList(s', Ready(p));
    && r'.items == r.items && RoundRobin.PointsAt(r', s'.current) && s'.current in r.items
    && (forall x :: x in r.items ==> (RoundRobin.Place(r, x) == 1 <==> x == s'.current))
    && (forall x :: x in r.items && x != s'.current ==> RoundRobin.Place(r', x) == RoundRobin.Place(r, x) - 1)
    && s'.tcb == s.tcb && s'.events == s.events
    && (forall l :: l != Ready(p) ==> StateList(s', l) == StateList(s, l))
  }

  // A switch rotates the highest ready list that is not empty, unless the scheduler is suspended or no
  // task is ready; then the same task goes on running.
  ghost predicate SwitchedTo(s: Kernel, s': Kernel) {
    && (s.suspended == 0 ==> forall p: nat :: IsTop(s, p) ==> Rotated(s, s', p))
    && (s.suspended > 0 || (forall q: nat :: StateList(s, Ready(q)).items == []) ==> s' == s)
  }

  lemma SwitchEffect(s: Kernel)
    requires Inv(s)
    ensures SwitchedTo(s, SwitchContext(s))
  {
    hide Inv, Rotated, SwitchContext, StateList, IsTop;
    forall p: nat | s.suspended == 0 && IsTop(s, p) ensures Rotated(s, SwitchContext(s), p) { SwitchRotates(s, p); }
    if s.suspended > 0 || forall q: nat :: StateList(s, Ready(q)).items == [] { SwitchStays(s); }
  }

  lemma SwitchStays(s: Kernel)
    requires s.suspended > 0 || forall q: nat :: StateList(s, Ready(q)).items == []
    ensures SwitchContext(s) == s
  {
    hide StateList;
    assert s.suspended > 0 || StateList(s, Ready(HighestReady(s, s.top))).items == [];
  }

  lemma SwitchRotates(s: Kernel, p: nat)
    requires Inv(s) && s.suspended == 0 && IsTop(s, p)
    ensures Rotated(s, SwitchContext(s), p) && SwitchContext(s).top == p
    ensures StateList(SwitchContext(s), Ready(p)) == Advance(StateList(s, Ready(p)))
  {
    TopIsFound(s, p);
    RingIsWf(s, Ready(p));
    AdvanceRotates(StateList(s, Ready(p)));
    hide Inv, HighestReady, StateList, Advance, RoundRobin.PointsAt, RoundRobin.Place, RingWf, SwitchContext;
    SwitchedLists(s, p);
  }

  lemma RingIsWf(s: Kernel, l: ListId)
    requires Inv(s)
    ensures RingWf(StateList(s, l))
  {
  }

  lemma TopIsFound(s: Kernel, p: nat)
    requires Inv(s) && IsTop(s, p)
    ensures HighestReady(s, s.top) == p
  {
    hide Inv, HighestReady, StateList;
    AboveTopEmpty(s, p);
    HighestReadyIs(s, s.top);
  }

  lemma AdvanceRotates(r: Ring<Task>)
    requires RingWf(r) && r.items != []
    ensures var r' := Advance(r);
      && 0 < r'.index <= |r'.items| && r'.items == r.items
      && RoundRobin.PointsAt(r', Chosen(r')) && Chosen(r') in r.items
      && (forall x :: x in r.items ==> (RoundRobin.Place(r, x) == 1 <==> x == Chosen(r')))
      && (forall x :: x in r.items && x != Chosen(r') ==> RoundRobin.Place(r', x) == RoundRobin.Place(r, x) - 1)
  {
    var r' := Advance(r);
    assert Chosen(r') == r.items[r'.index - 1];
    hide RoundRobin.Place, RingWf;
    forall x | x in r.items
      ensures RoundRobin.Place(r, x) == 1 <==> x == Chosen(r')
      ensures x != Chosen(r') ==> RoundRobin.Place(r', x) == RoundRobin.Place(r, x) - 1
    {
      RoundRobin.SelectionAdvances(r, x);
    }
  }

  lemma SwitchedLists(s: Kernel, p: nat)
    requires s.suspended == 0 && HighestReady(s, s.top) == p
    requires var r := Advance(StateList(s, Ready(p))); 0 < r.index <= |r.items|
    ensures var s', r := SwitchContext(s), Advance(StateList(s, Ready(p)));
      && s'.current == Chosen(r) && StateList(s', Ready(p)) == r && s'.tcb == s.tcb && s'.events == s.events
      && s'.top == p && forall l :: l != Ready(p) ==> StateList(s', l) == StateList(s, l)
  {
    hide HighestReady, Advance;
  }

  // An interrupt resumes only a task that is suspended: it is ready at once, or pending until the
  // scheduler resumes.
  lemma ResumeFromIsrEffect(s: Kernel, t: Task)
    requires t in s.tcb
    ensures var s' := TaskResumeFromIsr(s, t);
      && OthersUntouched(s, s', t) && t in s'.tcb
      && (if !TaskIsSuspended(s, t) then s' == s
          else if s.suspended == 0 then IsReady(s', t)
          else s'.tcb[t] == s.tcb[t].(eventIn := In(PendingReady)) && t in EventList(s', PendingReady).items)
  {
    var s' := TaskResumeFromIsr(s, t);
    if TaskIsSuspended(s, t) {
      if s.suspended == 0 { SuspendedReadied(s, t); } else { PendingListed(s, t); }
    }
    hide Untouched, TaskResumeFromIsr, IsReady, EventList, TaskIsSuspended;
    forall x: Task | x in s.tcb && x != t ensures Untouched(s, s', x) { ResumeOthers(s, t, x); }
  }

  lemma SuspendedReadied(s: Kernel, t: Task)
    requires TaskIsSuspended(s, t)
    ensures t in RemoveState(s, t).tcb && IsReady(AddReady(RemoveState(s, t), t), t)
  {
    hide StateList, Remove, InsertEnd;
  }

  lemma PendingListed(s: Kernel, t: Task)
    requires t in s.tcb
    ensures var s' := AppendEvent(s, PendingReady, t);
      t in s'.tcb && s'.tcb[t] == s.tcb[t].(eventIn := In(PendingReady)) && t in EventList(s', PendingReady).items
  {
    var r := EventList(s, PendingReady);
    var k := if 0 < r.index <= |r.items| then r.index - 1 else |r.items|;
    assert InsertEnd(r, t).items[k] == t;
  }

  // ----- Creating a task -----

  // The new task is ready at its own priority, the highest if it asked for more.
  lemma CreateEffect(s: Kernel, t: Task, priority: nat)
    requires t !in s.tcb
    ensures var s', p := TaskCreate(s, t, priority), if priority < MAX_PRIORITIES then priority else MAX_PRIORITIES - 1;
      && IsReady(s', t) && s'.tcb[t].priority == p && s'.tcb[t].basePriority == p && s'.top >= p
      && s'.tcb == s.tcb[t := Tcb(p, p, In(Ready(p)), 0, NotInList, MAX_PRIORITIES - p)]
      && s'.tcb.Keys == s.tcb.Keys + {t} && OthersUntouched(s, s', t)
  {
    CreatedReady(s, t, priority);
    hide Untouched, TaskCreate, IsReady;
    forall x: Task | x in s.tcb && x != t ensures Untouched(s, TaskCreate(s, t, priority), x) {
      CreateOthers(s, t, priority, x);
    }
  }

  lemma CreatedReady(s: Kernel, t: Task, priority: nat)
    requires t !in s.tcb
    ensures var s', p := TaskCreate(s, t, priority), if priority < MAX_PRIORITIES then priority else MAX_PRIORITIES - 1;
      && IsReady(s', t) && s'.tcb[t].priority == p && s'.tcb[t].basePriority == p && s'.top >= p
      && s'.tcb == s.tcb[t := Tcb(p, p, In(Ready(p)), 0, NotInList, MAX_PRIORITIES - p)]
      && s'.tcb.Keys == s.tcb.Keys + {t}
  {
    hide StateList, InsertEnd;
  }

  // ----- Making ready -----

  // The task is on the ready list of its priority, to be chosen after every other task there save
  // the one pxIndex is at; nobody else is moved, and a task that was between lists leaves none so.
  ghost predicate Readied(s: Kernel, s': Kernel, t: Task)
    requires t in s.tcb
  {
    var l := Ready(s.tcb[t].priority);
    && s'.tcb == s.tcb[t := s.tcb[t].(stateIn := In(l))] && s.top <= s'.top && s.tcb[t].priority <= s'.top
    && OthersUntouched(s, s', t)
    && (RingWf(StateList(s, l)) && t !in StateList(s, l).items ==> GoesLast(StateList(s, l), StateList(s', l), t))
    && (s.tcb[t].eventIn.NotInList? ==> forall due: bool :: Core(s, {t}, due) ==> Core(s', {}, due))
  }

  ghost predicate GoesLast(r: Ring<Task>, r': Ring<Task>, t: Task) {
    && (forall x :: x in r'.items <==> x == t || x in r.items)
    && t in r'.items && RoundRobin.Place(r', t) == |r.items| + (if r.index == 0 then 1 else 0)
  }

  lemma AddReadyEffect(s: Kernel, t: Task)
    requires t in s.tcb
    ensures Readied(s, AddReady(s, t), t)
  {
    var l, s' := Ready(s.tcb[t].priority), AddReady(s, t);
    AddReadyEntry(s, t);
    hide Core, AddReady, OthersUntouched, GoesLast;
    if RingWf(StateList(s, l)) && t !in StateList(s, l).items { EndGoesLast(StateList(s, l), t); }
    if s.tcb[t].eventIn.NotInList? {
      forall due: bool | Core(s, {t}, due) ensures Core(s', {}, due) {
        NoneOut(t);
        AddReadyKeeps(s, {t}, t, due);
      }
    }
  }

  lemma AddReadyEntry(s: Kernel, t: Task)
    requires t in s.tcb
    ensures var s', l := AddReady(s, t), Ready(s.tcb[t].priority);
      && s'.tcb == s.tcb[t := s.tcb[t].(stateIn := In(l))] && s.top <= s'.top && s.tcb[t].priority <= s'.top
      && OthersUntouched(s, s', t) && StateList(s', l) == InsertEnd(StateList(s, l), t)
  {
    hide InsertEnd;
  }

  lemma EndGoesLast(r: Ring<Task>, t: Task)
    requires RingWf(r) && t !in r.items
    ensures GoesLast(r, InsertEnd(r, t), t)
  {
    InsertEndFacts(r, t);
    RoundRobin.ArrivalGoesLast(r, t);
  }
}
