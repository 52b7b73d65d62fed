// Every kernel call keeps the invariant.
module KernelProof {
  import opened TickTime
  import opened ListRing
  import opened KernelState
  import opened KernelKeeps
  import opened KernelSteps

  lemma NoneOut(t: Task)
    ensures {} + {t} == {t} && {t} - {t} == {}
  {
  }

  lemma UnblockKeeps(s: Kernel, t: Task, due: bool)
    requires Core(s, {}, due) && t in s.tcb
    ensures Core(Unblock(s, t), {}, due)
  {
    hide Core;
    NoneOut(t);
    RemoveStateKeeps(s, {}, t, due);
    var s1 := RemoveState(s, t);
    RemoveEventKeeps(s1, {t}, t, due);
    AddReadyKeeps(RemoveEvent(s1, t), {t}, t, due);
  }

  lemma ReadyPendingKeeps(s: Kernel, t: Task, due: bool)
    requires Core(s, {}, due) && t in s.tcb
    ensures Core(ReadyPending(s, t), {}, due)
  {
    hide Core;
    NoneOut(t);
    RemoveEventKeeps(s, {}, t, due);
    var s1 := RemoveEvent(s, t);
    RemoveStateKeeps(s1, {}, t, due);
    AddReadyKeeps(RemoveState(s1, t), {t}, t, due);
  }

  // ----- Joining a delayed list -----

  // The condition prvAddCurrentTaskToDelayedList needs of its callers.
  predicate BlockTimeOk(s: Kernel, ticks: Tick) {
    ticks > 0 || s.tick != PORT_MAX_DELAY
  }

  lemma InsertedListSorted(s: Kernel, l: ListId, t: Task)
    requires SortedList(s, l) && t in s.tcb && t !in StateList(s, l).items
    ensures SortedList(InsertState(s, l, t), l)
  {
    var r := StateList(s, l);
    var a := StateValues(s, r);
    var v := s.tcb[t].stateValue;
    var k := InsertPos(a, v);
    var s' := InsertState(s, l, t);
    var b := StateValues(s', StateList(s', l));
    InsertKeepsSorted(a, v);
    hide InsertPos;
    assert b == a[..k] + [v] + a[k..] by {
      forall i | 0 <= i < |b| ensures b[i] == (a[..k] + [v] + a[k..])[i] { }
    }
  }

  // A wrapped wake time is below the counter exactly when the true one lies in the next epoch.
  lemma WakeEpoch(time: nat, ticks: Tick)
    ensures TickAdd(Wrap(time), ticks) == Wrap(time + ticks)
    ensures TickAdd(Wrap(time), ticks) < Wrap(time) ==> Epoch(time + ticks) == Epoch(time) + 1
    ensures TickAdd(Wrap(time), ticks) >= Wrap(time) ==> Epoch(time + ticks) == Epoch(time)
  {
  }

  lemma SetWakeSorted(s: Kernel, t: Task, ticks: Tick, l: ListId)
    requires SortedList(s, l) && t in s.tcb && t !in StateList(s, l).items
    ensures SortedList(SetWake(s, t, ticks), l)
  {
    var s' := SetWake(s, t, ticks);
    assert StateValues(s', StateList(s', l)) == StateValues(s, StateList(s, l));
  }

  lemma SetWakeClock(s: Kernel, t: Task, ticks: Tick)
    requires ClockOk(s, false) && NextUnblockOk(s) && t in s.tcb && s.tcb[t].stateIn.NotInList?
    ensures ClockOk(SetWake(s, t, ticks), false) && NextUnblockOk(SetWake(s, t, ticks))
  {
    hide TickAdd;
    var s' := SetWake(s, t, ticks);
    forall x | x in s'.tcb && s'.tcb[x].stateIn.In? && IsDelayed(s'.tcb[x].stateIn.list)
      ensures x != t && (OnTime(s, x, false) ==> OnTime(s', x, false))
    { }
  }

  lemma SetWakeKeeps(s: Kernel, d: set<Task>, t: Task, ticks: Tick)
    requires Core(s, d, false) && t in s.tcb && t in d
    ensures Core(SetWake(s, t, ticks), d, false)
  {
    OutIsNowhere(s, d, t);
    NotInAnyList(s, d, t, Delayed1);
    NotInAnyList(s, d, t, Delayed2);
    hide Partition, EventPartition, WaitersBlocked, ReadyOk, ClockOk, SortedList, NextUnblockOk, StateList, TickAdd;
    var s' := SetWake(s, t, ticks);
    PartitionFrame(s, s', d);
    EventPartitionFrame(s, s');
    BlockedFrame(s, s');
    ReadyFrame(s, s');
    SetWakeClock(s, t, ticks);
    SetWakeSorted(s, t, ticks, Delayed1);
    SetWakeSorted(s, t, ticks, Delayed2);
  }

  lemma InsertStatePartition(s: Kernel, d: set<Task>, l: ListId, t: Task)
    requires Partition(s, d) && t in s.tcb && t in d
    ensures Partition(InsertState(s, l, t), d - {t})
  {
    NotInAnyList(s, d, t, l);
    hide Partition, InsertAt, RingWf;
    var r := StateList(s, l);
    var k := InsertPos(StateValues(s, r), s.tcb[t].stateValue);
    InsertAtFacts(r, k, t);
    PartitionEnter(s, d, l, InsertAt(r, k, t), t);
  }

  // A task with its wake time set joins the list of that time's epoch, and the cached wake time stays
  // a lower bound.
  ghost predicate MayList(s: Kernel, l: ListId, t: Task, nextUnblock: Tick)
    requires t in s.tcb
  {
    && IsDelayed(l) && OnTime(s, t, false)
    && Epoch(s.wake[t]) == Epoch(s.time) + (if l == CurrentDelayed(s) then 0 else 1)
    && nextUnblock <= s.nextUnblock && (l == CurrentDelayed(s) ==> nextUnblock <= s.tcb[t].stateValue)
  }

  function Listing(s: Kernel, l: ListId, t: Task, nextUnblock: Tick): Kernel {
    InsertState(s, l, t).(nextUnblock := nextUnblock)
  }

  lemma ListingSorted(s: Kernel, l: ListId, t: Task, nextUnblock: Tick, m: ListId)
    requires SortedList(s, m) && t in s.tcb && t !in StateList(s, l).items
    ensures SortedList(Listing(s, l, t, nextUnblock), m)
  {
    var s1 := InsertState(s, l, t);
    if m == l { InsertedListSorted(s, l, t); }
    hide SortedList, InsertPos, InsertAt;
    if m == l { SameListSorted(s1, Listing(s, l, t, nextUnblock), l); }
    else { SameListSorted(s, Listing(s, l, t, nextUnblock), m); }
  }

  lemma ListingEntry(s: Kernel, l: ListId, t: Task, nextUnblock: Tick)
    requires t in s.tcb
    ensures var s' := Listing(s, l, t, nextUnblock);
      && s'.tcb == s.tcb[t := s.tcb[t].(stateIn := In(l))] && s'.events == s.events && s'.top == s.top
      && s'.time == s.time && s'.tick == s.tick && s'.wake == s.wake && s'.list1IsCurrent == s.list1IsCurrent
      && s'.nextUnblock == nextUnblock
  {
  }

  lemma ListingClock(s: Kernel, l: ListId, t: Task, nextUnblock: Tick)
    requires ClockOk(s, false) && NextUnblockOk(s) && t in s.tcb && MayList(s, l, t, nextUnblock)
    ensures ClockOk(Listing(s, l, t, nextUnblock), false) && NextUnblockOk(Listing(s, l, t, nextUnblock))
  {
    ListingEntry(s, l, t, nextUnblock);
    hide Listing, Wrap;
    var s' := Listing(s, l, t, nextUnblock);
    forall x | x in s'.tcb && s'.tcb[x].stateIn.In? && IsDelayed(s'.tcb[x].stateIn.list)
      ensures OnTime(s, x, false) ==> OnTime(s', x, false)
    { }
  }

  lemma ListingRest(s: Kernel, l: ListId, t: Task, nextUnblock: Tick)
    requires EventPartition(s) && WaitersBlocked(s) && ReadyOk(s) && t in s.tcb && IsDelayed(l)
    ensures EventPartition(Listing(s, l, t, nextUnblock)) && WaitersBlocked(Listing(s, l, t, nextUnblock))
    ensures ReadyOk(Listing(s, l, t, nextUnblock))
  {
    ListingEntry(s, l, t, nextUnblock);
    hide Listing, EventPartition;
    EventPartitionFrame(s, Listing(s, l, t, nextUnblock));
  }

  lemma InsertStateKeeps(s: Kernel, d: set<Task>, l: ListId, t: Task, nextUnblock: Tick)
    requires Core(s, d, false) && t in s.tcb && t in d && MayList(s, l, t, nextUnblock)
    ensures Core(Listing(s, l, t, nextUnblock), d - {t}, false)
  {
    NotInAnyList(s, d, t, l);
    hide Partition, EventPartition, WaitersBlocked, ReadyOk, ClockOk, SortedList, NextUnblockOk, InsertState, RingWf;
    InsertStatePartition(s, d, l, t);
    PartitionFrame(InsertState(s, l, t), Listing(s, l, t, nextUnblock), d - {t});
    ListingRest(s, l, t, nextUnblock);
    ListingClock(s, l, t, nextUnblock);
    ListingSorted(s, l, t, nextUnblock, Delayed1);
    ListingSorted(s, l, t, nextUnblock, Delayed2);
  }

  // The timed half of prvAddCurrentTaskToDelayedList, for a task already off its list.
  lemma TimedDelayKeeps(s: Kernel, t: Task, ticks: Tick)
    requires Core(s, {t}, false) && t in s.tcb && BlockTimeOk(s, ticks)
    ensures Core(TimedDelay(s, t, ticks), {}, false)
  {
    hide Core;
    CoreParts(s, {t}, false);
    NoneOut(t);
    WakeEpoch(s.time, ticks);
    SetWakeKeeps(s, {t}, t, ticks);
    var s2 := SetWake(s, t, ticks);
    assert OnTime(s2, t, false);
    var value := TickAdd(s.tick, ticks);
    if value < s.tick {
      InsertStateKeeps(s2, {t}, OverflowDelayed(s), t, s.nextUnblock);
      assert TimedDelay(s, t, ticks) == Listing(s2, OverflowDelayed(s), t, s.nextUnblock);
    } else {
      InsertStateKeeps(s2, {t}, CurrentDelayed(s), t, if value < s.nextUnblock then value else s.nextUnblock);
    }
  }

  lemma AddToDelayedKeeps(s: Kernel, ticks: Tick, indefinitely: bool)
    requires Core(s, {}, false) && s.current in s.tcb && BlockTimeOk(s, ticks)
    ensures Core(AddToDelayed(s, ticks, indefinitely), {}, false)
  {
    hide Core;
    var t := s.current;
    NoneOut(t);
    RemoveStateKeeps(s, {}, t, false);
    if ticks == PORT_MAX_DELAY && indefinitely {
      AppendStateKeeps(RemoveState(s, t), {t}, Suspended, t, false);
    } else {
      TimedDelayKeeps(RemoveState(s, t), t, ticks);
    }
  }
}
