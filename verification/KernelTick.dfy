// Tick processing against unbounded time.
module KernelTick {
  import opened TickTime
  import opened ListRing
  import opened KernelState
  import opened KernelKeeps
  import opened KernelSteps
  import opened KernelProof

  // No task of the current list is due.
  ghost predicate NoneDue(s: Kernel) {
    forall t :: t in s.tcb && s.tcb[t].stateIn == In(CurrentDelayed(s)) ==> s.tick < s.tcb[t].stateValue
  }

  lemma WithNextUnblock(s: Kernel, n: Tick)
    requires Core(s, {}, true) && NoneDue(s) && NextUnblockOk(s.(nextUnblock := n))
    ensures Core(s.(nextUnblock := n), {}, false)
  {
    WithNextUnblockClock(s, n);
    hide Partition, EventPartition, WaitersBlocked, ReadyOk, ClockOk, SortedList, NextUnblockOk, NoneDue;
    var s' := s.(nextUnblock := n);
    PartitionFrame(s, s', {});
    EventPartitionFrame(s, s');
    BlockedFrame(s, s');
    ReadyFrame(s, s');
    SameListSorted(s, s', Delayed1);
    SameListSorted(s, s', Delayed2);
  }

  lemma WithNextUnblockClock(s: Kernel, n: Tick)
    requires ClockOk(s, true) && NoneDue(s)
    ensures ClockOk(s.(nextUnblock := n), false)
  {
    var s' := s.(nextUnblock := n);
    forall t | t in s.tcb && s.tcb[t].stateIn.In? && IsDelayed(s.tcb[t].stateIn.list) ensures OnTime(s', t, false) {
      assert OnTime(s, t, true);
    }
  }

  // After the loop every task still delayed has its time ahead.
  lemma UnblockDueKeeps(s: Kernel)
    requires Core(s, {}, true)
    ensures Core(UnblockDue(s), {}, false)
    decreases |StateList(s, CurrentDelayed(s)).items|
  {
    hide Core, Partition, TimeOk, Unblock;
    CoreParts(s, {}, true);
    var l := CurrentDelayed(s);
    var r := StateList(s, l);
    if |r.items| == 0 {
      EmptyNotDue(s);
      WithNextUnblock(s, PORT_MAX_DELAY);
    } else {
      var t := r.items[0];
      HeadListed(s, l);
      if s.tick < s.tcb[t].stateValue {
        HeadNotDue(s);
        WithNextUnblock(s, s.tcb[t].stateValue);
      } else {
        UnblockShrinks(s, t, l);
        UnblockKeeps(s, t, true);
        SameCurrent(s, t);
        UnblockDueKeeps(Unblock(s, t));
      }
    }
  }

  lemma SameCurrent(s: Kernel, t: Task)
    requires t in s.tcb
    ensures CurrentDelayed(Unblock(s, t)) == CurrentDelayed(s)
  {
  }

  lemma HeadListed(s: Kernel, l: ListId)
    requires Partition(s, {}) && |StateList(s, l).items| > 0
    ensures var t := StateList(s, l).items[0];
      t in s.tcb && t in StateList(s, l).items && s.tcb[t].stateIn == In(l)
  {
    assert StateList(s, l).items[0] in StateList(s, l).items;
  }

  lemma EmptyNotDue(s: Kernel)
    requires Partition(s, {}) && |StateList(s, CurrentDelayed(s)).items| == 0
    ensures NoneDue(s) && NextUnblockOk(s.(nextUnblock := PORT_MAX_DELAY))
  {
    NoneListed(s, CurrentDelayed(s));
  }

  lemma HeadNotDue(s: Kernel)
    requires Partition(s, {}) && TimeOk(s, true) && |StateList(s, CurrentDelayed(s)).items| > 0
    requires var t := StateList(s, CurrentDelayed(s)).items[0]; t in s.tcb && s.tick < s.tcb[t].stateValue
    ensures NoneDue(s)
    ensures NextUnblockOk(s.(nextUnblock := s.tcb[StateList(s, CurrentDelayed(s)).items[0]].stateValue))
  {
    var l := CurrentDelayed(s);
    var t := StateList(s, l).items[0];
    hide ClockOk;
    forall x | x in s.tcb && s.tcb[x].stateIn == In(l) ensures s.tcb[t].stateValue <= s.tcb[x].stateValue {
      HeadIsEarliest(s, l, x);
    }
  }

  lemma NoneLeftAtWrap(s: Kernel, t: Task)
    requires TimeOk(s, false) && s.tick == PORT_MAX_DELAY && t in s.tcb
    ensures s.tcb[t].stateIn != In(CurrentDelayed(s))
  {
  }

  // taskSWITCH_DELAYED_LISTS asserts this.
  lemma SwitchFindsEmptyList(s: Kernel)
    requires Core(s, {}, false) && s.tick == PORT_MAX_DELAY
    ensures StateList(s, CurrentDelayed(s)).items == []
  {
    var r := StateList(s, CurrentDelayed(s));
    forall t ensures t !in r.items {
      if t in s.tcb { NoneLeftAtWrap(s, t); }
    }
    EmptyOrMember(r.items);
  }

  lemma NoneListed(s: Kernel, l: ListId)
    requires Partition(s, {}) && StateList(s, l).items == []
    ensures forall t :: t in s.tcb ==> s.tcb[t].stateIn != In(l)
  {
    forall t | t in s.tcb ensures s.tcb[t].stateIn != In(l) {
      assert s.tcb[t].stateIn.In?;
    }
  }

  // The next tick within an epoch: every wake time keeps its list.
  lemma SameEpochClock(s: Kernel)
    requires ClockOk(s, false) && NextUnblockOk(s) && s.tick != PORT_MAX_DELAY
    ensures ClockOk(StartTick(s), true) && NextUnblockOk(StartTick(s)) && StartTick(s).tick != 0
  {
    var s1 := StartTick(s);
    assert Epoch(s1.time) == Epoch(s.time) && s1.tick == Wrap(s1.time) && s1.tick != 0;
    hide Epoch, Wrap, TickAdd;
    forall t | t in s.tcb && s.tcb[t].stateIn.In? && IsDelayed(s.tcb[t].stateIn.list) ensures OnTime(s1, t, true) {
      assert OnTime(s, t, false);
    }
  }

  function Switched(s: Kernel): Kernel {
    StartTick(s).(list1IsCurrent := !s.list1IsCurrent, overflows := s.overflows + 1)
  }

  // The tick that wraps: with the old current list empty, swapping the lists moves both one epoch on.
  lemma NextEpochClock(s: Kernel)
    requires ClockOk(s, false) && s.tick == PORT_MAX_DELAY
    requires forall t :: t in s.tcb ==> s.tcb[t].stateIn != In(CurrentDelayed(s))
    ensures ClockOk(Switched(s), true) && StartTick(s).tick == 0
  {
    var s2 := Switched(s);
    assert Epoch(s2.time) == Epoch(s.time) + 1 && s2.tick == Wrap(s2.time) == 0;
    hide Epoch, Wrap, TickAdd;
    forall t | t in s.tcb && s.tcb[t].stateIn == In(OverflowDelayed(s)) ensures OnTime(s2, t, true) {
      assert OnTime(s, t, false);
    }
  }

  lemma SameValuesSorted(s: Kernel, s': Kernel, l: ListId)
    requires SortedList(s, l) && s'.tcb == s.tcb && s'.lists == s.lists
    ensures SortedList(s', l)
  {
    assert StateValues(s', StateList(s', l)) == StateValues(s, StateList(s, l));
  }

  lemma AdvanceClockIs(s: Kernel)
    requires s.tick == Wrap(s.time)
    ensures AdvanceClock(s) == if s.tick == PORT_MAX_DELAY then ResetNextUnblock(Switched(s)) else StartTick(s)
  {
    hide ResetNextUnblock;
  }

  lemma SwitchingTime(s: Kernel)
    requires ClockOk(s, false) && SortedList(s, Delayed1) && SortedList(s, Delayed2) && Partition(s, {})
    requires s.tick == PORT_MAX_DELAY && forall t :: t in s.tcb ==> s.tcb[t].stateIn != In(CurrentDelayed(s))
    ensures TimeOk(ResetNextUnblock(Switched(s)), true) && NextUnblockOk(ResetNextUnblock(Switched(s)))
  {
    hide Partition, ClockOk, SortedList, NextUnblockOk, TimeOk, ResetNextUnblock, TickAdd, StartTick;
    NextEpochClock(s);
    StartTickSame(s);
    SameValuesSorted(s, Switched(s), Delayed1);
    SameValuesSorted(s, Switched(s), Delayed2);
    PartitionFrame(s, Switched(s), {});
    ResetNextUnblockTime(Switched(s), {}, true);
  }

  lemma StartTickSame(s: Kernel)
    ensures StartTick(s).tcb == s.tcb && StartTick(s).lists == s.lists
  {
  }

  lemma AdvanceClockTime(s: Kernel)
    requires TimeOk(s, false) && Partition(s, {})
    requires s.tick == PORT_MAX_DELAY ==> StateList(s, CurrentDelayed(s)).items == []
    ensures TimeOk(AdvanceClock(s), true) && NextUnblockOk(AdvanceClock(s))
  {
    ClockShows(s);
    AdvanceClockIs(s);
    hide Partition, ClockOk, SortedList, NextUnblockOk, ResetNextUnblock, AdvanceClock, StartTick, Switched;
    if s.tick == PORT_MAX_DELAY {
      NoneListed(s, CurrentDelayed(s));
      SwitchingTime(s);
    } else {
      SameEpochClock(s);
      StartTickSame(s);
      SameValuesSorted(s, StartTick(s), Delayed1);
      SameValuesSorted(s, StartTick(s), Delayed2);
    }
  }

  lemma ClockShows(s: Kernel)
    requires TimeOk(s, false)
    ensures s.tick == Wrap(s.time)
  {
  }

  lemma AdvanceClockKeeps(s: Kernel)
    requires Core(s, {}, false)
    ensures Core(AdvanceClock(s), {}, true) && NextUnblockOk(AdvanceClock(s))
  {
    if s.tick == PORT_MAX_DELAY { SwitchFindsEmptyList(s); }
    AdvanceClockTime(s);
    AdvanceClockPartition(s);
    AdvanceClockRest(s);
  }

  lemma AdvanceClockRest(s: Kernel)
    requires EventPartition(s) && WaitersBlocked(s) && ReadyOk(s)
    ensures EventPartition(AdvanceClock(s)) && WaitersBlocked(AdvanceClock(s)) && ReadyOk(AdvanceClock(s))
  {
    EventPartitionFrame(s, AdvanceClock(s));
  }

  lemma ProcessTickKeeps(s: Kernel)
    requires Core(s, {}, false)
    ensures Core(ProcessTick(s), {}, false)
  {
    AdvanceClockKeeps(s);
    var s1 := AdvanceClock(s);
    if s1.tick >= s1.nextUnblock {
      UnblockDueKeeps(s1);
    } else {
      WithNextUnblock(s1, s1.nextUnblock);
      assert s1.(nextUnblock := s1.nextUnblock) == s1;
    }
  }

  // ----- Exactly when a delayed task wakes -----

  predicate IsReady(s: Kernel, t: Task) {
    t in s.tcb && s.tcb[t].stateIn == In(Ready(s.tcb[t].priority)) && s.tcb[t].eventIn.NotInList?
  }

  predicate IsTimed(s: Kernel, t: Task) {
    t in s.tcb && s.tcb[t].stateIn.In? && IsDelayed(s.tcb[t].stateIn.list)
  }

  lemma UnblockEffect(s: Kernel, h: Task, t: Task)
    requires h in s.tcb && t in s.tcb && s.tcb[h].stateIn.In?
    ensures Unblock(s, h).tcb.Keys == s.tcb.Keys && Unblock(s, h).wake == s.wake
    ensures Unblock(s, h).tick == s.tick && Unblock(s, h).time == s.time
    ensures CurrentDelayed(Unblock(s, h)) == CurrentDelayed(s)
    ensures if t == h then IsReady(Unblock(s, h), t) else Unblock(s, h).tcb[t] == s.tcb[t]
  {
    hide StateList, EventList, Remove, InsertEnd;
  }

  predicate LoopGoesOn(s: Kernel)
    requires Partition(s, {})
  {
    var r := StateList(s, CurrentDelayed(s));
    |r.items| > 0 && (assert r.items[0] in r.items; s.tick >= s.tcb[r.items[0]].stateValue)
  }

  lemma LoopStep(s: Kernel)
    requires Core(s, {}, true) && LoopGoesOn(s)
    ensures var h := StateList(s, CurrentDelayed(s)).items[0];
      && h in s.tcb && s.tcb[h].stateIn == In(CurrentDelayed(s)) && s.tcb[h].stateValue <= s.tick
      && Partition(Unblock(s, h), {}) && UnblockDue(s) == UnblockDue(Unblock(s, h))
      && |StateList(Unblock(s, h), CurrentDelayed(s)).items| < |StateList(s, CurrentDelayed(s)).items|
  {
    var h := StateList(s, CurrentDelayed(s)).items[0];
    assert h in StateList(s, CurrentDelayed(s)).items;
    UnblockPartition(s, h);
    UnblockShrinks(s, h, CurrentDelayed(s));
  }

  lemma LoopEnds(s: Kernel)
    requires Core(s, {}, true) && !LoopGoesOn(s)
    ensures UnblockDue(s) == ResetNextUnblock(s).(nextUnblock := UnblockDue(s).nextUnblock)
    ensures var r := StateList(s, CurrentDelayed(s));
      UnblockDue(s).nextUnblock
      == if |r.items| == 0 then PORT_MAX_DELAY else (assert r.items[0] in r.items; s.tcb[r.items[0]].stateValue)
  {
  }

  lemma LoopStop(s: Kernel, t: Task)
    requires Core(s, {}, true) && !LoopGoesOn(s) && t in s.tcb
    ensures UnblockDue(s).tcb == s.tcb && UnblockDue(s).wake == s.wake && UnblockDue(s).time == s.time
    ensures s.tcb[t].stateIn == In(CurrentDelayed(s)) ==> s.tick < s.tcb[t].stateValue
  {
    LoopEnds(s);
    CoreParts(s, {}, true);
    hide Core, UnblockDue, Partition, TimeOk;
    if s.tcb[t].stateIn == In(CurrentDelayed(s)) { ListedNotDue(s, t); }
  }

  lemma ListedNotDue(s: Kernel, t: Task)
    requires Partition(s, {}) && TimeOk(s, true) && !LoopGoesOn(s) && t in s.tcb
    requires s.tcb[t].stateIn == In(CurrentDelayed(s))
    ensures s.tick < s.tcb[t].stateValue
  {
    hide ClockOk;
    HeadIsEarliest(s, CurrentDelayed(s), t);
  }

  // The loop readies the tasks of the current list whose value the counter has reached, and no other.
  lemma {:induction false} UnblockDueEffect(s: Kernel, t: Task)
    requires Core(s, {}, true) && t in s.tcb
    ensures UnblockDue(s).tcb.Keys == s.tcb.Keys && UnblockDue(s).wake == s.wake && UnblockDue(s).time == s.time
    ensures if s.tcb[t].stateIn == In(CurrentDelayed(s)) && s.tcb[t].stateValue <= s.tick then IsReady(UnblockDue(s), t)
            else UnblockDue(s).tcb[t] == s.tcb[t]
    decreases |StateList(s, CurrentDelayed(s)).items|
  {
    hide Core, Partition, LoopGoesOn, UnblockDue, Unblock;
    CoreParts(s, {}, true);
    if LoopGoesOn(s) {
      LoopStep(s);
      var h := StateList(s, CurrentDelayed(s)).items[0];
      UnblockKeeps(s, h, true);
      UnblockEffect(s, h, t);
      UnblockDueEffect(Unblock(s, h), t);
    } else {
      LoopStop(s, t);
    }
  }

  // On the current list a true wake time is reached exactly when the counter reaches its value;
  // on the overflow list it is not reached yet.
  lemma DueByValue(s: Kernel, t: Task)
    requires TimeOk(s, true) && IsTimed(s, t)
    ensures s.tcb[t].stateIn == In(CurrentDelayed(s)) && s.tcb[t].stateValue <= s.tick <==> s.wake[t] <= s.time
  {
    assert s.tcb[t].stateIn == In(CurrentDelayed(s)) || s.tcb[t].stateIn == In(OverflowDelayed(s));
    assert OnTime(s, t, true);
  }

  // One tick readies exactly the delayed tasks whose true wake time it reaches.
  lemma TickWakesExactly(s: Kernel, t: Task)
    requires Core(s, {}, false) && t in s.tcb
    ensures ProcessTick(s).time == s.time + 1 && t in ProcessTick(s).tcb && ProcessTick(s).wake == s.wake
    ensures if IsTimed(s, t) && s.wake[t] <= s.time + 1 then IsReady(ProcessTick(s), t)
            else ProcessTick(s).tcb[t] == s.tcb[t]
  {
    hide Core, Partition, TimeOk, NextUnblockOk, UnblockDue, AdvanceClock, IsReady;
    CoreParts(s, {}, false);
    AdvanceClockKeeps(s);
    AdvanceClockSame(s);
    var s1 := AdvanceClock(s);
    CoreParts(s1, {}, true);
    if IsTimed(s1, t) { DueByValue(s1, t); }
    if s1.tick >= s1.nextUnblock { UnblockDueEffect(s1, t); }
    else if s1.tcb[t].stateIn == In(CurrentDelayed(s1)) { NotYetDue(s1, t); }
  }

  lemma AdvanceClockSame(s: Kernel)
    ensures AdvanceClock(s).tcb == s.tcb && AdvanceClock(s).wake == s.wake && AdvanceClock(s).time == s.time + 1
  {
  }

  lemma NotYetDue(s: Kernel, t: Task)
    requires NextUnblockOk(s) && s.tick < s.nextUnblock && t in s.tcb && s.tcb[t].stateIn == In(CurrentDelayed(s))
    ensures s.tick < s.tcb[t].stateValue
  {
  }

  function Ticks(s: Kernel, n: nat): Kernel
    requires Core(s, {}, false)
    decreases n
  {
    if n == 0 then s
    else
      ProcessTickKeeps(s);
      Ticks(ProcessTick(s), n - 1)
  }

  lemma TicksStep(s: Kernel, n: nat)
    requires Core(s, {}, false)
    ensures n == 0 ==> Ticks(s, n) == s
    ensures n > 0 ==> Core(ProcessTick(s), {}, false)
    ensures n > 0 ==> Ticks(s, n) == Ticks(ProcessTick(s), n - 1)
  {
    hide Core, Partition, TimeOk, ProcessTick;
    CoreParts(s, {}, false);
    if n > 0 { ProcessTickKeeps(s); }
  }

  lemma ReadyAfterTick(s: Kernel, t: Task)
    requires Core(s, {}, false) && IsReady(s, t)
    ensures ProcessTick(s).time == s.time + 1 && t in ProcessTick(s).tcb && IsReady(ProcessTick(s), t)
    ensures ProcessTick(s).wake == s.wake
  {
    hide Core, Partition, TimeOk, ProcessTick;
    CoreParts(s, {}, false);
    TickWakesExactly(s, t);
  }

  lemma SameTcbTimed(s: Kernel, s': Kernel, t: Task)
    requires IsTimed(s, t) && t in s'.tcb && s'.tcb[t] == s.tcb[t]
    ensures IsTimed(s', t)
  {
  }

  lemma TimedFacts(s: Kernel, t: Task)
    requires Core(s, {}, false) && IsTimed(s, t)
    ensures t in s.tcb && t in s.wake
  {
    assert OnTime(s, t, false);
  }

  // Left to the clock alone, a delayed task is ready exactly from its true wake time on.
  lemma {:induction false} WakesOnTime(s: Kernel, t: Task, n: nat)
    requires Core(s, {}, false) && IsTimed(s, t)
    ensures Ticks(s, n).time == s.time + n && t in Ticks(s, n).tcb && Ticks(s, n).wake == s.wake
    ensures if n > 0 && s.wake[t] <= s.time + n then IsReady(Ticks(s, n), t)
            else Ticks(s, n).tcb[t] == s.tcb[t]
    decreases n
  {
    hide *;
    CoreParts(s, {}, false);
    TimedFacts(s, t);
    TicksStep(s, n);
    if n > 0 {
      TickWakesExactly(s, t);
      var s1 := ProcessTick(s);
      if s.wake[t] <= s.time + 1 {
        StaysReady(s1, t, n - 1);
      } else {
        SameTcbTimed(s, s1, t);
        WakesOnTime(s1, t, n - 1);
      }
    }
  }

  lemma {:induction false} StaysReady(s: Kernel, t: Task, n: nat)
    requires Core(s, {}, false) && t in s.tcb && IsReady(s, t)
    ensures Ticks(s, n).time == s.time + n && t in Ticks(s, n).tcb && IsReady(Ticks(s, n), t)
    ensures Ticks(s, n).wake == s.wake
    decreases n
  {
    hide *;
    CoreParts(s, {}, false);
    TicksStep(s, n);
    if n > 0 {
      ReadyAfterTick(s, t);
      StaysReady(ProcessTick(s), t, n - 1);
    }
  }
}
