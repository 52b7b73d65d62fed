// Every kernel call keeps the invariant, so every reachable state has it.
module KernelRun {
  import opened TickTime
  import opened ListRing
  import opened KernelState
  import opened KernelKeeps
  import opened KernelSteps
  import opened KernelProof
  import opened KernelTick

  // ----- What lies beside the core -----

  // The counts and the suspension state are as they were, and no task became pending.
  ghost predicate SameBooks(s: Kernel, s': Kernel) {
    && s'.tcb.Keys == s.tcb.Keys && s'.count == s.count && s'.waitingCleanUp == s.waitingCleanUp
    && StateList(s', Termination) == StateList(s, Termination)
    && s'.current == s.current && s'.suspended == s.suspended
    && s'.pended == s.pended && s'.delivered == s.delivered
    && (EventList(s, PendingReady).items == [] ==> EventList(s', PendingReady).items == [])
  }

  lemma BooksTrans(s: Kernel, s': Kernel, s'': Kernel)
    requires SameBooks(s, s') && SameBooks(s', s'')
    ensures SameBooks(s, s'')
  {
  }

  lemma RemoveStateBooks(s: Kernel, t: Task)
    requires t in s.tcb && s.tcb[t].stateIn != In(Termination)
    ensures SameBooks(s, RemoveState(s, t)) && RemoveState(s, t).time == s.time
  {
  }

  lemma RemoveEventBooks(s: Kernel, t: Task)
    requires t in s.tcb
    ensures SameBooks(s, RemoveEvent(s, t)) && RemoveEvent(s, t).time == s.time
    ensures RemoveEvent(s, t).tcb[t].stateIn == s.tcb[t].stateIn
  {
    assert forall r: Ring<Task> :: r.items == [] ==> Remove(r, t) == r;
  }

  lemma AddReadyBooks(s: Kernel, t: Task)
    requires t in s.tcb
    ensures SameBooks(s, AddReady(s, t)) && AddReady(s, t).time == s.time
  {
  }

  lemma UnblockBooks(s: Kernel, t: Task)
    requires t in s.tcb && s.tcb[t].stateIn != In(Termination)
    ensures SameBooks(s, Unblock(s, t)) && Unblock(s, t).time == s.time
  {
    hide *;
    RemoveStateBooks(s, t);
    BooksKeys(s, RemoveState(s, t));
    RemoveEventBooks(RemoveState(s, t), t);
    BooksTrans(s, RemoveState(s, t), RemoveEvent(RemoveState(s, t), t));
    BooksKeys(s, RemoveEvent(RemoveState(s, t), t));
    AddReadyBooks(RemoveEvent(RemoveState(s, t), t), t);
    UnblockIs(s, t);
    BooksTrans(s, RemoveEvent(RemoveState(s, t), t), Unblock(s, t));
  }

  lemma UnblockIs(s: Kernel, t: Task)
    requires t in s.tcb && t in RemoveEvent(RemoveState(s, t), t).tcb
    ensures Unblock(s, t) == AddReady(RemoveEvent(RemoveState(s, t), t), t)
  {
  }

  lemma BooksKeys(s: Kernel, s': Kernel)
    requires SameBooks(s, s')
    ensures s'.tcb.Keys == s.tcb.Keys && s'.pended == s.pended && s'.delivered == s.delivered
  {
  }

  lemma {:induction false} UnblockDueBooks(s: Kernel)
    requires Core(s, {}, true)
    ensures Partition(s, {}) && SameBooks(s, UnblockDue(s)) && UnblockDue(s).time == s.time
    decreases |StateList(s, CurrentDelayed(s)).items|
  {
    hide Core, Partition, LoopGoesOn, UnblockDue, Unblock, SameBooks;
    CoreParts(s, {}, true);
    if LoopGoesOn(s) {
      LoopStep(s);
      var h := StateList(s, CurrentDelayed(s)).items[0];
      UnblockKeeps(s, h, true);
      UnblockBooks(s, h);
      UnblockEffect(s, h, h);
      UnblockDueBooks(Unblock(s, h));
      BooksTrans(s, Unblock(s, h), UnblockDue(s));
    } else {
      LoopStopBooks(s);
    }
  }

  lemma LoopStopBooks(s: Kernel)
    requires Core(s, {}, true) && !LoopGoesOn(s)
    ensures SameBooks(s, UnblockDue(s)) && UnblockDue(s).time == s.time
  {
    LoopEnds(s);
    CoreParts(s, {}, true);
    hide Core, Partition, UnblockDue, LoopGoesOn, TimeOk, EventPartition, ResetNextUnblock;
    NextUnblockBooks(s, UnblockDue(s).nextUnblock);
    ResetKeepsRest(s);
  }

  lemma NextUnblockBooks(s: Kernel, n: Tick)
    ensures SameBooks(s, s.(nextUnblock := n))
  {
  }

  lemma ResetKeepsRest(s: Kernel)
    ensures ResetNextUnblock(s) == s.(nextUnblock := ResetNextUnblock(s).nextUnblock)
  {
  }

  lemma AdvanceClockBooks(s: Kernel)
    ensures SameBooks(s, AdvanceClock(s)) && AdvanceClock(s).time == s.time + 1
  {
  }

  lemma ProcessTickBooks(s: Kernel)
    requires Core(s, {}, false)
    ensures Partition(s, {}) && SameBooks(s, ProcessTick(s)) && ProcessTick(s).time == s.time + 1
  {
    hide Core, Partition, SameBooks, UnblockDue, AdvanceClock;
    CoreParts(s, {}, false);
    AdvanceClockBooks(s);
    AdvanceClockKeeps(s);
    if AdvanceClock(s).tick >= AdvanceClock(s).nextUnblock {
      UnblockDueBooks(AdvanceClock(s));
      BooksTrans(s, AdvanceClock(s), ProcessTick(s));
    }
  }

  lemma {:induction false} TicksKeep(s: Kernel, n: nat)
    requires Core(s, {}, false)
    ensures Core(Ticks(s, n), {}, false) && SameBooks(s, Ticks(s, n)) && Ticks(s, n).time == s.time + n
    decreases n
  {
    hide *;
    CoreParts(s, {}, false);
    TicksStep(s, n);
    if n == 0 {
      SameBooksSelf(s);
    } else {
      ProcessTickBooks(s);
      TicksKeep(ProcessTick(s), n - 1);
      BooksTrans(s, ProcessTick(s), Ticks(s, n));
    }
  }

  lemma SameBooksSelf(s: Kernel)
    ensures SameBooks(s, s)
  {
  }

  lemma InvFromBooks(s: Kernel, s': Kernel)
    requires Inv(s) && SameBooks(s, s') && Core(s', {}, false) && s'.time == s.time
    ensures Inv(s') && s'.delivered == s.delivered && s'.time == s.time
  {
    hide Core;
    assert |s'.tcb| == |s'.tcb.Keys| == |s.tcb.Keys| == |s.tcb|;
  }

  lemma InvParts(s: Kernel)
    requires Inv(s)
    ensures Core(s, {}, false) && SuspensionOk(s) && CountsOk(s) && s.current in s.tcb
    ensures Partition(s, {}) && EventPartition(s)
  {
  }

  // ----- The tick -----

  lemma TickKeeps(s: Kernel)
    requires Inv(s)
    ensures Partition(s, {}) && Inv(TickInterrupt(s)) && TickInterrupt(s).delivered == s.delivered + 1
    ensures s.time <= TickInterrupt(s).time <= s.time + 1
  {
    hide Core, Partition, SameBooks, ProcessTick, TimeOk, EventPartition;
    InvParts(s);
    var s1 := s.(delivered := s.delivered + 1);
    CoreFrame(s, s1, {}, false);
    CoreParts(s1, {}, false);
    if s.suspended == 0 {
      ProcessTickKeeps(s1);
      ProcessTickBooks(s1);
      TickInv(s, s1, ProcessTick(s1));
    } else {
      CoreFrame(s, s1.(pended := s.pended + 1), {}, false);
      assert EventList(s1.(pended := s.pended + 1), PendingReady) == EventList(s, PendingReady);
      assert StateList(s1.(pended := s.pended + 1), Termination) == StateList(s, Termination);
    }
  }

  lemma TickInv(s: Kernel, s1: Kernel, s2: Kernel)
    requires Inv(s) && s1 == s.(delivered := s.delivered + 1) && SameBooks(s1, s2) && s2.time == s.time + 1
    requires Core(s2, {}, false)
    ensures Inv(s2) && s2.delivered == s1.delivered && s2.time == s.time + 1
  {
    hide Core;
    assert |s2.tcb| == |s2.tcb.Keys| == |s.tcb.Keys| == |s.tcb|;
    assert EventList(s1, PendingReady) == EventList(s, PendingReady);
    assert StateList(s1, Termination) == StateList(s, Termination);
  }
}
