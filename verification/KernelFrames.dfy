// What each kernel call leaves alone: the clock, and the lists of every task it is not about.
module KernelFrames {
  import opened TickTime
  import opened ListRing
  import opened KernelState
  import opened KernelSteps
  import opened KernelCalls
  import opened KernelRun
  import opened KernelSafety
  import opened KernelTheorems

  // Neither the clock nor the places and the wake time of t have changed.
  ghost predicate Untouched(s: Kernel, s': Kernel, t: Task) {
    && s'.time == s.time && t in s.tcb && t in s'.tcb
    && s'.tcb[t].stateIn == s.tcb[t].stateIn && s'.tcb[t].eventIn == s.tcb[t].eventIn
    && (t in s.wake ==> t in s'.wake && s'.wake[t] == s.wake[t])
  }

  ghost predicate OnReadyList(s: Kernel, t: Task) {
    t in s.tcb && s.tcb[t].stateIn.In? && s.tcb[t].stateIn.list.Ready?
  }

  // The calls that move an item of t.
  ghost predicate Moves(s: Kernel, step: Step, t: Task) {
    match step
    case DoDelay(_) => t == s.current
    case DoPlace(_, _) => t == s.current
    case DoPlaceUnordered(_, _, _) => t == s.current
    case DoWake(e) => |EventList(s, Event(e)).items| > 0 && EventList(s, Event(e)).items[0] == t
    case DoWakeUnordered(x, _) => x == t
    case DoSuspend(x) => x == t
    case DoResume(x) => x == t && TaskIsSuspended(s, t)
    case DoResumeFromIsr(x) => x == t && TaskIsSuspended(s, t)
    case DoDelete(x) => x == t
    case DoCleanUp => t in s.tcb && s.tcb[t].stateIn == In(Termination)
    case DoSetPriority(x, _) => x == t && OnReadyList(s, t)
    case DoInherit(x) => x == t && OnReadyList(s, t)
    case DoLower(x, _) => x == t && OnReadyList(s, t)
    case _ => false
  }

  // ----- Moving the items of one task leaves every other task where it is -----

  lemma StateMovesOthers(s: Kernel, x: Task, t: Task, l: ListId)
    requires t in s.tcb && x in s.tcb && x != t
    ensures Untouched(s, RemoveState(s, x), t) && Untouched(s, AppendState(s, l, x), t)
    ensures Untouched(s, InsertState(s, l, x), t)
    ensures x in RemoveState(s, x).tcb && RemoveState(s, x).current == s.current
  {
    hide StateList, InsertAt, InsertEnd, Remove, StateValues, InsertPos;
  }

  lemma EventMovesOthers(s: Kernel, x: Task, t: Task, e: EventId)
    requires t in s.tcb && x in s.tcb && x != t
    ensures Untouched(s, RemoveEvent(s, x), t) && Untouched(s, AppendEvent(s, e, x), t)
    ensures Untouched(s, InsertEvent(s, e, x), t)
    ensures x in RemoveEvent(s, x).tcb && x in AppendEvent(s, e, x).tcb && x in InsertEvent(s, e, x).tcb
    ensures AppendEvent(s, e, x).current == s.current && InsertEvent(s, e, x).current == s.current
  {
    hide EventList, InsertAt, InsertEnd, Remove, EventValues, InsertPos;
  }

  lemma ReadyOthers(s: Kernel, x: Task, t: Task)
    requires t in s.tcb && x in s.tcb && x != t
    ensures Untouched(s, AddReady(s, x), t)
  {
    hide StateList, InsertEnd;
  }

  lemma TimedDelayOthers(s: Kernel, x: Task, ticks: Tick, t: Task)
    requires t in s.tcb && x in s.tcb && x != t
    ensures Untouched(s, TimedDelay(s, x, ticks), t)
  {
    hide StateList, InsertAt, StateValues, InsertPos, TickAdd;
  }

  lemma UntouchedTrans(s: Kernel, s': Kernel, s'': Kernel, t: Task)
    requires Untouched(s, s', t) && Untouched(s', s'', t)
    ensures Untouched(s, s'', t)
  {
  }

  lemma UntouchedIn(s: Kernel, s': Kernel, t: Task)
    requires Untouched(s, s', t)
    ensures t in s.tcb && t in s'.tcb
  {
  }

  lemma DelayOthers(s: Kernel, ticks: Tick, indefinitely: bool, t: Task)
    requires s.current in s.tcb && t in s.tcb && t != s.current
    ensures Untouched(s, AddToDelayed(s, ticks, indefinitely), t)
  {
    hide RemoveState, AppendState, TimedDelay, Untouched;
    StateMovesOthers(s, s.current, t, Suspended);
    var s1 := RemoveState(s, s.current);
    UntouchedIn(s, s1, t);
    StateMovesOthers(s1, s.current, t, Suspended);
    TimedDelayOthers(s1, s.current, ticks, t);
    UntouchedTrans(s, s1, AddToDelayed(s, ticks, indefinitely), t);
  }

  lemma PlaceOthers(s: Kernel, e: EventId, ticks: Tick, t: Task)
    requires s.current in s.tcb && t in s.tcb && t != s.current
    ensures Untouched(s, PlaceOnEventList(s, e, ticks), t)
  {
    hide InsertEvent, AddToDelayed, Untouched;
    EventMovesOthers(s, s.current, t, e);
    var s1 := InsertEvent(s, e, s.current);
    UntouchedIn(s, s1, t);
    DelayOthers(s1, ticks, true, t);
    UntouchedTrans(s, s1, AddToDelayed(s1, ticks, true), t);
  }

  lemma PlaceUnorderedOthers(s: Kernel, e: EventId, value: Tick, ticks: Tick, t: Task)
    requires s.current in s.tcb && t in s.tcb && t != s.current
    ensures Untouched(s, PlaceOnUnorderedEventList(s, e, value, ticks), t)
  {
    var s1 := WithEventValue(s, s.current, value);
    assert Untouched(s, s1, t);
    hide AppendEvent, AddToDelayed, Untouched;
    EventMovesOthers(s1, s.current, t, e);
    var s2 := AppendEvent(s1, e, s.current);
    UntouchedIn(s1, s2, t);
    DelayOthers(s2, ticks, true, t);
    UntouchedTrans(s, s1, s2, t);
    UntouchedTrans(s, s2, AddToDelayed(s2, ticks, true), t);
  }

  // Waking, in both orders the code takes a task off its two lists.
  lemma ReadyPendingOthers(s: Kernel, x: Task, t: Task)
    requires t in s.tcb && x in s.tcb && x != t
    ensures Untouched(s, ReadyPending(s, x), t)
  {
    hide RemoveState, RemoveEvent, AddReady, Untouched, AppendState, AppendEvent;
    EventMovesOthers(s, x, t, PendingReady);
    var s1 := RemoveEvent(s, x);
    UntouchedIn(s, s1, t);
    StateMovesOthers(s1, x, t, Suspended);
    var s2 := RemoveState(s1, x);
    UntouchedIn(s1, s2, t);
    ReadyOthers(s2, x, t);
    UntouchedTrans(s, s1, s2, t);
    UntouchedTrans(s, s2, AddReady(s2, x), t);
  }

  lemma WakeOthers(s: Kernel, e: EventId, t: Task)
    requires EventPartition(s) && |EventList(s, e).items| > 0 && t in s.tcb && EventList(s, e).items[0] != t
    ensures Untouched(s, RemoveFromEventList(s, e), t)
  {
    var x := EventList(s, e).items[0];
    assert x in EventList(s, e).items;
    assert x in s.tcb;
    hide RemoveState, RemoveEvent, AddReady, Untouched, AppendState, AppendEvent, EventPartition, EventList;
    ReadyPendingOthers(s, x, t);
    EventMovesOthers(s, x, t, PendingReady);
    var s1 := RemoveEvent(s, x);
    UntouchedIn(s, s1, t);
    EventMovesOthers(s1, x, t, PendingReady);
    UntouchedTrans(s, s1, AppendEvent(s1, PendingReady, x), t);
  }

  lemma WakeUnorderedOthers(s: Kernel, x: Task, value: Tick, t: Task)
    requires x in s.tcb && t in s.tcb && x != t
    ensures Untouched(s, RemoveFromUnorderedEventList(s, x, value), t)
  {
    var s1 := WithEventValue(s, x, value);
    assert Untouched(s, s1, t);
    hide RemoveState, RemoveEvent, AddReady, Untouched;
    ReadyPendingOthers(s1, x, t);
    UntouchedTrans(s, s1, ReadyPending(s1, x), t);
  }

  lemma SwitchOthers(s: Kernel, t: Task)
    requires t in s.tcb
    ensures Untouched(s, SwitchContext(s), t)
  {
    hide HighestReady, StateList, Advance;
  }

  // Suspending, resuming, creating or deleting another task.
  lemma SuspendOthers(s: Kernel, x: Task, t: Task)
    requires x in s.tcb && t in s.tcb && x != t
    ensures Untouched(s, TaskSuspend(s, x), t)
  {
    hide RemoveState, RemoveEvent, AppendState, AppendEvent, InsertState, InsertEvent, Untouched, ResetNextUnblock;
    StateMovesOthers(s, x, t, Suspended);
    var s1 := RemoveState(s, x);
    UntouchedIn(s, s1, t);
    EventMovesOthers(s1, x, t, PendingReady);
    var s2 := RemoveEvent(s1, x);
    UntouchedIn(s1, s2, t);
    StateMovesOthers(s2, x, t, Suspended);
    var s3 := AppendState(s2, Suspended, x);
    UntouchedIn(s2, s3, t);
    ResetSame(s3, t);
    UntouchedTrans(s, s1, s2, t);
    UntouchedTrans(s, s2, s3, t);
    UntouchedTrans(s, s3, ResetNextUnblock(s3), t);
  }

  lemma ResetSame(s: Kernel, t: Task)
    requires t in s.tcb
    ensures Untouched(s, ResetNextUnblock(s), t) && ResetNextUnblock(s).tcb == s.tcb
  {
  }

  // Resuming a task that is not suspended does nothing.
  lemma ResumeOthers(s: Kernel, x: Task, t: Task)
    requires t in s.tcb && (x != t || !TaskIsSuspended(s, t))
    ensures Untouched(s, TaskResume(s, x), t) && Untouched(s, TaskResumeFromIsr(s, x), t)
  {
    if TaskIsSuspended(s, x) {
      assert x != t;
      hide RemoveState, AddReady, Untouched, AppendState, AppendEvent, InsertState, InsertEvent, RemoveEvent;
      StateMovesOthers(s, x, t, Suspended);
      var s1 := RemoveState(s, x);
      UntouchedIn(s, s1, t);
      ReadyOthers(s1, x, t);
      UntouchedTrans(s, s1, AddReady(s1, x), t);
      EventMovesOthers(s, x, t, PendingReady);
    }
    assert Untouched(s, s, t);
  }

  lemma CreateOthers(s: Kernel, x: Task, priority: nat, t: Task)
    requires x !in s.tcb && t in s.tcb
    ensures Untouched(s, TaskCreate(s, x, priority), t)
  {
    var s1 := NewTcb(s, x, priority);
    assert Untouched(s, s1, t);
    hide AddReady, Untouched;
    ReadyOthers(s1, x, t);
    UntouchedTrans(s, s1, AddReady(s1, x), t);
  }

  lemma DropOthers(s: Kernel, x: Task, t: Task)
    requires x != t && t in s.tcb && s.count > 0
    ensures Untouched(s, DropTcb(s, x), t)
  {
  }

  lemma DeleteOthers(s: Kernel, x: Task, t: Task)
    requires x in s.tcb && t in s.tcb && x != t
    ensures Untouched(s, TaskDelete(s, x), t)
  {
    RemoveKeepsCount'(s, x);
    hide RemoveState, RemoveEvent, AppendState, AppendEvent, InsertState, InsertEvent, Untouched, ResetNextUnblock,
      DropTcb;
    StateMovesOthers(s, x, t, Termination);
    var s1 := RemoveState(s, x);
    UntouchedIn(s, s1, t);
    EventMovesOthers(s1, x, t, PendingReady);
    var s2 := RemoveEvent(s1, x);
    UntouchedIn(s1, s2, t);
    UntouchedTrans(s, s1, s2, t);
    if x == s.current {
      StateMovesOthers(s2, x, t, Termination);
      var s3 := AppendState(s2, Termination, x);
      UntouchedTrans(s, s2, s3, t);
      CleanUpSame(s3, t, s.waitingCleanUp + 1);
      UntouchedTrans(s, s3, s3.(waitingCleanUp := s.waitingCleanUp + 1), t);
    } else if s.count > 0 {
      DropOthers(s2, x, t);
      var s3 := DropTcb(s2, x);
      UntouchedTrans(s, s2, s3, t);
      UntouchedIn(s2, s3, t);
      ResetSame(s3, t);
      UntouchedTrans(s, s3, ResetNextUnblock(s3), t);
    }
  }

  lemma RemoveKeepsCount'(s: Kernel, t: Task)
    requires t in s.tcb
    ensures RemoveEvent(RemoveState(s, t), t).count == s.count
  {
  }

  lemma CleanUpSame(s: Kernel, t: Task, n: nat)
    requires t in s.tcb
    ensures Untouched(s, s.(waitingCleanUp := n), t)
  {
  }

  lemma CleanUpOthers(s: Kernel, t: Task)
    requires Inv(s) && s.waitingCleanUp > 0 && Live(s, s.current) && Live(s, t)
    ensures |StateList(s, Termination).items| > 0 && s.count > 0 && Untouched(s, CleanUpOne(s), t)
  {
    TerminatedHead(s);
    hide Inv, RemoveState, AppendState, InsertState, DropTcb, Untouched;
    var x := StateList(s, Termination).items[0];
    StateMovesOthers(s, x, t, Termination);
    RemoveStateEvent'(s, x);
    var s1 := RemoveState(s, x);
    UntouchedIn(s, s1, t);
    DropOthers(s1, x, t);
    var s2 := DropTcb(s1, x);
    UntouchedIn(s1, s2, t);
    CleanUpSame(s2, t, s.waitingCleanUp - 1);
    UntouchedTrans(s, s1, s2, t);
    UntouchedTrans(s, s2, CleanUpOne(s), t);
  }

  // A change of priority moves no task that is not ready.
  lemma MoveToSame(s: Kernel, x: Task, priority: nat, base: nat, t: Task)
    requires x in s.tcb && t in s.tcb && (x != t || !OnReadyList(s, t))
    ensures Untouched(s, MoveTo(s, x, priority, base), t)
  {
    if s.tcb[x].stateIn == In(Ready(s.tcb[x].priority)) {
      assert x != t;
      hide RemoveState, AddReady, Untouched, AppendState, InsertState;
      StateMovesOthers(s, x, t, Suspended);
      var s1 := RemoveState(s, x);
      UntouchedIn(s, s1, t);
      ReprioritiseSame(s1, x, priority, base, t);
      var s2 := Reprioritise(s1, x, priority, base);
      UntouchedIn(s1, s2, t);
      ReadyOthers(s2, x, t);
      UntouchedTrans(s, s1, s2, t);
      UntouchedTrans(s, s2, AddReady(s2, x), t);
    } else {
      ReprioritiseSame(s, x, priority, base, t);
    }
  }

  lemma ReprioritiseSame(s: Kernel, x: Task, priority: nat, base: nat, t: Task)
    requires x in s.tcb && t in s.tcb
    ensures Untouched(s, Reprioritise(s, x, priority, base), t) && x in Reprioritise(s, x, priority, base).tcb
  {
  }

  lemma EventValueSame(s: Kernel, x: Task, p: nat, t: Task)
    requires x in s.tcb && t in s.tcb
    ensures var s1 := SetEventValue(s, x, p);
      Untouched(s, s1, t) && x in s1.tcb && t in s1.tcb && (OnReadyList(s1, t) <==> OnReadyList(s, t))
  {
  }

  lemma PriorityStepsSame(s: Kernel, x: Task, p: nat, t: Task)
    requires x in s.tcb && t in s.tcb && (x != t || !OnReadyList(s, t))
    ensures Untouched(s, PrioritySet(s, x, p), t) && Untouched(s, PriorityLower(s, x, p), t)
    ensures s.current in s.tcb ==> Untouched(s, PriorityInherit(s, x), t)
  {
    assert Untouched(s, s, t);
    hide SetEventValue, MoveTo, Untouched, OnReadyList;
    forall q: nat, n: nat, b: nat ensures Untouched(s, MoveTo(SetEventValue(s, x, q), x, n, b), t) {
      EventValueSame(s, x, q, t);
      MoveToSame(SetEventValue(s, x, q), x, n, b, t);
      UntouchedTrans(s, SetEventValue(s, x, q), MoveTo(SetEventValue(s, x, q), x, n, b), t);
    }
  }

  // ----- One step -----

  lemma SuspendAllSame(s: Kernel, t: Task)
    requires t in s.tcb
    ensures Untouched(s, SuspendAll(s), t)
  {
  }

  predicate Listing(step: Step) { step.DoSuspend? || step.DoResume? || step.DoResumeFromIsr? || step.DoCreate? }

  lemma ListingKeepsOthers(s: Kernel, step: Step, t: Task)
    requires Inv(s) && Enabled(s, step) && t in s.tcb && !Moves(s, step, t) && Listing(step)
    ensures Untouched(s, ApplyToTask(s, step), t)
  {
    hide Inv, Untouched, TaskSuspend, TaskResume, TaskResumeFromIsr, TaskCreate, TaskDelete, CleanUpOne,
      PrioritySet, PriorityInherit, PriorityLower;
    match step {
      case DoSuspend(x) => SuspendOthers(s, x, t);
      case DoResume(x) => ResumeOthers(s, x, t);
      case DoResumeFromIsr(x) => ResumeOthers(s, x, t);
      case DoCreate(x, p) => CreateOthers(s, x, p, t);
    }
  }

  lemma UnlistingKeepsOthers(s: Kernel, step: Step, t: Task)
    requires Inv(s) && Enabled(s, step) && t in s.tcb && !Moves(s, step, t)
    requires AboutATask(step) && !Listing(step)
    ensures Untouched(s, ApplyToTask(s, step), t)
  {
    hide Inv, Core, Untouched, TaskSuspend, TaskResume, TaskResumeFromIsr, TaskCreate, TaskDelete, CleanUpOne,
      PrioritySet, PriorityInherit, PriorityLower;
    match step {
      case DoDelete(x) => DeleteOthers(s, x, t);
      case DoCleanUp => CleanUpOthers(s, t);
      case DoSetPriority(x, p) => PriorityStepsSame(s, x, p, t);
      case DoInherit(x) => InvCurrent(s); PriorityStepsSame(s, x, 0, t);
      case DoLower(x, p) => PriorityStepsSame(s, x, p, t);
    }
  }

  lemma InvCurrent(s: Kernel)
    requires Inv(s)
    ensures s.current in s.tcb
  {
  }

  predicate Blocking(step: Step) { step.DoSuspendAll? || step.DoDelay? || step.DoPlace? || step.DoPlaceUnordered? }

  lemma BlockingKeepsOthers(s: Kernel, step: Step, t: Task)
    requires Inv(s) && Enabled(s, step) && t in s.tcb && !Moves(s, step, t) && Blocking(step)
    ensures Untouched(s, Apply(s, step), t)
  {
    hide Inv, Core, Untouched, SuspendAll, AddToDelayed, PlaceOnEventList, PlaceOnUnorderedEventList,
      RemoveFromEventList, RemoveFromUnorderedEventList, ApplyToTask, SwitchContext, TickInterrupt, ResumeAll,
      Partition, EventPartition, SuspensionOk, CountsOk;
    InvCurrent(s);
    match step {
      case DoSuspendAll => SuspendAllSame(s, t);
      case DoDelay(ticks) => DelayOthers(s, ticks, false, t);
      case DoPlace(e, ticks) => PlaceOthers(s, Event(e), ticks, t);
      case DoPlaceUnordered(e, v, ticks) => PlaceUnorderedOthers(s, Event(e), v, ticks, t);
    }
  }

  predicate Waking(step: Step) { step.DoWake? || step.DoWakeUnordered? || step.DoSwitch? }

  lemma WakingKeepsOthers(s: Kernel, step: Step, t: Task)
    requires Inv(s) && Enabled(s, step) && t in s.tcb && !Moves(s, step, t) && Waking(step)
    ensures Untouched(s, Apply(s, step), t)
  {
    hide Inv, Core, EventPartition, Partition, Untouched, SuspendAll, AddToDelayed, PlaceOnEventList,
      PlaceOnUnorderedEventList, RemoveFromEventList, RemoveFromUnorderedEventList, ApplyToTask, SwitchContext,
      TickInterrupt, ResumeAll;
    InvParts(s);
    match step {
      case DoWake(e) => WakeOthers(s, Event(e), t);
      case DoWakeUnordered(x, v) => WakeUnorderedOthers(s, x, v, t);
      case DoSwitch => SwitchOthers(s, t);
    }
  }

  // No call but a tick, a resumption of the scheduler and those that move t touches the clock or t.
  lemma StepKeepsOthers(s: Kernel, step: Step, t: Task)
    requires Inv(s) && Enabled(s, step) && t in s.tcb && !Moves(s, step, t) && !MovesClock(step)
    ensures Untouched(s, Apply(s, step), t)
  {
    hide Inv, Untouched, Enabled, ApplyToTask, Moves, Apply;
    if Blocking(step) {
      BlockingKeepsOthers(s, step, t);
    } else if Waking(step) {
      WakingKeepsOthers(s, step, t);
    } else {
      ApplyIsToTask(s, step);
      if Listing(step) { ListingKeepsOthers(s, step, t); } else { UnlistingKeepsOthers(s, step, t); }
    }
  }

  lemma ApplyIsToTask(s: Kernel, step: Step)
    requires Inv(s) && Enabled(s, step) && AboutATask(step)
    ensures Apply(s, step) == ApplyToTask(s, step)
  {
    hide Inv, Enabled, ApplyToTask;
  }
}
