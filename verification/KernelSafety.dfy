// The invariant over every run of kernel calls, and what it gives.
module KernelSafety {
  import opened TickTime
  import opened ListRing
  import opened KernelState
  import opened KernelKeeps
  import opened KernelSteps
  import opened KernelProof
  import opened KernelTick
  import opened KernelCalls
  import opened KernelRun

  // ----- Resuming the scheduler -----

  lemma ReadyPendingBooks(s: Kernel, t: Task)
    requires t in s.tcb && s.tcb[t].stateIn != In(Termination)
    ensures SameBooks(s, ReadyPending(s, t)) && ReadyPending(s, t).time == s.time
  {
    hide SameBooks;
    RemoveEventBooks(s, t);
    var s1 := RemoveEvent(s, t);
    RemoveStateBooks(s1, t);
    var s2 := RemoveState(s1, t);
    AddReadyBooks(s2, t);
    BooksTrans(s, s1, s2);
    BooksTrans(s, s2, AddReady(s2, t));
  }

  lemma PendingNotTerminated(s: Kernel, e: EventId, t: Task)
    requires Core(s, {}, false) && t in EventList(s, e).items
    ensures t in s.tcb && s.tcb[t].stateIn.In? && s.tcb[t].eventIn == In(e)
    ensures IsDelayed(s.tcb[t].stateIn.list) || s.tcb[t].stateIn.list == Suspended
  {
  }

  lemma {:induction false} DrainPendingBooks(s: Kernel)
    requires Core(s, {}, false)
    ensures EventPartition(s) && SameBooks(s, DrainPending(s)) && DrainPending(s).time == s.time
    ensures EventList(DrainPending(s), PendingReady).items == []
    decreases |EventList(s, PendingReady).items|
  {
    hide Core, EventPartition, SameBooks, ReadyPending;
    CoreParts(s, {}, false);
    var r := EventList(s, PendingReady);
    if |r.items| == 0 {
      SameBooksSelf(s);
    } else {
      var t := r.items[0];
      assert t in r.items;
      PendingNotTerminated(s, PendingReady, t);
      ReadyPendingFacts(s, t);
      ReadyPendingKeeps(s, t, false);
      ReadyPendingBooks(s, t);
      DrainPendingBooks(ReadyPending(s, t));
      BooksTrans(s, ReadyPending(s, t), DrainPending(s));
    }
  }

  lemma ResetNextUnblockBooks(s: Kernel)
    ensures SameBooks(s, ResetNextUnblock(s)) && ResetNextUnblock(s).time == s.time
  {
  }

  lemma FinishResumeKeeps(s: Kernel)
    requires Core(s, {}, false)
    ensures Core(FinishResume(s), {}, false)
    ensures FinishResume(s).time == s.time + s.pended && FinishResume(s).pended == 0
    ensures SameBooks(s, FinishResume(s).(pended := s.pended))
    ensures EventList(FinishResume(s), PendingReady).items == []
  {
    hide Core, EventPartition, SameBooks, DrainPending, Ticks, ResetNextUnblock;
    DrainPendingKeeps(s);
    DrainPendingBooks(s);
    var s1 := DrainPending(s);
    ResetNextUnblockKeeps(s1, {}, false);
    ResetNextUnblockBooks(s1);
    var s2 := if |EventList(s, PendingReady).items| == 0 then s1 else ResetNextUnblock(s1);
    BooksTrans(s, s1, ResetNextUnblock(s1));
    BooksKeys(s, s2);
    TicksKeep(s2, s.pended);
    var s3 := Ticks(s2, s.pended);
    BooksTrans(s, s2, s3);
    BooksPending(s1, s2);
    BooksPending(s2, s3);
    CoreFrame(s3, s3.(pended := 0), {}, false);
    assert s3.(pended := 0).(pended := s.pended) == s3 by { BooksKeys(s, s3); }
  }

  lemma BooksPending(s: Kernel, s': Kernel)
    requires EventList(s, PendingReady).items == [] && (s' == s || SameBooks(s, s'))
    ensures EventList(s', PendingReady).items == []
  {
  }

  lemma ResumeAllKeeps(s: Kernel)
    requires Inv(s) && s.suspended > 0
    ensures Inv(ResumeAll(s)) && ResumeAll(s).delivered == s.delivered && ResumeAll(s).time >= s.time
  {
    hide Core, EventPartition, FinishResume, Partition, SameBooks;
    InvParts(s);
    var s1 := s.(suspended := s.suspended - 1);
    CoreFrame(s, s1, {}, false);
    assert StateList(s1, Termination) == StateList(s, Termination);
    CountIsPositive(s);
    if s1.suspended == 0 {
      FinishResumeKeeps(s1);
      ResumeBooks(s, FinishResume(s1));
    }
  }

  // With nothing pended and nothing pending, the counts and the clock are in order.
  lemma ResumeBooks(s: Kernel, s2: Kernel)
    requires Inv(s) && s.suspended == 1 && SameBooks(s.(suspended := 0), s2.(pended := s.pended))
    requires Core(s2, {}, false) && s2.time == s.time + s.pended && s2.pended == 0
    requires EventList(s2, PendingReady).items == []
    ensures Inv(s2) && s2.delivered == s.delivered
  {
    hide Core;
    var s1, s3 := s.(suspended := 0), s2.(pended := s.pended);
    assert |s2.tcb| == |s2.tcb.Keys| == |s.tcb.Keys| == |s.tcb|;
    assert StateList(s1, Termination) == StateList(s, Termination);
    assert StateList(s3, Termination) == StateList(s2, Termination);
  }

  lemma CountIsPositive(s: Kernel)
    requires CountsOk(s) && s.current in s.tcb
    ensures s.count > 0
  {
  }

  // ----- Blocking -----

  lemma AddToDelayedBooks(s: Kernel, ticks: Tick, indefinitely: bool)
    requires Running(s)
    ensures SameBooks(s, AddToDelayed(s, ticks, indefinitely)) && AddToDelayed(s, ticks, indefinitely).time == s.time
  {
    hide SameBooks, AppendState, TimedDelay, RemoveState;
    var t := s.current;
    RemoveStateBooks(s, t);
    RemoveStateCurrent(s);
    var s1 := RemoveState(s, t);
    AppendStateBooks(s1, Suspended, t);
    TimedDelayBooks(s1, t, ticks);
    BooksTrans(s, s1, AddToDelayed(s, ticks, indefinitely));
  }

  lemma RemoveStateCurrent(s: Kernel)
    requires s.current in s.tcb
    ensures s.current in RemoveState(s, s.current).tcb && RemoveState(s, s.current).current == s.current
  {
  }

  lemma AppendStateBooks(s: Kernel, l: ListId, t: Task)
    requires t in s.tcb && l != Termination
    ensures SameBooks(s, AppendState(s, l, t)) && AppendState(s, l, t).time == s.time
  {
  }

  lemma TimedDelayBooks(s: Kernel, t: Task, ticks: Tick)
    requires t in s.tcb
    ensures SameBooks(s, TimedDelay(s, t, ticks)) && TimedDelay(s, t, ticks).time == s.time
  {
    hide InsertAt, InsertPos, StateValues, TickAdd, Remove;
  }

  lemma DelayKeeps(s: Kernel, ticks: Tick, indefinitely: bool)
    requires Inv(s) && Running(s) && BlockTimeOk(s, ticks)
    ensures Inv(AddToDelayed(s, ticks, indefinitely)) && AddToDelayed(s, ticks, indefinitely).delivered == s.delivered
    ensures AddToDelayed(s, ticks, indefinitely).time == s.time
  {
    hide Core, AddToDelayed;
    InvParts(s);
    AddToDelayedKeeps(s, ticks, indefinitely);
    AddToDelayedBooks(s, ticks, indefinitely);
    InvFromBooks(s, AddToDelayed(s, ticks, indefinitely));
  }

  // ----- Waiting on an event list -----

  // The event item joins its list before the state item leaves the ready list; the other order
  // gives the same state, and there the task waits only once it is off the ready list.
  lemma RemoveInsertCommute(s: Kernel, e: EventId)
    requires s.current in s.tcb && s.tcb[s.current].stateIn.In? && s.current in RemoveState(s, s.current).tcb
    ensures RemoveState(InsertEvent(s, e, s.current), s.current) == InsertEvent(RemoveState(s, s.current), e, s.current)
  {
    var t := s.current;
    var s1 := RemoveState(s, t);
    assert EventList(s1, e) == EventList(s, e);
    assert EventValues(s1, EventList(s1, e)) == EventValues(s, EventList(s, e));
    assert StateList(InsertEvent(s, e, t), s.tcb[t].stateIn.list) == StateList(s, s.tcb[t].stateIn.list);
  }

  lemma RemoveAppendCommute(s: Kernel, e: EventId)
    requires s.current in s.tcb && s.tcb[s.current].stateIn.In? && s.current in RemoveState(s, s.current).tcb
    ensures RemoveState(AppendEvent(s, e, s.current), s.current) == AppendEvent(RemoveState(s, s.current), e, s.current)
  {
    var t := s.current;
    assert EventList(RemoveState(s, t), e) == EventList(s, e);
    assert StateList(AppendEvent(s, e, t), s.tcb[t].stateIn.list) == StateList(s, s.tcb[t].stateIn.list);
  }

  // The second half of prvAddCurrentTaskToDelayedList.
  function EnterDelayed(s: Kernel, t: Task, ticks: Tick): Kernel
    requires t in s.tcb
  {
    if ticks == PORT_MAX_DELAY then AppendState(s, Suspended, t) else TimedDelay(s, t, ticks)
  }

  lemma EnterDelayedKeeps(s: Kernel, t: Task, ticks: Tick)
    requires Core(s, {t}, false) && t in s.tcb && BlockTimeOk(s, ticks)
    ensures Core(EnterDelayed(s, t, ticks), {}, false)
    ensures SameBooks(s, EnterDelayed(s, t, ticks)) && EnterDelayed(s, t, ticks).time == s.time
  {
    hide Core, SameBooks, AppendState, TimedDelay;
    NoneOut(t);
    AppendStateBooks(s, Suspended, t);
    TimedDelayBooks(s, t, ticks);
    if ticks == PORT_MAX_DELAY {
      CoreParts(s, {t}, false);
      AppendStateKeeps(s, {t}, Suspended, t, false);
    } else {
      TimedDelayKeeps(s, t, ticks);
    }
  }

  lemma EventInsertBooks(s: Kernel, e: EventId, t: Task)
    requires t in s.tcb && e != PendingReady
    ensures SameBooks(s, InsertEvent(s, e, t)) && InsertEvent(s, e, t).time == s.time
    ensures InsertEvent(s, e, t).tick == s.tick
    ensures SameBooks(s, AppendEvent(s, e, t)) && AppendEvent(s, e, t).time == s.time
    ensures AppendEvent(s, e, t).tick == s.tick
  {
  }

  // The running task, off its ready list, waits for nothing.
  lemma RunningOff(s: Kernel)
    requires Core(s, {}, false) && Running(s)
    ensures var s1 := RemoveState(s, s.current);
      && s.current in s1.tcb && s1.tcb[s.current].stateIn.NotInList? && s1.tcb[s.current].eventIn.NotInList?
      && s1.tick == s.tick && s1.current == s.current
  {
  }

  lemma BlockKeeps(s: Kernel, s2: Kernel, ticks: Tick)
    requires Inv(s) && SameBooks(s, s2) && s2.time == s.time && s2.tick == s.tick && BlockTimeOk(s, ticks)
    requires s.current in s2.tcb && Core(s2, {s.current}, false)
    ensures Inv(EnterDelayed(s2, s.current, ticks)) && EnterDelayed(s2, s.current, ticks).delivered == s.delivered
    ensures EnterDelayed(s2, s.current, ticks).time == s.time
  {
    hide Core, SameBooks, EnterDelayed;
    EnterDelayedKeeps(s2, s.current, ticks);
    BooksTrans(s, s2, EnterDelayed(s2, s.current, ticks));
    InvFromBooks(s, EnterDelayed(s2, s.current, ticks));
  }

  lemma PlaceKeeps(s: Kernel, e: EventId, ticks: Tick)
    requires Inv(s) && Running(s) && BlockTimeOk(s, ticks) && e != PendingReady
    ensures Inv(PlaceOnEventList(s, e, ticks)) && PlaceOnEventList(s, e, ticks).delivered == s.delivered
    ensures PlaceOnEventList(s, e, ticks).time == s.time
  {
    hide Core, SameBooks, EnterDelayed, RemoveState, InsertEvent, EventPartition, Partition;
    InvParts(s);
    var t := s.current;
    NoneOut(t);
    RemoveStateKeeps(s, {}, t, false);
    RemoveStateBooks(s, t);
    RunningOff(s);
    var s1 := RemoveState(s, t);
    InsertEventKeeps(s1, {t}, e, t, false);
    EventInsertBooks(s1, e, t);
    BooksTrans(s, s1, InsertEvent(s1, e, t));
    BooksKeys(s, InsertEvent(s1, e, t));
    RemoveInsertCommute(s, e);
    EventInsertBooks(s, e, t);
    BooksKeys(s, InsertEvent(s, e, t));
    PlaceIs(s, InsertEvent(s, e, t), ticks);
    BlockKeeps(s, InsertEvent(s1, e, t), ticks);
  }

  lemma PlaceIs(s: Kernel, s1: Kernel, ticks: Tick)
    requires s.current in s1.tcb && s1.current == s.current && s.current in RemoveState(s1, s.current).tcb
    ensures AddToDelayed(s1, ticks, true) == EnterDelayed(RemoveState(s1, s.current), s.current, ticks)
  {
  }

  function WithEventValue(s: Kernel, t: Task, value: Tick): Kernel
    requires t in s.tcb
  {
    s.(tcb := s.tcb[t := s.tcb[t].(eventValue := value)])
  }

  lemma WithEventValueCore(s: Kernel, d: set<Task>, t: Task, value: Tick, due: bool)
    requires Core(s, d, due) && t in s.tcb
    ensures Core(WithEventValue(s, t, value), d, due)
  {
    hide Partition, EventPartition, WaitersBlocked, ReadyOk, TimeOk;
    var s' := WithEventValue(s, t, value);
    EventPartitionFrame(s, s');
    BlockedFrame(s, s');
    EventMoveFrame(s, s', d, due);
  }

  lemma WithEventValueBooks(s: Kernel, t: Task, value: Tick)
    requires t in s.tcb
    ensures SameBooks(s, WithEventValue(s, t, value)) && WithEventValue(s, t, value).time == s.time
  {
  }

  lemma WithEventValueKeeps(s: Kernel, t: Task, value: Tick)
    requires Inv(s) && t in s.tcb
    ensures Inv(WithEventValue(s, t, value)) && WithEventValue(s, t, value).delivered == s.delivered
    ensures WithEventValue(s, t, value).time == s.time
  {
    hide Core, Inv, SameBooks, Partition, EventPartition, SuspensionOk, CountsOk;
    InvParts(s);
    WithEventValueCore(s, {}, t, value, false);
    WithEventValueBooks(s, t, value);
    InvFromBooks(s, WithEventValue(s, t, value));
  }

  lemma PlaceUnorderedKeeps(s0: Kernel, e: EventId, value: Tick, ticks: Tick)
    requires Inv(s0) && Running(s0) && BlockTimeOk(s0, ticks) && e != PendingReady
    ensures Inv(PlaceOnUnorderedEventList(s0, e, value, ticks))
    ensures PlaceOnUnorderedEventList(s0, e, value, ticks).delivered == s0.delivered
    ensures PlaceOnUnorderedEventList(s0, e, value, ticks).time == s0.time
  {
    hide Core, SameBooks, EnterDelayed, RemoveState, AppendEvent, EventPartition, Partition, Inv;
    var t := s0.current;
    var s := WithEventValue(s0, t, value);
    WithEventValueKeeps(s0, t, value);
    InvParts(s);
    NoneOut(t);
    RemoveStateKeeps(s, {}, t, false);
    RemoveStateBooks(s, t);
    RunningOff(s);
    var s1 := RemoveState(s, t);
    AppendEventKeeps(s1, {t}, e, t, false);
    EventInsertBooks(s1, e, t);
    BooksTrans(s, s1, AppendEvent(s1, e, t));
    BooksKeys(s, AppendEvent(s1, e, t));
    RemoveAppendCommute(s, e);
    EventInsertBooks(s, e, t);
    BooksKeys(s, AppendEvent(s, e, t));
    PlaceIs(s, AppendEvent(s, e, t), ticks);
    BlockKeeps(s, AppendEvent(s1, e, t), ticks);
  }

  // ----- Waking -----

  lemma WakeKeeps(s: Kernel, e: EventId)
    requires Inv(s) && |EventList(s, e).items| > 0 && e != PendingReady
    ensures EventPartition(s) && Inv(RemoveFromEventList(s, e)) && RemoveFromEventList(s, e).delivered == s.delivered
    ensures RemoveFromEventList(s, e).time == s.time
  {
    hide Core, SameBooks, RemoveState, RemoveEvent, AddReady, AppendEvent, EventPartition, Partition, Inv;
    InvParts(s);
    var t := EventList(s, e).items[0];
    assert t in EventList(s, e).items;
    PendingNotTerminated(s, e, t);
    if s.suspended == 0 {
      ReadyPendingKeeps(s, t, false);
      ReadyPendingBooks(s, t);
      InvFromBooks(s, ReadyPending(s, t));
    } else {
      RemoveEventKeeps(s, {}, t, false);
      RemoveEventBooks(s, t);
      AppendEventKeeps(RemoveEvent(s, t), {}, PendingReady, t, false);
      PendingBooks(s, RemoveEvent(s, t), t);
    }
  }

  // With the scheduler suspended a task may become pending.
  lemma PendingBooks(s: Kernel, s1: Kernel, t: Task)
    requires Inv(s) && s.suspended > 0 && SameBooks(s, s1) && s1.time == s.time && t in s1.tcb
    requires Core(AppendEvent(s1, PendingReady, t), {}, false)
    ensures Inv(AppendEvent(s1, PendingReady, t)) && AppendEvent(s1, PendingReady, t).delivered == s.delivered
    ensures AppendEvent(s1, PendingReady, t).time == s.time
  {
    hide Core;
    var s' := AppendEvent(s1, PendingReady, t);
    assert StateList(s', Termination) == StateList(s1, Termination);
    assert |s'.tcb| == |s'.tcb.Keys| == |s.tcb.Keys| == |s.tcb|;
  }

  lemma WaiterBlocked(s: Kernel, t: Task)
    requires Core(s, {}, false) && t in s.tcb && s.tcb[t].eventIn.In?
    ensures s.tcb[t].stateIn.In? && (IsDelayed(s.tcb[t].stateIn.list) || s.tcb[t].stateIn.list == Suspended)
  {
  }

  lemma WakeUnorderedKeeps(s: Kernel, t: Task, value: Tick)
    requires Inv(s) && t in s.tcb && s.tcb[t].eventIn.In? && s.tcb[t].eventIn.list.Event?
    ensures Inv(RemoveFromUnorderedEventList(s, t, value))
    ensures RemoveFromUnorderedEventList(s, t, value).delivered == s.delivered
    ensures RemoveFromUnorderedEventList(s, t, value).time == s.time
  {
    hide Core, SameBooks, RemoveState, RemoveEvent, AddReady, Inv;
    var s1 := WithEventValue(s, t, value);
    WithEventValueKeeps(s, t, value);
    InvParts(s1);
    WaiterBlocked(s1, t);
    ReadyPendingKeeps(s1, t, false);
    ReadyPendingBooks(s1, t);
    InvFromBooks(s1, ReadyPending(s1, t));
  }

  // ----- Suspending and resuming a task -----

  lemma SuspendKeeps(s: Kernel, t: Task)
    requires Inv(s) && Live(s, t)
    ensures Inv(TaskSuspend(s, t)) && TaskSuspend(s, t).delivered == s.delivered && TaskSuspend(s, t).time == s.time
  {
    hide Core, SameBooks, RemoveState, RemoveEvent, AppendState, ResetNextUnblock, Inv;
    InvParts(s);
    NoneOut(t);
    RemoveStateKeeps(s, {}, t, false);
    RemoveStateBooks(s, t);
    var s1 := RemoveState(s, t);
    BooksKeys(s, s1);
    RemoveEventKeeps(s1, {t}, t, false);
    RemoveEventBooks(s1, t);
    var s2 := RemoveEvent(s1, t);
    BooksKeys(s1, s2);
    AppendStateKeeps(s2, {t}, Suspended, t, false);
    AppendStateBooks(s2, Suspended, t);
    var s3 := AppendState(s2, Suspended, t);
    ResetNextUnblockKeeps(s3, {}, false);
    ResetNextUnblockBooks(s3);
    BooksTrans(s, s1, s2);
    BooksTrans(s, s2, s3);
    BooksTrans(s, s3, ResetNextUnblock(s3));
    InvFromBooks(s, ResetNextUnblock(s3));
  }

  lemma ReadySuspendedKeeps(s: Kernel, t: Task)
    requires Inv(s) && TaskIsSuspended(s, t)
    ensures t in RemoveState(s, t).tcb && Inv(AddReady(RemoveState(s, t), t))
    ensures AddReady(RemoveState(s, t), t).delivered == s.delivered
    ensures AddReady(RemoveState(s, t), t).time == s.time
  {
    hide Core, SameBooks, RemoveState, AddReady, Inv;
    InvParts(s);
    NoneOut(t);
    RemoveStateKeeps(s, {}, t, false);
    RemoveStateBooks(s, t);
    var s1 := RemoveState(s, t);
    BooksKeys(s, s1);
    RemoveStateEvent(s, t);
    AddReadyKeeps(s1, {t}, t, false);
    AddReadyBooks(s1, t);
    BooksTrans(s, s1, AddReady(s1, t));
    InvFromBooks(s, AddReady(s1, t));
  }

  lemma RemoveStateEvent(s: Kernel, t: Task)
    requires t in s.tcb && t in RemoveState(s, t).tcb
    ensures RemoveState(s, t).tcb[t].eventIn == s.tcb[t].eventIn
  {
  }

  lemma ResumeKeeps(s: Kernel, t: Task)
    requires Inv(s)
    ensures Inv(TaskResume(s, t)) && TaskResume(s, t).delivered == s.delivered && TaskResume(s, t).time == s.time
    ensures Inv(TaskResumeFromIsr(s, t)) && TaskResumeFromIsr(s, t).delivered == s.delivered
    ensures TaskResumeFromIsr(s, t).time == s.time
  {
    hide Core, SameBooks, RemoveState, AddReady, AppendEvent, Inv;
    InvParts(s);
    if TaskIsSuspended(s, t) {
      ReadySuspendedKeeps(s, t);
      if s.suspended > 0 {
        AppendEventKeeps(s, {}, PendingReady, t, false);
        SameBooksSelf(s);
        PendingBooks(s, s, t);
      }
    }
  }

  // ----- Creating and deleting a task -----

  lemma NewTcbPartition(s: Kernel, t: Task, priority: nat)
    requires Partition(s, {}) && EventPartition(s) && t !in s.tcb
    ensures Partition(NewTcb(s, t, priority), {t}) && EventPartition(NewTcb(s, t, priority))
  {
    NewTcbListed(s, t, priority);
    NewTcbWaiting(s, t, priority);
  }

  lemma NewTcbListed(s: Kernel, t: Task, priority: nat)
    requires Partition(s, {}) && t !in s.tcb
    ensures Partition(NewTcb(s, t, priority), {t})
  {
    assert forall l :: StateList(NewTcb(s, t, priority), l) == StateList(s, l);
    hide RingWf;
  }

  lemma NewTcbWaiting(s: Kernel, t: Task, priority: nat)
    requires EventPartition(s) && t !in s.tcb
    ensures EventPartition(NewTcb(s, t, priority))
  {
    assert forall e :: EventList(NewTcb(s, t, priority), e) == EventList(s, e);
    hide RingWf;
  }

  lemma NewTcbRest(s: Kernel, t: Task, priority: nat)
    requires WaitersBlocked(s) && ReadyOk(s) && t !in s.tcb
    ensures WaitersBlocked(NewTcb(s, t, priority)) && ReadyOk(NewTcb(s, t, priority))
  {
  }

  lemma NewTcbCore(s: Kernel, t: Task, priority: nat)
    requires Core(s, {}, false) && t !in s.tcb
    ensures Core(NewTcb(s, t, priority), {t}, false)
  {
    NotListed(s, t);
    hide Partition, EventPartition, WaitersBlocked, ReadyOk, TimeOk, StateList;
    NewTcbPartition(s, t, priority);
    NewTcbRest(s, t, priority);
    OutsideTime(s, NewTcb(s, t, priority), t);
  }

  // A task without a state list is on none.
  lemma NotListed(s: Kernel, t: Task)
    requires ListedOk(s) && (t in s.tcb ==> s.tcb[t].stateIn.NotInList?)
    ensures t !in StateList(s, Delayed1).items && t !in StateList(s, Delayed2).items
  {
  }

  // Tasks that are on no delayed list come and go without touching the promises about time.
  lemma OutsideTime(s: Kernel, s': Kernel, t: Task)
    requires TimeOk(s, false) && s'.lists == s.lists && s'.wake == s.wake && s'.tick == s.tick && s'.time == s.time
    requires s'.list1IsCurrent == s.list1IsCurrent && s'.nextUnblock == s.nextUnblock
    requires t !in StateList(s, Delayed1).items && t !in StateList(s, Delayed2).items
    requires forall x :: x != t ==> (x in s.tcb <==> x in s'.tcb) && (x in s.tcb ==> s'.tcb[x] == s.tcb[x])
    requires t in s'.tcb ==> s'.tcb[t].stateIn.NotInList?
    ensures TimeOk(s', false)
  {
    hide ClockOk, SortedList, NextUnblockOk, StateList;
    OutsideSorted(s, s', t, Delayed1);
    OutsideSorted(s, s', t, Delayed2);
    OutsideClock(s, s', t);
  }

  lemma OutsideClock(s: Kernel, s': Kernel, t: Task)
    requires ClockOk(s, false) && NextUnblockOk(s) && s'.wake == s.wake && s'.tick == s.tick && s'.time == s.time
    requires s'.list1IsCurrent == s.list1IsCurrent && s'.nextUnblock == s.nextUnblock
    requires forall x :: x != t ==> (x in s.tcb <==> x in s'.tcb) && (x in s.tcb ==> s'.tcb[x] == s.tcb[x])
    requires t in s'.tcb ==> s'.tcb[t].stateIn.NotInList?
    ensures ClockOk(s', false) && NextUnblockOk(s')
  {
    hide Wrap, Epoch;
    forall x | x in s'.tcb && s'.tcb[x].stateIn.In? && IsDelayed(s'.tcb[x].stateIn.list)
      ensures x in s.tcb && s.tcb[x] == s'.tcb[x] && (OnTime(s, x, false) ==> OnTime(s', x, false))
    {
      assert x != t;
    }
  }

  lemma OutsideSorted(s: Kernel, s': Kernel, t: Task, l: ListId)
    requires SortedList(s, l) && s'.lists == s.lists && t !in StateList(s, l).items
    requires forall x :: x != t ==> (x in s.tcb <==> x in s'.tcb) && (x in s.tcb ==> s'.tcb[x] == s.tcb[x])
    ensures SortedList(s', l)
  {
    assert StateValues(s', StateList(s', l)) == StateValues(s, StateList(s, l));
  }

  lemma CreateKeeps(s: Kernel, t: Task, priority: nat)
    requires Inv(s) && t !in s.tcb
    ensures Inv(TaskCreate(s, t, priority)) && TaskCreate(s, t, priority).delivered == s.delivered
    ensures TaskCreate(s, t, priority).time == s.time
  {
    hide Core, AddReady, SameBooks, Partition, EventPartition;
    InvParts(s);
    NoneOut(t);
    NewTcbCore(s, t, priority);
    var s1 := NewTcb(s, t, priority);
    AddReadyKeeps(s1, {t}, t, false);
    AddReadyBooks(s1, t);
    CreateBooks(s, t, priority, AddReady(s1, t));
  }

  lemma CreateBooks(s: Kernel, t: Task, priority: nat, s2: Kernel)
    requires SuspensionOk(s) && CountsOk(s) && s.current in s.tcb && t !in s.tcb
    requires SameBooks(NewTcb(s, t, priority), s2) && s2.time == s.time && Core(s2, {}, false)
    ensures Inv(s2) && s2.delivered == s.delivered
  {
    hide Core;
    var s1 := NewTcb(s, t, priority);
    assert |s2.tcb| == |s2.tcb.Keys| == |s.tcb.Keys + {t}| == |s.tcb.Keys| + 1;
    assert StateList(s1, Termination) == StateList(s, Termination);
    assert EventList(s1, PendingReady) == EventList(s, PendingReady);
  }

  lemma DropTcbPartition(s: Kernel, t: Task)
    requires Partition(s, {t}) && EventPartition(s) && t in s.tcb && s.tcb[t].eventIn.NotInList? && s.count > 0
    ensures Partition(DropTcb(s, t), {}) && EventPartition(DropTcb(s, t))
  {
    DropTcbListed(s, t);
    DropTcbWaiting(s, t);
  }

  lemma DropTcbListed(s: Kernel, t: Task)
    requires Partition(s, {t}) && t in s.tcb && s.count > 0
    ensures Partition(DropTcb(s, t), {})
  {
    assert forall l :: StateList(DropTcb(s, t), l) == StateList(s, l);
    hide RingWf;
  }

  lemma DropTcbWaiting(s: Kernel, t: Task)
    requires EventPartition(s) && t in s.tcb && s.tcb[t].eventIn.NotInList? && s.count > 0
    ensures EventPartition(DropTcb(s, t))
  {
    assert forall e :: EventList(DropTcb(s, t), e) == EventList(s, e);
    hide RingWf;
  }

  lemma DropTcbRest(s: Kernel, t: Task)
    requires WaitersBlocked(s) && ReadyOk(s) && s.count > 0
    ensures WaitersBlocked(DropTcb(s, t)) && ReadyOk(DropTcb(s, t))
  {
  }

  lemma DropTcbCore(s: Kernel, t: Task)
    requires Core(s, {t}, false) && t in s.tcb && s.tcb[t].eventIn.NotInList? && s.count > 0
    ensures Core(DropTcb(s, t), {}, false)
  {
    OutIsNowhere(s, {t}, t);
    NotListed(s, t);
    hide Partition, EventPartition, WaitersBlocked, ReadyOk, TimeOk, StateList;
    DropTcbPartition(s, t);
    DropTcbRest(s, t);
    OutsideTime(s, DropTcb(s, t), t);
  }

  lemma DropTcbBooks(s: Kernel, s1: Kernel, t: Task)
    requires Inv(s) && SameBooks(s, s1) && s1.time == s.time && t in s.tcb && t != s.current && s1.count > 0
    requires Core(DropTcb(s1, t), {}, false)
    ensures Inv(DropTcb(s1, t)) && DropTcb(s1, t).delivered == s.delivered && DropTcb(s1, t).time == s.time
  {
    hide Core;
    var s' := DropTcb(s1, t);
    assert s'.tcb.Keys == s.tcb.Keys - {t};
    assert |s'.tcb| == |s'.tcb.Keys| == |s.tcb.Keys| - 1 == |s.tcb| - 1;
    assert StateList(s', Termination) == StateList(s1, Termination);
    assert EventList(s', PendingReady) == EventList(s1, PendingReady);
  }

  lemma TerminateBooks(s: Kernel, s1: Kernel, t: Task)
    requires Inv(s) && SameBooks(s, s1) && s1.time == s.time && t in s1.tcb
    requires Core(AppendState(s1, Termination, t), {}, false)
    ensures Inv(AppendState(s1, Termination, t).(waitingCleanUp := s.waitingCleanUp + 1))
    ensures AppendState(s1, Termination, t).delivered == s.delivered && AppendState(s1, Termination, t).time == s.time
  {
    hide Core;
    var s2 := AppendState(s1, Termination, t);
    var s' := s2.(waitingCleanUp := s.waitingCleanUp + 1);
    CoreFrame(s2, s', {}, false);
    assert |s'.tcb| == |s'.tcb.Keys| == |s.tcb.Keys| == |s.tcb|;
    assert StateList(s', Termination) == InsertEnd(StateList(s1, Termination), t);
    assert EventList(s', PendingReady) == EventList(s1, PendingReady);
  }

  lemma DeleteKeeps(s: Kernel, t: Task)
    requires Inv(s) && Live(s, t)
    ensures Inv(TaskDelete(s, t)) && TaskDelete(s, t).delivered == s.delivered && TaskDelete(s, t).time == s.time
  {
    hide Core, SameBooks, RemoveState, RemoveEvent, AppendState, ResetNextUnblock, Inv, DropTcb;
    InvParts(s);
    CountIsPositive(s);
    NoneOut(t);
    RemoveStateKeeps(s, {}, t, false);
    RemoveStateBooks(s, t);
    var s1 := RemoveState(s, t);
    BooksKeys(s, s1);
    RemoveEventKeeps(s1, {t}, t, false);
    RemoveEventBooks(s1, t);
    var s2 := RemoveEvent(s1, t);
    BooksKeys(s1, s2);
    BooksTrans(s, s1, s2);
    BooksCount(s, s2);
    if t == s.current {
      AppendStateKeeps(s2, {t}, Termination, t, false);
      TerminateBooks(s, s2, t);
    } else {
      DropTcbCore(s2, t);
      DropTcbBooks(s, s2, t);
      var s3 := DropTcb(s2, t);
      InvParts(s3);
      ResetNextUnblockKeeps(s3, {}, false);
      ResetNextUnblockBooks(s3);
      InvFromBooks(s3, ResetNextUnblock(s3));
    }
  }

  lemma BooksCount(s: Kernel, s': Kernel)
    requires SameBooks(s, s')
    ensures s'.count == s.count && s'.current == s.current && s'.waitingCleanUp == s.waitingCleanUp
  {
  }

  lemma TerminatedHead(s: Kernel)
    requires Inv(s) && s.waitingCleanUp > 0 && Live(s, s.current)
    ensures |StateList(s, Termination).items| > 0 && s.count > 0
    ensures var t := StateList(s, Termination).items[0];
      t in s.tcb && s.tcb[t].stateIn == In(Termination) && s.tcb[t].eventIn.NotInList? && t != s.current
  {
    var t := StateList(s, Termination).items[0];
    assert t in StateList(s, Termination).items;
    assert s.tcb[t].eventIn.NotInList? by {
      if s.tcb[t].eventIn.In? { WaiterBlocked(s, t); }
    }
  }

  lemma CleanUpKeeps(s: Kernel)
    requires Inv(s) && s.waitingCleanUp > 0 && Live(s, s.current)
    ensures |StateList(s, Termination).items| > 0 && s.count > 0
    ensures Inv(CleanUpOne(s)) && CleanUpOne(s).delivered == s.delivered
    ensures CleanUpOne(s).time == s.time
  {
    hide Core, RemoveState, DropTcb;
    TerminatedHead(s);
    InvParts(s);
    var t := StateList(s, Termination).items[0];
    NoneOut(t);
    RemoveStateKeeps(s, {}, t, false);
    RemoveStateEvent'(s, t);
    var s1 := RemoveState(s, t);
    DropTcbCore(s1, t);
    var s2 := DropTcb(s1, t);
    CoreFrame(s2, s2.(waitingCleanUp := s.waitingCleanUp - 1), {}, false);
    CleanUpBooks(s, t);
  }

  lemma RemoveStateEvent'(s: Kernel, t: Task)
    requires t in s.tcb
    ensures RemoveState(s, t).tcb.Keys == s.tcb.Keys && RemoveState(s, t).count == s.count
    ensures RemoveState(s, t).delivered == s.delivered
    ensures RemoveState(s, t).tcb[t].eventIn == s.tcb[t].eventIn
  {
  }

  lemma CleanUpBooks(s: Kernel, t: Task)
    requires Inv(s) && s.waitingCleanUp > 0 && s.count > 0 && t in s.tcb && t != s.current
    requires s.tcb[t].stateIn == In(Termination) && t in StateList(s, Termination).items
    requires RemoveState(s, t).count > 0
    ensures DropTcb(RemoveState(s, t), t).delivered == s.delivered && DropTcb(RemoveState(s, t), t).time == s.time
    ensures SuspensionOk(DropTcb(RemoveState(s, t), t).(waitingCleanUp := s.waitingCleanUp - 1))
    ensures CountsOk(DropTcb(RemoveState(s, t), t).(waitingCleanUp := s.waitingCleanUp - 1))
    ensures DropTcb(RemoveState(s, t), t).current in DropTcb(RemoveState(s, t), t).tcb
  {
    hide Core;
    var s' := DropTcb(RemoveState(s, t), t);
    assert s'.tcb.Keys == s.tcb.Keys - {t};
    assert |s'.tcb| == |s'.tcb.Keys| == |s.tcb.Keys| - 1 == |s.tcb| - 1;
    assert |Remove(StateList(s, Termination), t).items| == |StateList(s, Termination).items| - 1;
  }

  // ----- Changing priorities -----

  lemma ReprioritiseKeeps(s: Kernel, d: set<Task>, t: Task, priority: nat, base: nat)
    requires Core(s, d, false) && t in s.tcb && priority < MAX_PRIORITIES && base < MAX_PRIORITIES
    requires s.tcb[t].stateIn.In? && s.tcb[t].stateIn.list.Ready? ==> priority == s.tcb[t].priority
    ensures Core(Reprioritise(s, t, priority, base), d, false)
    ensures SameBooks(s, Reprioritise(s, t, priority, base)) && Reprioritise(s, t, priority, base).time == s.time
  {
    var s' := Reprioritise(s, t, priority, base);
    ReprioritiseBooks(s, t, priority, base);
    ReprioritiseReady(s, t, priority, base);
    hide Partition, EventPartition, WaitersBlocked, ReadyOk, TimeOk, SameBooks;
    PartitionFrame(s, s', d);
    EventPartitionFrame(s, s');
    BlockedFrame(s, s');
    EventMoveTime(s, s', false);
  }

  lemma ReprioritiseBooks(s: Kernel, t: Task, priority: nat, base: nat)
    requires t in s.tcb
    ensures SameBooks(s, Reprioritise(s, t, priority, base)) && Reprioritise(s, t, priority, base).time == s.time
  {
  }

  lemma ReprioritiseReady(s: Kernel, t: Task, priority: nat, base: nat)
    requires ReadyOk(s) && t in s.tcb && priority < MAX_PRIORITIES && base < MAX_PRIORITIES
    requires s.tcb[t].stateIn.In? && s.tcb[t].stateIn.list.Ready? ==> priority == s.tcb[t].priority
    ensures ReadyOk(Reprioritise(s, t, priority, base))
  {
  }

  lemma MoveToKeeps(s: Kernel, t: Task, priority: nat, base: nat)
    requires Inv(s) && t in s.tcb && priority < MAX_PRIORITIES && base < MAX_PRIORITIES
    ensures Inv(MoveTo(s, t, priority, base)) && MoveTo(s, t, priority, base).delivered == s.delivered
    ensures MoveTo(s, t, priority, base).time == s.time
  {
    hide Core, SameBooks, RemoveState, Reprioritise, AddReady, Inv;
    InvParts(s);
    if s.tcb[t].stateIn == In(Ready(s.tcb[t].priority)) {
      NoneOut(t);
      RemoveStateKeeps(s, {}, t, false);
      RemoveStateBooks(s, t);
      ReadyOff(s, t);
      var s1 := RemoveState(s, t);
      BooksKeys(s, s1);
      ReprioritiseKeeps(s1, {t}, t, priority, base);
      var s2 := Reprioritise(s1, t, priority, base);
      BooksKeys(s1, s2);
      ReprioritiseEvent(s1, t, priority, base);
      AddReadyKeeps(s2, {t}, t, false);
      AddReadyBooks(s2, t);
      BooksTrans(s, s1, s2);
      BooksTrans(s, s2, AddReady(s2, t));
      InvFromBooks(s, AddReady(s2, t));
    } else {
      NotReadyElsewhere(s, t);
      ReprioritiseKeeps(s, {}, t, priority, base);
      InvFromBooks(s, Reprioritise(s, t, priority, base));
    }
  }

  lemma ReadyOff(s: Kernel, t: Task)
    requires Core(s, {}, false) && t in s.tcb && s.tcb[t].stateIn.In? && s.tcb[t].stateIn.list.Ready?
    requires t in RemoveState(s, t).tcb
    ensures RemoveState(s, t).tcb[t].stateIn.NotInList? && RemoveState(s, t).tcb[t].eventIn.NotInList?
  {
  }

  lemma ReprioritiseEvent(s: Kernel, t: Task, priority: nat, base: nat)
    requires t in s.tcb && t in Reprioritise(s, t, priority, base).tcb
    ensures Reprioritise(s, t, priority, base).tcb[t].eventIn == s.tcb[t].eventIn
  {
  }

  lemma NotReadyElsewhere(s: Kernel, t: Task)
    requires Core(s, {}, false) && t in s.tcb && s.tcb[t].stateIn != In(Ready(s.tcb[t].priority))
    ensures s.tcb[t].stateIn.In? ==> !s.tcb[t].stateIn.list.Ready?
  {
  }

  lemma SetEventValueKeeps(s: Kernel, t: Task, p: nat)
    requires Inv(s) && t in s.tcb
    ensures Inv(SetEventValue(s, t, p)) && SetEventValue(s, t, p).delivered == s.delivered
    ensures SetEventValue(s, t, p).tcb.Keys == s.tcb.Keys
    ensures SetEventValue(s, t, p).time == s.time
  {
    hide Inv;
    if s.tcb[t].eventValue < EVENT_VALUE_IN_USE && p <= MAX_PRIORITIES {
      WithEventValueKeeps(s, t, MAX_PRIORITIES - p);
    }
  }

  lemma PrioritiesInRange(s: Kernel, t: Task)
    requires Inv(s) && t in s.tcb
    ensures s.tcb[t].priority < MAX_PRIORITIES && s.tcb[t].basePriority < MAX_PRIORITIES
  {
  }

  lemma PrioritySetKeeps(s: Kernel, t: Task, p: nat)
    requires Inv(s) && t in s.tcb
    ensures Inv(PrioritySet(s, t, p)) && PrioritySet(s, t, p).delivered == s.delivered
    ensures PrioritySet(s, t, p).time == s.time
  {
    hide Inv, MoveTo;
    PrioritiesInRange(s, t);
    var n := Capped(p);
    SetEventValueKeeps(s, t, n);
    var q := if s.tcb[t].basePriority == s.tcb[t].priority then n else s.tcb[t].priority;
    MoveToKeeps(SetEventValue(s, t, n), t, q, n);
  }

  lemma PriorityLowerKeeps(s: Kernel, t: Task, p: nat)
    requires Inv(s) && t in s.tcb && p < MAX_PRIORITIES
    ensures Inv(PriorityLower(s, t, p)) && PriorityLower(s, t, p).delivered == s.delivered
    ensures PriorityLower(s, t, p).time == s.time
  {
    hide Inv, MoveTo;
    PrioritiesInRange(s, t);
    SetEventValueKeeps(s, t, p);
    MoveToKeeps(SetEventValue(s, t, p), t, p, s.tcb[t].basePriority);
  }

  lemma PriorityInheritKeeps(s: Kernel, t: Task)
    requires Inv(s) && t in s.tcb
    ensures s.current in s.tcb && Inv(PriorityInherit(s, t)) && PriorityInherit(s, t).delivered == s.delivered
    ensures PriorityInherit(s, t).time == s.time
  {
    hide Inv, MoveTo;
    InvParts(s);
    PrioritiesInRange(s, s.current);
    PriorityLowerKeeps(s, t, s.tcb[s.current].priority);
  }

  // ----- Choosing the task to run -----

  lemma {:induction false} HighestReadyIs(s: Kernel, p: nat)
    ensures HighestReady(s, p) <= p
    ensures forall q: nat :: HighestReady(s, p) < q <= p ==> StateList(s, Ready(q)).items == []
    ensures (exists q: nat :: q <= p && StateList(s, Ready(q)).items != []) ==>
      StateList(s, Ready(HighestReady(s, p))).items != []
  {
    if |StateList(s, Ready(p)).items| == 0 && p > 0 { HighestReadyIs(s, p - 1); }
  }

  // The task the scheduler changes to is ready, and no ready task has a higher priority.
  ghost predicate SelectedIsHighest(s: Kernel) {
    var s' := SwitchContext(s);
    && s'.current in s.tcb && s.tcb[s'.current].stateIn == In(Ready(s'.top))
    && forall t :: t in s.tcb && s.tcb[t].stateIn.In? && s.tcb[t].stateIn.list.Ready? ==>
      s.tcb[t].priority <= s.tcb[s'.current].priority
  }

  // The search stops at the highest priority any ready task has, and the task chosen has it.
  lemma SelectsHighestPriority(s: Kernel)
    requires Inv(s) && s.suspended == 0 && exists q: nat :: StateList(s, Ready(q)).items != []
    ensures SelectedIsHighest(s)
  {
    hide Core, StateList, HighestReady, Advance;
    var q: nat :| StateList(s, Ready(q)).items != [];
    AboveTopEmpty(s, q);
    HighestReadyIs(s, s.top);
    var p := HighestReady(s, s.top);
    ReadyRing(s, p);
    forall t | t in s.tcb && s.tcb[t].stateIn.In? && s.tcb[t].stateIn.list.Ready? ensures s.tcb[t].priority <= p {
      ReadyBelow(s, t, p);
    }
  }

  // The entry chosen from a ready list that is not empty is a task of that priority.
  lemma ReadyRing(s: Kernel, p: nat)
    requires Core(s, {}, false) && StateList(s, Ready(p)).items != []
    ensures var r := Advance(StateList(s, Ready(p)));
      && 0 < r.index <= |r.items| && Chosen(r) in s.tcb && s.tcb[Chosen(r)].stateIn == In(Ready(p))
      && s.tcb[Chosen(r)].priority == p
  {
    hide EventPartition, WaitersBlocked, TimeOk, NoDup;
    var r := Advance(StateList(s, Ready(p)));
    assert Chosen(r) in StateList(s, Ready(p)).items;
  }

  lemma ReadyBelow(s: Kernel, t: Task, p: nat)
    requires Core(s, {}, false) && t in s.tcb && s.tcb[t].stateIn.In? && s.tcb[t].stateIn.list.Ready?
    requires forall q: nat :: p < q <= s.top ==> StateList(s, Ready(q)).items == []
    ensures s.tcb[t].priority <= p
  {
    hide EventPartition, WaitersBlocked, TimeOk, RingsOk, ListedOk;
    assert t in StateList(s, Ready(s.tcb[t].priority)).items;
  }

  // uxTopReadyPriority is never below a ready task.
  lemma ListedBelowTop(s: Kernel, q: nat, t: Task)
    requires Core(s, {}, false) && t in StateList(s, Ready(q)).items
    ensures q <= s.top && t in s.tcb && s.tcb[t].priority == q
  {
    hide TimeOk, EventPartition, WaitersBlocked;
  }

  lemma AboveTopEmpty(s: Kernel, q: nat)
    requires Inv(s)
    ensures q > s.top ==> StateList(s, Ready(q)).items == []
  {
    hide Core;
    EmptyOrMember(StateList(s, Ready(q)).items);
    if t :| t in StateList(s, Ready(q)).items { ListedBelowTop(s, q, t); }
  }

  lemma SwitchKeeps(s: Kernel)
    requires Inv(s)
    ensures Inv(SwitchContext(s)) && SwitchContext(s).delivered == s.delivered && SwitchContext(s).time == s.time
  {
    hide Core, HighestReady;
    var p := HighestReady(s, s.top);
    var r := Advance(StateList(s, Ready(p)));
    if s.suspended == 0 && 0 < r.index <= |r.items| {
      HighestReadyIs(s, s.top);
      SwitchCore(s, p);
      ChosenListed(s, p);
      var s' := SwitchContext(s);
      assert StateList(s', Termination) == StateList(s, Termination);
      assert EventList(s', PendingReady) == EventList(s, PendingReady);
    }
  }

  lemma ChosenListed(s: Kernel, p: nat)
    requires Core(s, {}, false) && 0 < Advance(StateList(s, Ready(p))).index <= |Advance(StateList(s, Ready(p))).items|
    ensures Chosen(Advance(StateList(s, Ready(p)))) in s.tcb
  {
    assert Chosen(Advance(StateList(s, Ready(p)))) in StateList(s, Ready(p)).items;
  }

  lemma AdvanceSame(r: Ring<Task>)
    requires RingWf(r)
    ensures RingWf(Advance(r)) && Advance(r).items == r.items
  {
  }

  lemma SwitchedListed(s: Kernel, s': Kernel, p: nat)
    requires Partition(s, {}) && s'.tcb == s.tcb && s'.lists == s.lists[Ready(p) := Advance(StateList(s, Ready(p)))]
    ensures Partition(s', {})
  {
    AdvanceSame(StateList(s, Ready(p)));
    hide RingWf, Advance;
    assert forall l :: StateList(s', l) == if l == Ready(p) then Advance(StateList(s, Ready(p))) else StateList(s, l);
  }

  // Above the list the search stopped at there is no ready task.
  lemma SwitchedReady(s: Kernel, s': Kernel, p: nat)
    requires ReadyOk(s) && ContainedOk(s) && s'.tcb == s.tcb && s'.top == p && p <= s.top
    requires forall q: nat :: p < q <= s.top ==> StateList(s, Ready(q)).items == []
    ensures ReadyOk(s')
  {
    hide StateList;
    forall t | t in s.tcb && s.tcb[t].stateIn.In? && s.tcb[t].stateIn.list.Ready? ensures s.tcb[t].priority <= p {
      assert t in StateList(s, Ready(s.tcb[t].priority)).items;
    }
  }

  lemma SwitchedTimes(s: Kernel, s': Kernel, p: nat)
    requires TimeOk(s, false) && s'.lists == s.lists[Ready(p) := Advance(StateList(s, Ready(p)))]
    requires SameClock(s, s') && s'.nextUnblock == s.nextUnblock
    requires forall t :: t in s.tcb ==> s'.tcb[t].stateIn == s.tcb[t].stateIn
    ensures TimeOk(s', false)
  {
    hide Advance, ClockOk, NextUnblockOk, SortedList;
    SameListSorted(s, s', Delayed1);
    SameListSorted(s, s', Delayed2);
    TimeFrame(s, s', false);
  }

  lemma SwitchCore(s: Kernel, p: nat)
    requires Core(s, {}, false) && p <= s.top
    requires forall q: nat :: p < q <= s.top ==> StateList(s, Ready(q)).items == []
    requires 0 < Advance(StateList(s, Ready(p))).index <= |Advance(StateList(s, Ready(p))).items|
    ensures Core(s.(lists := s.lists[Ready(p) := Advance(StateList(s, Ready(p)))],
                    current := Chosen(Advance(StateList(s, Ready(p)))), top := p), {}, false)
  {
    var r := Advance(StateList(s, Ready(p)));
    var s' := s.(lists := s.lists[Ready(p) := r], current := Chosen(r), top := p);
    PartitionParts(s, {});
    hide Partition, EventPartition, WaitersBlocked, ReadyOk, TimeOk, StateList, Advance, ContainedOk;
    SwitchedReady(s, s', p);
    SwitchedListed(s, s', p);
    EventPartitionFrame(s, s');
    BlockedFrame(s, s');
    SwitchedTimes(s, s', p);
  }

  lemma PartitionParts(s: Kernel, d: set<Task>)
    requires Partition(s, d)
    ensures RingsOk(s) && ListedOk(s) && ContainedOk(s) && OutOk(s, d)
  {
  }
}
