// Round robin in the kernel: how the calls of every run move the ready list of one priority, and when a
// task on it is chosen.
module KernelTurns {
  import opened TickTime
  import opened ListRing
  import opened KernelState
  import opened KernelKeeps
  import opened KernelSteps
  import opened KernelProof
  import opened KernelTick
  import opened KernelCalls
  import opened KernelRun
  import opened KernelSafety
  import opened KernelTheorems
  import opened KernelFrames
  import opened KernelWaking
  import opened KernelEffects
  import R = RoundRobin

  function ListOf(s: Kernel, p: nat): Ring<Task> { StateList(s, Ready(p)) }

  predicate IsOn(s: Kernel, x: Task, p: nat) { x in s.tcb && s.tcb[x].stateIn == In(Ready(p)) }

  // The list has changed by departures and arrivals of tasks other than x, with no selection.
  ghost predicate ChangesBy(r: Ring<Task>, r': Ring<Task>, x: Task, rs: seq<R.Step<Task>>) {
    R.IsRun(r, x, rs) && R.End(r, rs) == r' && R.Selections(rs) == 0
  }

  ghost predicate Changes(r: Ring<Task>, r': Ring<Task>, x: Task) { exists rs :: ChangesBy(r, r', x, rs) }

  lemma ChangesTrans(r: Ring<Task>, r1: Ring<Task>, r2: Ring<Task>, x: Task)
    requires Changes(r, r1, x) && Changes(r1, r2, x)
    ensures Changes(r, r2, x)
  {
    var a :| ChangesBy(r, r1, x, a);
    var b :| ChangesBy(r1, r2, x, b);
    R.RunsJoin(r, x, a, b);
    assert ChangesBy(r, r2, x, a + b);
  }

  // What a call does to a ready list when it moves task t: nothing, or t leaves, or joins at the end.
  predicate MovedBy(r: Ring<Task>, r': Ring<Task>, t: Task) {
    r' == r || r' == Remove(r, t) || r' == InsertEnd(Remove(r, t), t)
  }

  lemma MovedChanges(r: Ring<Task>, r': Ring<Task>, t: Task, x: Task)
    requires RingWf(r) && MovedBy(r, r', t) && t != x
    ensures Changes(r, r', x)
  {
    var none: seq<R.Step<Task>> := [];
    assert ChangesBy(r, r, x, none);
    assert Changes(r, r, x);
    if t in r.items {
      RemoveFacts(r, t);
      OneChange(r, R.Leave(t), x);
    }
    assert Changes(r, Remove(r, t), x);
    if r' == InsertEnd(Remove(r, t), t) {
      OneChange(Remove(r, t), R.Arrive(t), x);
      ChangesTrans(r, Remove(r, t), r', x);
    }
  }

  lemma OneChange(r: Ring<Task>, step: R.Step<Task>, x: Task)
    requires R.Possible(r, x, step) && !step.Select?
    ensures Changes(r, R.After(r, step), x)
  {
    var rs := [step];
    assert rs[1..] == [];
    assert R.End(R.After(r, step), rs[1..]) == R.After(r, step);
    assert ChangesBy(r, R.After(r, step), x, rs);
  }

  // ----- Calls that move one task -----

  // A task is on a ready list exactly when its item says so.
  ghost predicate ListedAs(s: Kernel, t: Task, p: nat) {
    t in s.tcb && (t in ListOf(s, p).items <==> s.tcb[t].stateIn == In(Ready(p)))
  }

  lemma ListedHere(s: Kernel, t: Task, p: nat)
    requires Partition(s, {}) && t in s.tcb
    ensures ListedAs(s, t, p) && RingWf(ListOf(s, p))
  {
  }

  lemma OffLists(s: Kernel, t: Task, p: nat)
    requires ListedAs(s, t, p)
    ensures t in RemoveState(s, t).tcb && ListOf(RemoveState(s, t), p) == Remove(ListOf(s, p), t)
    ensures t in RemoveEvent(s, t).tcb && ListOf(RemoveEvent(s, t), p) == ListOf(s, p)
    ensures t in RemoveState(RemoveEvent(s, t), t).tcb && t in RemoveEvent(RemoveState(s, t), t).tcb
    ensures ListOf(RemoveState(RemoveEvent(s, t), t), p) == Remove(ListOf(s, p), t)
    ensures ListOf(RemoveEvent(RemoveState(s, t), t), p) == Remove(ListOf(s, p), t)
  {
    hide Remove;
    OffOne(s, t, p);
    var s1, s2 := RemoveEvent(s, t), RemoveState(s, t);
    StillListed(s, s1, t, p);
    hide RemoveState, RemoveEvent, ListedAs, ListOf;
    OffOne(s1, t, p);
    OffEvent(s2, t, p);
  }

  lemma OffOne(s: Kernel, t: Task, p: nat)
    requires ListedAs(s, t, p)
    ensures t in RemoveState(s, t).tcb && ListOf(RemoveState(s, t), p) == Remove(ListOf(s, p), t)
    ensures t in RemoveEvent(s, t).tcb && ListOf(RemoveEvent(s, t), p) == ListOf(s, p)
  {
    hide Find, Cut;
  }

  lemma OffEvent(s: Kernel, t: Task, p: nat)
    requires t in s.tcb
    ensures t in RemoveEvent(s, t).tcb && ListOf(RemoveEvent(s, t), p) == ListOf(s, p)
  {
    hide Remove;
  }

  lemma OntoReady(s: Kernel, t: Task, p: nat)
    requires t in s.tcb
    ensures ListOf(AddReady(s, t), p) == ListOf(s, p) || ListOf(AddReady(s, t), p) == InsertEnd(ListOf(s, p), t)
  {
  }

  lemma Elsewhere(s: Kernel, t: Task, l: ListId, e: EventId, p: nat)
    requires !l.Ready?
    ensures ListOf(AppendState(s, l, t), p) == ListOf(s, p) && ListOf(InsertState(s, l, t), p) == ListOf(s, p)
    ensures ListOf(AppendEvent(s, e, t), p) == ListOf(s, p) && ListOf(InsertEvent(s, e, t), p) == ListOf(s, p)
    ensures ListOf(ResetNextUnblock(s), p) == ListOf(s, p)
  {
    EventsElsewhere(s, t, e, p);
    hide InsertAt, InsertPos, InsertEnd, StateValues, AppendEvent, InsertEvent;
  }

  lemma EventsElsewhere(s: Kernel, t: Task, e: EventId, p: nat)
    ensures ListOf(AppendEvent(s, e, t), p) == ListOf(s, p) && ListOf(InsertEvent(s, e, t), p) == ListOf(s, p)
  {
    hide EventList, InsertAt, InsertPos, InsertEnd, EventValues;
  }

  lemma TimedElsewhere(s: Kernel, t: Task, ticks: Tick, p: nat)
    requires t in s.tcb
    ensures ListOf(TimedDelay(s, t, ticks), p) == ListOf(s, p)
  {
    hide InsertAt, InsertPos, StateValues, TickAdd;
  }

  lemma DelayMoves(s: Kernel, ticks: Tick, indefinitely: bool, p: nat)
    requires ListedAs(s, s.current, p)
    ensures MovedBy(ListOf(s, p), ListOf(AddToDelayed(s, ticks, indefinitely), p), s.current)
  {
    hide RemoveState, AppendState, TimedDelay, ListOf, Remove;
    OffLists(s, s.current, p);
    Elsewhere(RemoveState(s, s.current), s.current, Suspended, PendingReady, p);
    TimedElsewhere(RemoveState(s, s.current), s.current, ticks, p);
  }

  lemma StillListed(s: Kernel, s1: Kernel, t: Task, p: nat)
    requires ListedAs(s, t, p) && ListOf(s1, p) == ListOf(s, p) && t in s1.tcb && s1.tcb[t].stateIn == s.tcb[t].stateIn
    ensures ListedAs(s1, t, p)
  {
  }

  lemma EnteredStill(s: Kernel, t: Task, e: EventId)
    requires t in s.tcb
    ensures var s1 := InsertEvent(s, e, t);
      t in s1.tcb && s1.tcb[t].stateIn == s.tcb[t].stateIn && s1.current == s.current
    ensures var s1 := AppendEvent(s, e, t);
      t in s1.tcb && s1.tcb[t].stateIn == s.tcb[t].stateIn && s1.current == s.current
  {
  }

  lemma PlaceMoves(s: Kernel, e: EventId, value: Tick, ticks: Tick, p: nat)
    requires ListedAs(s, s.current, p)
    ensures MovedBy(ListOf(s, p), ListOf(PlaceOnEventList(s, e, ticks), p), s.current)
    ensures MovedBy(ListOf(s, p), ListOf(PlaceOnUnorderedEventList(s, e, value, ticks), p), s.current)
  {
    hide InsertEvent, AppendEvent, AddToDelayed, MovedBy;
    var t, s0 := s.current, WithEventValue(s, s.current, value);
    EnteredStill(s, t, e);
    Elsewhere(s, t, Suspended, e, p);
    StillListed(s, InsertEvent(s, e, t), t, p);
    DelayMoves(InsertEvent(s, e, t), ticks, true, p);
    StillListed(s, s0, t, p);
    EnteredStill(s0, t, e);
    Elsewhere(s0, t, Suspended, e, p);
    StillListed(s0, AppendEvent(s0, e, t), t, p);
    DelayMoves(AppendEvent(s0, e, t), ticks, true, p);
  }

  // A task is taken off its lists, and made ready or not.
  lemma ReadyMoves(s: Kernel, t: Task, p: nat)
    requires ListedAs(s, t, p)
    ensures MovedBy(ListOf(s, p), ListOf(ReadyPending(s, t), p), t)
    ensures MovedBy(ListOf(s, p), ListOf(Unblock(s, t), p), t)
    ensures t in RemoveState(s, t).tcb && MovedBy(ListOf(s, p), ListOf(AddReady(RemoveState(s, t), t), p), t)
    ensures t in RemoveEvent(s, t).tcb && ListOf(AppendEvent(RemoveEvent(s, t), PendingReady, t), p) == ListOf(s, p)
  {
    hide RemoveState, RemoveEvent, AddReady, AppendEvent, ListOf, Remove, InsertEnd;
    OffLists(s, t, p);
    OntoReady(RemoveState(RemoveEvent(s, t), t), t, p);
    OntoReady(RemoveEvent(RemoveState(s, t), t), t, p);
    OntoReady(RemoveState(s, t), t, p);
    Elsewhere(RemoveEvent(s, t), t, Suspended, PendingReady, p);
  }

  lemma WakeMoves(s: Kernel, e: EventId, p: nat)
    requires EventPartition(s) && |EventList(s, e).items| > 0 && ListedAs(s, EventList(s, e).items[0], p)
    ensures MovedBy(ListOf(s, p), ListOf(RemoveFromEventList(s, e), p), EventList(s, e).items[0])
  {
    var t := EventList(s, e).items[0];
    hide RemoveState, RemoveEvent, AddReady, AppendEvent, ListOf, EventList, EventPartition, MovedBy, ListedAs;
    ReadyMoves(s, t, p);
    Same(ListOf(s, p), t);
  }

  lemma Same(r: Ring<Task>, t: Task)
    ensures MovedBy(r, r, t)
  {
  }

  lemma WakeUnorderedMoves(s: Kernel, t: Task, value: Tick, p: nat)
    requires ListedAs(s, t, p)
    ensures MovedBy(ListOf(s, p), ListOf(RemoveFromUnorderedEventList(s, t, value), p), t)
  {
    var s1 := WithEventValue(s, t, value);
    StillListed(s, s1, t, p);
    hide RemoveState, RemoveEvent, AddReady, MovedBy, ListedAs;
    ReadyMoves(s1, t, p);
  }

  lemma SuspendMoves(s: Kernel, t: Task, p: nat)
    requires ListedAs(s, t, p)
    ensures MovedBy(ListOf(s, p), ListOf(TaskSuspend(s, t), p), t)
  {
    hide RemoveState, RemoveEvent, AppendState, ResetNextUnblock, Remove, ListOf, ListedAs;
    OffLists(s, t, p);
    var s1 := RemoveEvent(RemoveState(s, t), t);
    Elsewhere(s1, t, Suspended, PendingReady, p);
    Elsewhere(AppendState(s1, Suspended, t), t, Suspended, PendingReady, p);
  }

  lemma DeleteMoves(s: Kernel, t: Task, p: nat)
    requires ListedAs(s, t, p)
    ensures MovedBy(ListOf(s, p), ListOf(TaskDelete(s, t), p), t)
  {
    RemoveKeepsCount'(s, t);
    hide RemoveState, RemoveEvent, AppendState, ResetNextUnblock, Remove, ListedAs, ListOf, DropTcb;
    OffLists(s, t, p);
    var s1 := RemoveEvent(RemoveState(s, t), t);
    Elsewhere(s1, t, Termination, PendingReady, p);
    CountedSame(AppendState(s1, Termination, t), s.waitingCleanUp + 1, p);
    if s1.count > 0 {
      DropSame(s1, t, p);
      Elsewhere(DropTcb(s1, t), t, Suspended, PendingReady, p);
    }
  }

  lemma CountedSame(s: Kernel, n: nat, p: nat)
    ensures ListOf(s.(waitingCleanUp := n), p) == ListOf(s, p)
  {
  }

  lemma DropSame(s: Kernel, t: Task, p: nat)
    requires s.count > 0
    ensures ListOf(DropTcb(s, t), p) == ListOf(s, p)
  {
  }

  lemma ResumeMoves(s: Kernel, t: Task, p: nat)
    requires ListedAs(s, t, p)
    ensures MovedBy(ListOf(s, p), ListOf(TaskResume(s, t), p), t)
    ensures MovedBy(ListOf(s, p), ListOf(TaskResumeFromIsr(s, t), p), t)
  {
    hide RemoveState, RemoveEvent, AddReady, AppendEvent, MovedBy, ListOf, ListedAs;
    ReadyMoves(s, t, p);
    Elsewhere(s, t, Suspended, PendingReady, p);
    Same(ListOf(s, p), t);
  }

  lemma CreateMoves(s: Kernel, t: Task, priority: nat, p: nat)
    requires t !in ListOf(s, p).items
    ensures MovedBy(ListOf(s, p), ListOf(TaskCreate(s, t, priority), p), t)
  {
    hide AddReady, InsertEnd;
    OntoReady(NewTcb(s, t, priority), t, p);
  }

  lemma PriorityMoves(s: Kernel, t: Task, q: nat, priority: nat, base: nat, p: nat)
    requires ListedAs(s, t, p)
    ensures t in SetEventValue(s, t, q).tcb
    ensures MovedBy(ListOf(s, p), ListOf(MoveTo(SetEventValue(s, t, q), t, priority, base), p), t)
  {
    var s1 := SetEventValue(s, t, q);
    StillListed(s, s1, t, p);
    OffLists(s1, t, p);
    hide RemoveState, AddReady, InsertEnd, Remove, SetEventValue;
    OntoReady(Reprioritise(RemoveState(s1, t), t, priority, base), t, p);
  }

  // ----- Ticks and resumption -----

  // Making ready a task that is not x, as ticks and resumptions do.
  lemma UnblockChanges(s: Kernel, t: Task, x: Task, p: nat)
    requires Core(s, {}, true) && t in s.tcb && t != x
    ensures Changes(ListOf(s, p), ListOf(Unblock(s, t), p), x)
  {
    CoreParts(s, {}, true);
    hide Core, Unblock, ListOf, EventPartition, TimeOk;
    ListedHere(s, t, p);
    ReadyMoves(s, t, p);
    MovedChanges(ListOf(s, p), ListOf(Unblock(s, t), p), t, x);
  }

  lemma NoChange(r: Ring<Task>, x: Task)
    ensures Changes(r, r, x)
  {
    var none: seq<R.Step<Task>> := [];
    assert ChangesBy(r, r, x, none);
  }

  lemma LoopStopList(s: Kernel, p: nat)
    requires Core(s, {}, true) && !LoopGoesOn(s)
    ensures ListOf(UnblockDue(s), p) == ListOf(s, p)
  {
  }

  lemma {:induction false} UnblockDueChanges(s: Kernel, x: Task, p: nat)
    requires Core(s, {}, true) && IsOn(s, x, p)
    ensures Changes(ListOf(s, p), ListOf(UnblockDue(s), p), x) && IsOn(UnblockDue(s), x, p)
    decreases |StateList(s, CurrentDelayed(s)).items|
  {
    hide Core, Partition, LoopGoesOn, UnblockDue, Unblock, Changes, ListOf;
    CoreParts(s, {}, true);
    UnblockDueEffect(s, x);
    if LoopGoesOn(s) {
      LoopStep(s);
      var h := StateList(s, CurrentDelayed(s)).items[0];
      UnblockKeeps(s, h, true);
      UnblockEffect(s, h, x);
      UnblockChanges(s, h, x, p);
      UnblockDueChanges(Unblock(s, h), x, p);
      ChangesTrans(ListOf(s, p), ListOf(Unblock(s, h), p), ListOf(UnblockDue(s), p), x);
    } else {
      LoopStopList(s, p);
      NoChange(ListOf(s, p), x);
    }
  }

  lemma AdvanceClockList(s: Kernel, p: nat)
    ensures ListOf(AdvanceClock(s), p) == ListOf(s, p) && AdvanceClock(s).tcb == s.tcb
  {
  }

  lemma ProcessTickChanges(s: Kernel, x: Task, p: nat)
    requires Core(s, {}, false) && IsOn(s, x, p)
    ensures Changes(ListOf(s, p), ListOf(ProcessTick(s), p), x) && IsOn(ProcessTick(s), x, p)
  {
    hide Core, UnblockDue, AdvanceClock, Changes, ListOf, Partition;
    CoreParts(s, {}, false);
    AdvanceClockKeeps(s);
    AdvanceClockList(s, p);
    NoChange(ListOf(s, p), x);
    var s1 := AdvanceClock(s);
    if s1.tick >= s1.nextUnblock { UnblockDueChanges(s1, x, p); }
  }

  lemma {:induction false} TicksChange(s: Kernel, x: Task, p: nat, n: nat)
    requires Core(s, {}, false) && IsOn(s, x, p)
    ensures Changes(ListOf(s, p), ListOf(Ticks(s, n), p), x) && IsOn(Ticks(s, n), x, p)
    decreases n
  {
    hide *;
    CoreParts(s, {}, false);
    TicksStep(s, n);
    if n == 0 {
      NoChange(ListOf(s, p), x);
    } else {
      ProcessTickChanges(s, x, p);
      TicksChange(ProcessTick(s), x, p, n - 1);
      ChangesTrans(ListOf(s, p), ListOf(ProcessTick(s), p), ListOf(Ticks(s, n), p), x);
    }
  }

  lemma {:induction false} DrainChanges(s: Kernel, x: Task, p: nat)
    requires Core(s, {}, false) && IsOn(s, x, p)
    ensures EventPartition(s) && Changes(ListOf(s, p), ListOf(DrainPending(s), p), x) && IsOn(DrainPending(s), x, p)
    decreases |EventList(s, PendingReady).items|
  {
    CoreParts(s, {}, false);
    hide Core, EventPartition, ReadyPending, Changes, ListOf, MovedBy, ListedAs, Partition;
    NoChange(ListOf(s, p), x);
    if |EventList(s, PendingReady).items| > 0 {
      var h := EventList(s, PendingReady).items[0];
      assert h in EventList(s, PendingReady).items;
      PendingNotTerminated(s, PendingReady, h);
      ReadyPendingFacts(s, h);
      ReadyPendingKeeps(s, h, false);
      hide IsOn;
      DrainOneChanges(s, h, x, p);
      DrainChanges(ReadyPending(s, h), x, p);
      ChangesTrans(ListOf(s, p), ListOf(ReadyPending(s, h), p), ListOf(DrainPending(s), p), x);
    }
  }

  lemma DrainOneChanges(s: Kernel, h: Task, x: Task, p: nat)
    requires Partition(s, {}) && IsOn(s, x, p)
    requires h in s.tcb && s.tcb[h].stateIn.In? && !s.tcb[h].stateIn.list.Ready? && s.tcb[h].eventIn.In?
    ensures Changes(ListOf(s, p), ListOf(ReadyPending(s, h), p), x) && IsOn(ReadyPending(s, h), x, p)
  {
    hide ReadyPending, Changes, ListOf, MovedBy, ListedAs, Partition;
    ReadyPendingEntry(s, h, PendingReady);
    ListedHere(s, h, p);
    ReadyMoves(s, h, p);
    MovedChanges(ListOf(s, p), ListOf(ReadyPending(s, h), p), h, x);
  }

  lemma KeptLists(s: Kernel, s1: Kernel, x: Task, p: nat)
    requires s1.lists == s.lists && s1.tcb == s.tcb
    ensures ListOf(s1, p) == ListOf(s, p) && (IsOn(s, x, p) <==> IsOn(s1, x, p))
  {
  }

  lemma FinishChanges(s: Kernel, x: Task, p: nat)
    requires Core(s, {}, false) && IsOn(s, x, p)
    ensures Changes(ListOf(s, p), ListOf(FinishResume(s), p), x)
  {
    hide Core, EventPartition, DrainPending, Ticks, ResetNextUnblock, Changes, ListOf, IsOn;
    DrainChanges(s, x, p);
    DrainPendingKeeps(s);
    var s1 := DrainPending(s);
    ResetNextUnblockKeeps(s1, {}, false);
    ResetKeepsRest(s1);
    KeptLists(s1, ResetNextUnblock(s1), x, p);
    var s2 := if |EventList(s, PendingReady).items| == 0 then s1 else ResetNextUnblock(s1);
    TicksChange(s2, x, p, s.pended);
    ChangesTrans(ListOf(s, p), ListOf(s2, p), ListOf(Ticks(s2, s.pended), p), x);
    KeptLists(Ticks(s2, s.pended), FinishResume(s), x, p);
  }

  lemma TickChanges(s: Kernel, x: Task, p: nat)
    requires Inv(s) && IsOn(s, x, p)
    ensures Partition(s, {}) && Changes(ListOf(s, p), ListOf(TickInterrupt(s), p), x)
  {
    hide Inv, Core, ProcessTick, Partition, EventPartition, TimeOk, SuspensionOk, CountsOk, Changes, ListOf, IsOn;
    InvParts(s);
    var s1 := s.(delivered := s.delivered + 1);
    CoreFrame(s, s1, {}, false);
    CoreParts(s1, {}, false);
    KeptLists(s, s1, x, p);
    KeptLists(s, s1.(pended := s.pended + 1), x, p);
    NoChange(ListOf(s, p), x);
    if s.suspended == 0 { ProcessTickChanges(s1, x, p); }
  }

  lemma ResumeAllChanges(s: Kernel, x: Task, p: nat)
    requires Inv(s) && s.suspended > 0 && IsOn(s, x, p)
    ensures Core(s, {}, false) && Changes(ListOf(s, p), ListOf(ResumeAll(s), p), x)
  {
    hide Inv, Core, FinishResume, Changes, ListOf, IsOn;
    InvParts(s);
    var s1 := s.(suspended := s.suspended - 1);
    CoreFrame(s, s1, {}, false);
    KeptLists(s, s1, x, p);
    NoChange(ListOf(s, p), x);
    FinishChanges(s1, x, p);
  }

  // ----- One step -----

  // The step selects a task of priority p, the highest that has ready tasks.
  ghost predicate Selects(s: Kernel, step: Step, p: nat) { step.DoSwitch? && s.suspended == 0 && IsTop(s, p) }

  // What the ready list of priority p has been through: rs is a history of selections, departures and
  // arrivals, with a selection exactly if the step selects there, and x is chosen exactly if it runs then.
  ghost predicate TurnedBy(s: Kernel, s': Kernel, selects: bool, x: Task, p: nat, rs: seq<R.Step<Task>>) {
    && R.IsRun(ListOf(s, p), x, rs) && R.End(ListOf(s, p), rs) == ListOf(s', p)
    && R.Selections(rs) == (if selects then 1 else 0)
    && (R.EverChosen(ListOf(s, p), x, rs) <==> selects && s'.current == x)
  }

  lemma ChangesTurn(s: Kernel, s': Kernel, x: Task, p: nat)
    requires Changes(ListOf(s, p), ListOf(s', p), x)
    ensures exists rs :: TurnedBy(s, s', false, x, p, rs)
  {
    hide ListOf;
    var rs :| ChangesBy(ListOf(s, p), ListOf(s', p), x, rs);
    R.NobodyChosen(ListOf(s, p), x, rs);
    assert TurnedBy(s, s', false, x, p, rs);
  }

  lemma SwitchTurns(s: Kernel, x: Task, p: nat)
    requires Inv(s) && IsOn(s, x, p)
    ensures exists rs :: TurnedBy(s, SwitchContext(s), Selects(s, DoSwitch, p), x, p, rs)
  {
    hide Inv, SwitchContext, IsTop, Rotated;
    if Selects(s, DoSwitch, p) {
      SwitchRotates(s, p);
      ListHas(s, x, p);
      RotationTurns(s, SwitchContext(s), x, p);
    } else {
      OtherListKept(s, p);
      NoChange(ListOf(s, p), x);
      ChangesTurn(s, SwitchContext(s), x, p);
    }
  }

  lemma ListHas(s: Kernel, x: Task, p: nat)
    requires Inv(s) && IsOn(s, x, p)
    ensures x in ListOf(s, p).items && RingWf(ListOf(s, p))
  {
  }

  lemma RotationTurns(s: Kernel, s': Kernel, x: Task, p: nat)
    requires Rotated(s, s', p) && ListOf(s', p) == Advance(ListOf(s, p)) && x in ListOf(s, p).items
    ensures exists rs :: TurnedBy(s, s', true, x, p, rs)
  {
    var rs: seq<R.Step<Task>> := [R.Select];
    var r := ListOf(s, p);
    hide RingWf, R.Place;
    assert rs[1..] == [];
    assert R.EverChosen(r, x, rs) <==> R.PointsAt(Advance(r), x);
    assert R.PointsAt(Advance(r), x) <==> s'.current == x;
    assert TurnedBy(s, s', true, x, p, rs);
  }

  // A switch that selects elsewhere, or not at all, leaves the list alone.
  lemma OtherListKept(s: Kernel, p: nat)
    requires Inv(s) && !(s.suspended == 0 && IsTop(s, p))
    ensures ListOf(SwitchContext(s), p) == ListOf(s, p)
  {
    HighestReadyIs(s, s.top);
    forall q: nat | q > s.top ensures StateList(s, Ready(q)).items == [] { AboveTopEmpty(s, q); }
    hide Inv, HighestReady, StateList;
    var h := HighestReady(s, s.top);
    if s.suspended == 0 && StateList(s, Ready(h)).items != [] { OneTop(s, h, p); }
    SwitchList(s, p);
  }

  lemma OneTop(s: Kernel, h: nat, p: nat)
    requires StateList(s, Ready(h)).items != [] && !IsTop(s, p)
    requires forall q: nat :: q > h ==> StateList(s, Ready(q)).items == []
    ensures h != p
  {
  }

  lemma SwitchList(s: Kernel, p: nat)
    requires s.suspended == 0 && StateList(s, Ready(HighestReady(s, s.top))).items != [] ==> HighestReady(s, s.top) != p
    ensures ListOf(SwitchContext(s), p) == ListOf(s, p)
  {
    hide HighestReady;
  }

  lemma CleanUpMoves(s: Kernel, x: Task, p: nat)
    requires Inv(s) && s.waitingCleanUp > 0 && Live(s, s.current) && IsOn(s, x, p)
    ensures |StateList(s, Termination).items| > 0 && s.count > 0
    ensures Changes(ListOf(s, p), ListOf(CleanUpOne(s), p), x)
  {
    TerminatedHead(s);
    hide Inv, RemoveState, DropTcb, Remove, Changes, ListedAs;
    var t := StateList(s, Termination).items[0];
    InvParts(s);
    ListedHere(s, t, p);
    OffLists(s, t, p);
    RemoveStateEvent'(s, t);
    DropSame(RemoveState(s, t), t, p);
    CountedSame(DropTcb(RemoveState(s, t), t), s.waitingCleanUp - 1, p);
    MovedChanges(ListOf(s, p), ListOf(CleanUpOne(s), p), t, x);
  }

  lemma CreateChanges(s: Kernel, t: Task, priority: nat, x: Task, p: nat)
    requires Inv(s) && t !in s.tcb && IsOn(s, x, p)
    ensures Changes(ListOf(s, p), ListOf(TaskCreate(s, t, priority), p), x)
  {
    InvParts(s);
    Unlisted(s, t, p);
    hide Inv, Partition, TaskCreate, Changes, MovedBy;
    CreateMoves(s, t, priority, p);
    MovedChanges(ListOf(s, p), ListOf(TaskCreate(s, t, priority), p), t, x);
  }

  lemma Unlisted(s: Kernel, t: Task, p: nat)
    requires Partition(s, {}) && t !in s.tcb
    ensures t !in ListOf(s, p).items && RingWf(ListOf(s, p))
  {
  }

  lemma PriorityChanges(s: Kernel, t: Task, q: nat, x: Task, p: nat)
    requires Inv(s) && t in s.tcb && t != x
    ensures Changes(ListOf(s, p), ListOf(PrioritySet(s, t, q), p), x)
    ensures Changes(ListOf(s, p), ListOf(PriorityLower(s, t, q), p), x)
    ensures s.current in s.tcb && Changes(ListOf(s, p), ListOf(PriorityInherit(s, t), p), x)
  {
    InvParts(s);
    InvCurrent(s);
    ListedHere(s, t, p);
    hide Inv, Partition, MoveTo, SetEventValue, ListOf, MovedBy, Changes, ListedAs;
    NoChange(ListOf(s, p), x);
    forall v: nat, priority: nat, base: nat
      ensures t in SetEventValue(s, t, v).tcb
      ensures Changes(ListOf(s, p), ListOf(MoveTo(SetEventValue(s, t, v), t, priority, base), p), x)
    {
      PriorityMoves(s, t, v, priority, base, p);
      MovedChanges(ListOf(s, p), ListOf(MoveTo(SetEventValue(s, t, v), t, priority, base), p), t, x);
    }
  }

  // Suspending, resuming or deleting a task other than x; resuming x, which is not suspended, does nothing.
  lemma ListingChanges(s: Kernel, t: Task, x: Task, p: nat)
    requires Inv(s) && t in s.tcb && IsOn(s, x, p)
    ensures t != x ==> Changes(ListOf(s, p), ListOf(TaskSuspend(s, t), p), x)
    ensures t != x ==> Changes(ListOf(s, p), ListOf(TaskDelete(s, t), p), x)
    ensures Changes(ListOf(s, p), ListOf(TaskResume(s, t), p), x)
    ensures Changes(ListOf(s, p), ListOf(TaskResumeFromIsr(s, t), p), x)
  {
    InvParts(s);
    ListedHere(s, t, p);
    NoChange(ListOf(s, p), x);
    if t != x {
      hide Inv, Partition, TaskSuspend, TaskDelete, TaskResume, TaskResumeFromIsr, ListOf, MovedBy, Changes, ListedAs;
      SuspendMoves(s, t, p);
      DeleteMoves(s, t, p);
      ResumeMoves(s, t, p);
      MovedChanges(ListOf(s, p), ListOf(TaskSuspend(s, t), p), t, x);
      MovedChanges(ListOf(s, p), ListOf(TaskDelete(s, t), p), t, x);
      MovedChanges(ListOf(s, p), ListOf(TaskResume(s, t), p), t, x);
      MovedChanges(ListOf(s, p), ListOf(TaskResumeFromIsr(s, t), p), t, x);
    }
  }

  lemma TaskChanges(s: Kernel, step: Step, x: Task, p: nat)
    requires Inv(s) && Enabled(s, step) && AboutATask(step) && IsOn(s, x, p) && !Moves(s, step, x)
    ensures Changes(ListOf(s, p), ListOf(ApplyToTask(s, step), p), x)
  {
    hide Inv, Core, Partition, EventPartition, SuspensionOk, CountsOk, TaskSuspend, TaskResume, TaskResumeFromIsr,
      TaskCreate, TaskDelete, CleanUpOne, PrioritySet, PriorityInherit, PriorityLower, Changes, ListOf;
    match step {
      case DoSuspend(t) => ListingChanges(s, t, x, p);
      case DoResume(t) => ListingChanges(s, t, x, p);
      case DoResumeFromIsr(t) => ListingChanges(s, t, x, p);
      case DoCreate(t, q) => CreateChanges(s, t, q, x, p);
      case DoDelete(t) => ListingChanges(s, t, x, p);
      case DoCleanUp => CleanUpMoves(s, x, p);
      case DoSetPriority(t, q) => PriorityChanges(s, t, q, x, p);
      case DoInherit(h) => PriorityChanges(s, h, 0, x, p);
      case DoLower(h, q) => PriorityChanges(s, h, q, x, p);
    }
  }

  lemma BlockChanges(s: Kernel, e: EventId, value: Tick, ticks: Tick, x: Task, p: nat)
    requires Inv(s) && x != s.current
    ensures s.current in s.tcb && Changes(ListOf(s, p), ListOf(AddToDelayed(s, ticks, false), p), x)
    ensures Changes(ListOf(s, p), ListOf(PlaceOnEventList(s, e, ticks), p), x)
    ensures Changes(ListOf(s, p), ListOf(PlaceOnUnorderedEventList(s, e, value, ticks), p), x)
  {
    InvParts(s);
    ListedHere(s, s.current, p);
    hide Inv, Partition, AddToDelayed, PlaceOnEventList, PlaceOnUnorderedEventList, ListOf, MovedBy, Changes, ListedAs;
    DelayMoves(s, ticks, false, p);
    PlaceMoves(s, e, value, ticks, p);
    MovedChanges(ListOf(s, p), ListOf(AddToDelayed(s, ticks, false), p), s.current, x);
    MovedChanges(ListOf(s, p), ListOf(PlaceOnEventList(s, e, ticks), p), s.current, x);
    MovedChanges(ListOf(s, p), ListOf(PlaceOnUnorderedEventList(s, e, value, ticks), p), s.current, x);
  }

  lemma WakeChanges(s: Kernel, e: EventId, x: Task, p: nat)
    requires Inv(s) && |EventList(s, e).items| > 0 && EventList(s, e).items[0] != x
    ensures EventPartition(s) && Changes(ListOf(s, p), ListOf(RemoveFromEventList(s, e), p), x)
  {
    InvParts(s);
    var t := EventList(s, e).items[0];
    assert t in EventList(s, e).items;
    ListedHere(s, t, p);
    hide Inv, Partition, EventPartition, RemoveFromEventList, ListOf, MovedBy, Changes, ListedAs, EventList;
    WakeMoves(s, e, p);
    MovedChanges(ListOf(s, p), ListOf(RemoveFromEventList(s, e), p), t, x);
  }

  lemma WakeUnorderedChanges(s: Kernel, t: Task, value: Tick, x: Task, p: nat)
    requires Inv(s) && t in s.tcb && t != x
    ensures Changes(ListOf(s, p), ListOf(RemoveFromUnorderedEventList(s, t, value), p), x)
  {
    InvParts(s);
    ListedHere(s, t, p);
    hide Inv, Partition, RemoveFromUnorderedEventList, ListOf, MovedBy, Changes, ListedAs;
    WakeUnorderedMoves(s, t, value, p);
    MovedChanges(ListOf(s, p), ListOf(RemoveFromUnorderedEventList(s, t, value), p), t, x);
  }

  // Every kernel call that does not move x changes the list by departures and arrivals of others alone,
  // but for the switch.
  lemma StepChanges(s: Kernel, step: Step, x: Task, p: nat)
    requires Inv(s) && Enabled(s, step) && IsOn(s, x, p) && !Moves(s, step, x) && !step.DoSwitch?
    ensures Changes(ListOf(s, p), ListOf(Apply(s, step), p), x)
  {
    hide Inv, Core, Partition, EventPartition, SuspensionOk, CountsOk, TickInterrupt, ResumeAll, AddToDelayed,
      PlaceOnEventList, PlaceOnUnorderedEventList, RemoveFromEventList, RemoveFromUnorderedEventList, ApplyToTask,
      SwitchContext, Changes, ListOf, EventList;
    InvParts(s);
    match step {
      case DoTick => TickChanges(s, x, p);
      case DoSuspendAll =>
        KeptLists(s, SuspendAll(s), x, p);
        NoChange(ListOf(s, p), x);
      case DoResumeAll => ResumeAllChanges(s, x, p);
      case DoDelay(ticks) => BlockChanges(s, PendingReady, 0, ticks, x, p);
      case DoPlace(e, ticks) => BlockChanges(s, Event(e), 0, ticks, x, p);
      case DoPlaceUnordered(e, v, ticks) => BlockChanges(s, Event(e), v, ticks, x, p);
      case DoWake(e) => WakeChanges(s, Event(e), x, p);
      case DoWakeUnordered(t, v) => WakeUnorderedChanges(s, t, v, x, p);
      case _ => TaskChanges(s, step, x, p);
    }
  }

  lemma SwitchStep(s: Kernel, step: Step)
    requires Inv(s) && Enabled(s, step) && step.DoSwitch?
    ensures Apply(s, step) == SwitchContext(s)
  {
    hide Inv, Enabled, SwitchContext;
  }

  lemma StepTurns(s: Kernel, step: Step, x: Task, p: nat)
    requires Inv(s) && Enabled(s, step) && IsOn(s, x, p) && !Moves(s, step, x)
    ensures exists rs :: TurnedBy(s, Apply(s, step), Selects(s, step, p), x, p, rs)
  {
    hide Inv, Enabled, Moves, Apply, SwitchContext, Changes, TurnedBy, IsTop;
    if step.DoSwitch? {
      SwitchStep(s, step);
      SwitchTurns(s, x, p);
    } else {
      StepChanges(s, step, x, p);
      ChangesTurn(s, Apply(s, step), x, p);
      assert !Selects(s, step, p);
    }
  }

  // ----- Every run -----

  // From state i to state n task x is on the ready list of priority p, and no call moves it.
  ghost predicate Stays(run: seq<Kernel>, steps: seq<Step>, x: Task, p: nat, i: nat, n: nat)
    requires |run| == |steps| + 1 && n < |run|
  {
    && (forall j :: i <= j <= n ==> IsOn(run[j], x, p))
    && forall j :: i <= j < n ==> !Moves(run[j], steps[j], x)
  }

  // How often a switch has selected a task of priority p.
  ghost function Turns(run: seq<Kernel>, steps: seq<Step>, p: nat, i: nat, n: nat): nat
    requires |run| == |steps| + 1 && i <= n < |run|
  {
    if n == i then 0 else Turns(run, steps, p, i, n - 1) + if Selects(run[n - 1], steps[n - 1], p) then 1 else 0
  }

  ghost predicate RunsNext(run: seq<Kernel>, steps: seq<Step>, x: Task, p: nat, j: nat)
    requires |run| == |steps| + 1 && j < |steps|
  {
    Selects(run[j], steps[j], p) && run[j + 1].current == x
  }

  ghost predicate GetsToRun(run: seq<Kernel>, steps: seq<Step>, x: Task, p: nat, i: nat, n: nat)
    requires |run| == |steps| + 1 && n < |run|
  {
    exists j: nat :: i <= j < n && RunsNext(run, steps, x, p, j)
  }

  // What the ready list of priority p has been through from state i to state n.
  ghost predicate History(run: seq<Kernel>, steps: seq<Step>, x: Task, p: nat, i: nat, n: nat, rs: seq<R.Step<Task>>)
    requires |run| == |steps| + 1 && i <= n < |run|
  {
    && R.IsRun(ListOf(run[i], p), x, rs) && R.End(ListOf(run[i], p), rs) == ListOf(run[n], p)
    && R.Selections(rs) == Turns(run, steps, p, i, n)
    && (R.EverChosen(ListOf(run[i], p), x, rs) <==> GetsToRun(run, steps, x, p, i, n))
  }

  lemma {:induction false} HistoryInEveryRun(run: seq<Kernel>, steps: seq<Step>, x: Task, p: nat, i: nat, n: nat)
    requires IsRun(run, steps) && i <= n < |run| && Inv(run[0]) && Stays(run, steps, x, p, i, n)
    ensures exists rs :: History(run, steps, x, p, i, n, rs)
  {
    hide Inv, Apply, Enabled, Moves, Selects, ListOf, IsOn;
    if i == n {
      var none: seq<R.Step<Task>> := [];
      assert History(run, steps, x, p, i, n, none);
    } else {
      HistoryInEveryRun(run, steps, x, p, i, n - 1);
      RunKeeps(run, steps, n - 1);
      RunStep(run, steps, n - 1);
      StepTurns(run[n - 1], steps[n - 1], x, p);
      var a :| History(run, steps, x, p, i, n - 1, a);
      var b :| TurnedBy(run[n - 1], run[n], Selects(run[n - 1], steps[n - 1], p), x, p, b);
      HistoryJoins(run, steps, x, p, i, n, a, b);
    }
  }

  lemma HistoryJoins(run: seq<Kernel>, steps: seq<Step>, x: Task, p: nat, i: nat, n: nat,
                     a: seq<R.Step<Task>>, b: seq<R.Step<Task>>)
    requires |run| == |steps| + 1 && i < n < |run| && History(run, steps, x, p, i, n - 1, a)
    requires TurnedBy(run[n - 1], run[n], Selects(run[n - 1], steps[n - 1], p), x, p, b)
    ensures History(run, steps, x, p, i, n, a + b)
  {
    hide ListOf, R.IsRun, R.End, R.EverChosen, R.Selections;
    R.RunsJoin(ListOf(run[i], p), x, a, b);
    OneMore(run, steps, x, p, i, n);
    assert RunsNext(run, steps, x, p, n - 1) <==> Selects(run[n - 1], steps[n - 1], p) && run[n].current == x;
  }

  lemma OneMore(run: seq<Kernel>, steps: seq<Step>, x: Task, p: nat, i: nat, n: nat)
    requires |run| == |steps| + 1 && i < n < |run|
    ensures GetsToRun(run, steps, x, p, i, n) <==>
      GetsToRun(run, steps, x, p, i, n - 1) || RunsNext(run, steps, x, p, n - 1)
  {
    hide RunsNext;
    if GetsToRun(run, steps, x, p, i, n - 1) {
      var j: nat :| i <= j < n - 1 && RunsNext(run, steps, x, p, j);
      assert i <= j < n && RunsNext(run, steps, x, p, j);
    }
    if RunsNext(run, steps, x, p, n - 1) { assert i <= n - 1 < n && RunsNext(run, steps, x, p, n - 1); }
  }

  // While a ready task is left where it is, it gets to run exactly when the selections made at its
  // priority, and the departures of tasks due before it, have made up for its place and for the
  // arrivals put in front of it. So it does when the selections alone have.
  lemma TurnsInEveryRun(run: seq<Kernel>, steps: seq<Step>, x: Task, p: nat, i: nat, n: nat)
    requires IsRun(run, steps) && i <= n < |run| && Inv(run[0]) && Stays(run, steps, x, p, i, n)
    ensures RingWf(ListOf(run[i], p)) && x in ListOf(run[i], p).items
    ensures exists rs ::
      && History(run, steps, x, p, i, n, rs)
      && (GetsToRun(run, steps, x, p, i, n) <==> R.DueWithin(ListOf(run[i], p), x, rs))
      && (Turns(run, steps, p, i, n) >= R.Place(ListOf(run[i], p), x) + R.Overtakings(ListOf(run[i], p), x, rs) ==>
            GetsToRun(run, steps, x, p, i, n))
  {
    hide Inv, Apply, Enabled, Moves, Selects, ListOf, IsOn, GetsToRun;
    RunKeeps(run, steps, i);
    ListHas(run[i], x, p);
    HistoryInEveryRun(run, steps, x, p, i, n);
    var rs :| History(run, steps, x, p, i, n, rs);
    R.ChosenExactly(ListOf(run[i], p), x, rs);
    if R.Selections(rs) >= R.Place(ListOf(run[i], p), x) + R.Overtakings(ListOf(run[i], p), x, rs) {
      R.ChosenWithin(ListOf(run[i], p), x, rs);
    }
  }

  // Nobody joins or leaves the list between states i and n.
  ghost predicate LeftAlone(run: seq<Kernel>, steps: seq<Step>, p: nat, i: nat, n: nat)
    requires |run| == |steps| + 1 && n < |run|
  {
    forall j :: i <= j < n ==> Selects(run[j], steps[j], p) || ListOf(run[j + 1], p) == ListOf(run[j], p)
  }

  // Then each selection brings a task one place closer until it runs, so of k tasks each runs within k selections.
  lemma {:induction false} SharedInTurn(run: seq<Kernel>, steps: seq<Step>, x: Task, p: nat, i: nat, n: nat)
    requires IsRun(run, steps) && i <= n < |run| && Inv(run[0]) && LeftAlone(run, steps, p, i, n)
    requires x in ListOf(run[i], p).items
    ensures 1 <= R.Place(ListOf(run[i], p), x) <= |ListOf(run[i], p).items|
    ensures x in ListOf(run[n], p).items && R.Place(ListOf(run[n], p), x) >= 1
    ensures !GetsToRun(run, steps, x, p, i, n) ==>
      R.Place(ListOf(run[n], p), x) == R.Place(ListOf(run[i], p), x) - Turns(run, steps, p, i, n)
    ensures Turns(run, steps, p, i, n) >= R.Place(ListOf(run[i], p), x) ==> GetsToRun(run, steps, x, p, i, n)
  {
    hide Inv, Apply, Enabled, Selects, ListOf, GetsToRun, R.Place;
    RunKeeps(run, steps, i);
    PlaceIsNear(run[i], x, p);
    if i < n {
      SharedInTurn(run, steps, x, p, i, n - 1);
      RunKeeps(run, steps, n - 1);
      RunStep(run, steps, n - 1);
      OneMore(run, steps, x, p, i, n);
      if Selects(run[n - 1], steps[n - 1], p) { SelectionMoves(run[n - 1], steps[n - 1], x, p); }
      RunKeeps(run, steps, n);
      PlaceIsNear(run[n], x, p);
    } else {
      NotYet(run, steps, x, p, i);
    }
  }

  lemma NotYet(run: seq<Kernel>, steps: seq<Step>, x: Task, p: nat, i: nat)
    requires |run| == |steps| + 1 && i < |run|
    ensures !GetsToRun(run, steps, x, p, i, i) && Turns(run, steps, p, i, i) == 0
  {
  }

  lemma PlaceIsNear(s: Kernel, x: Task, p: nat)
    requires Inv(s) && x in ListOf(s, p).items
    ensures 1 <= R.Place(ListOf(s, p), x) <= |ListOf(s, p).items|
  {
    RingIsWf(s, Ready(p));
    hide Inv, RingWf, R.Place;
    R.SelectionAdvances(ListOf(s, p), x);
  }

  lemma SelectionMoves(s: Kernel, step: Step, x: Task, p: nat)
    requires Inv(s) && Enabled(s, step) && Selects(s, step, p) && x in ListOf(s, p).items
    ensures x in ListOf(Apply(s, step), p).items
    ensures Apply(s, step).current != x ==> R.Place(ListOf(Apply(s, step), p), x) == R.Place(ListOf(s, p), x) - 1
  {
    hide Inv, Enabled, Apply, SwitchContext, IsTop, R.Place, R.PointsAt;
    SwitchStep(s, step);
    SwitchRotates(s, p);
  }
}
