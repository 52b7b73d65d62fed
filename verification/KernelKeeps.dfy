// What each primitive keeps of the kernel's invariant.
module KernelKeeps {
  import opened ListRing
  import opened KernelState

  // For proofs that keep the definition of Core out of sight.
  lemma CoreParts(s: Kernel, d: set<Task>, due: bool)
    requires Core(s, d, due)
    ensures Partition(s, d) && EventPartition(s) && TimeOk(s, due)
  {
  }

  // ----- One conjunct at a time -----

  // One state list and the container of one task have changed.
  lemma ListChanged(s: Kernel, l: ListId, r: Ring<Task>, t: Task, c: Container<ListId>, m: ListId)
    requires t in s.tcb
    ensures StateList(SetStateList(s, l, r, t, c), m) == if m == l then r else StateList(s, m)
  {
  }

  lemma RingsChanged(s: Kernel, l: ListId, r: Ring<Task>, t: Task, c: Container<ListId>)
    requires RingsOk(s) && RingWf(r) && t in s.tcb
    ensures RingsOk(SetStateList(s, l, r, t, c))
  {
    hide RingWf, StateList;
    forall m ensures RingWf(StateList(SetStateList(s, l, r, t, c), m)) { ListChanged(s, l, r, t, c, m); }
  }

  ghost predicate Without(r: Ring<Task>, before: Ring<Task>, t: Task) {
    forall y :: y in r.items <==> y != t && y in before.items
  }

  ghost predicate With(r: Ring<Task>, before: Ring<Task>, t: Task) {
    forall y :: y in r.items <==> y == t || y in before.items
  }

  lemma PartitionLeave(s: Kernel, d: set<Task>, l: ListId, r: Ring<Task>, t: Task)
    requires Partition(s, d) && t in s.tcb && s.tcb[t].stateIn == In(l) && RingWf(r) && Without(r, StateList(s, l), t)
    ensures Partition(SetStateList(s, l, r, t, NotInList), d + {t})
  {
    hide RingsOk, ListedOk, ContainedOk, OutOk, RingWf, Without;
    RingsChanged(s, l, r, t, NotInList);
    LeaveListed(s, l, r, t);
    LeaveContained(s, l, r, t);
    LeaveOut(s, d, l, r, t);
  }

  lemma LeaveListed(s: Kernel, l: ListId, r: Ring<Task>, t: Task)
    requires ListedOk(s) && t in s.tcb && s.tcb[t].stateIn == In(l) && Without(r, StateList(s, l), t)
    ensures ListedOk(SetStateList(s, l, r, t, NotInList))
  {
    var s' := SetStateList(s, l, r, t, NotInList);
    hide StateList;
    forall m, x | x in StateList(s', m).items ensures x in s'.tcb && s'.tcb[x].stateIn == In(m) {
      ListChanged(s, l, r, t, NotInList, m);
    }
  }

  lemma LeaveContained(s: Kernel, l: ListId, r: Ring<Task>, t: Task)
    requires ContainedOk(s) && t in s.tcb && s.tcb[t].stateIn == In(l) && Without(r, StateList(s, l), t)
    ensures ContainedOk(SetStateList(s, l, r, t, NotInList))
  {
    var s' := SetStateList(s, l, r, t, NotInList);
    hide StateList;
    forall x | x in s'.tcb && s'.tcb[x].stateIn.In? ensures x in StateList(s', s'.tcb[x].stateIn.list).items {
      ListChanged(s, l, r, t, NotInList, s'.tcb[x].stateIn.list);
    }
  }

  lemma LeaveOut(s: Kernel, d: set<Task>, l: ListId, r: Ring<Task>, t: Task)
    requires OutOk(s, d) && t in s.tcb
    ensures OutOk(SetStateList(s, l, r, t, NotInList), d + {t})
  {
  }

  lemma PartitionEnter(s: Kernel, d: set<Task>, l: ListId, r: Ring<Task>, t: Task)
    requires Partition(s, d) && t in s.tcb && t in d && RingWf(r) && With(r, StateList(s, l), t)
    ensures Partition(SetStateList(s, l, r, t, In(l)), d - {t})
  {
    OutIsNowhere(s, d, t);
    hide RingsOk, ListedOk, ContainedOk, OutOk, RingWf, With;
    RingsChanged(s, l, r, t, In(l));
    EnterListed(s, l, r, t);
    EnterContained(s, l, r, t);
    EnterOut(s, d, l, r, t);
  }

  lemma OutIsNowhere(s: Kernel, d: set<Task>, t: Task)
    requires OutOk(s, d) && t in s.tcb && t in d
    ensures s.tcb[t].stateIn.NotInList?
  {
  }

  lemma EnterListed(s: Kernel, l: ListId, r: Ring<Task>, t: Task)
    requires ListedOk(s) && t in s.tcb && s.tcb[t].stateIn.NotInList? && With(r, StateList(s, l), t)
    ensures ListedOk(SetStateList(s, l, r, t, In(l)))
  {
    var s' := SetStateList(s, l, r, t, In(l));
    hide StateList;
    forall m, x | x in StateList(s', m).items ensures x in s'.tcb && s'.tcb[x].stateIn == In(m) {
      ListChanged(s, l, r, t, In(l), m);
    }
  }

  lemma EnterContained(s: Kernel, l: ListId, r: Ring<Task>, t: Task)
    requires ContainedOk(s) && t in s.tcb && With(r, StateList(s, l), t)
    ensures ContainedOk(SetStateList(s, l, r, t, In(l)))
  {
    var s' := SetStateList(s, l, r, t, In(l));
    hide StateList;
    forall x | x in s'.tcb && s'.tcb[x].stateIn.In? ensures x in StateList(s', s'.tcb[x].stateIn.list).items {
      ListChanged(s, l, r, t, In(l), s'.tcb[x].stateIn.list);
    }
  }

  lemma EnterOut(s: Kernel, d: set<Task>, l: ListId, r: Ring<Task>, t: Task)
    requires OutOk(s, d) && t in s.tcb
    ensures OutOk(SetStateList(s, l, r, t, In(l)), d - {t})
  {
  }

  lemma EventPartitionLeave(s: Kernel, e: EventId, r: Ring<Task>, t: Task)
    requires EventPartition(s) && t in s.tcb && s.tcb[t].eventIn == In(e)
    requires RingWf(r) && forall y :: y in r.items <==> y != t && y in EventList(s, e).items
    ensures EventPartition(SetEventList(s, e, r, t, NotInList))
  {
    var s' := SetEventList(s, e, r, t, NotInList);
    assert forall m :: EventList(s', m) == if m == e then r else EventList(s, m);
  }

  lemma EventPartitionEnter(s: Kernel, e: EventId, r: Ring<Task>, t: Task)
    requires EventPartition(s) && t in s.tcb && s.tcb[t].eventIn.NotInList?
    requires RingWf(r) && forall y :: y in r.items <==> y == t || y in EventList(s, e).items
    ensures EventPartition(SetEventList(s, e, r, t, In(e)))
  {
    var s' := SetEventList(s, e, r, t, In(e));
    assert forall m :: EventList(s', m) == if m == e then r else EventList(s, m);
  }

  lemma PartitionFrame(s: Kernel, s': Kernel, d: set<Task>)
    requires Partition(s, d) && s'.lists == s.lists && s'.tcb.Keys == s.tcb.Keys
    requires forall t :: t in s.tcb ==> s'.tcb[t].stateIn == s.tcb[t].stateIn
    ensures Partition(s', d)
  {
    assert forall m :: StateList(s', m) == StateList(s, m);
  }

  lemma RemoveStatePartition(s: Kernel, d: set<Task>, t: Task)
    requires Partition(s, d) && t in s.tcb && t !in d
    ensures Partition(RemoveState(s, t), d + {t})
  {
    var l := s.tcb[t].stateIn.list;
    RemoveFacts(StateList(s, l), t);
    PartitionLeave(s, d, l, Remove(StateList(s, l), t), t);
  }

  lemma AddReadyPartition(s: Kernel, d: set<Task>, t: Task)
    requires Partition(s, d) && t in s.tcb && t in d
    ensures Partition(AddReady(s, t), d - {t})
  {
    var l := Ready(s.tcb[t].priority);
    var r := InsertEnd(StateList(s, l), t);
    InsertEndFacts(StateList(s, l), t);
    PartitionEnter(s, d, l, r, t);
    PartitionFrame(SetStateList(s, l, r, t, In(l)), AddReady(s, t), d - {t});
  }

  lemma EventPartitionFrame(s: Kernel, s': Kernel)
    requires EventPartition(s) && s'.events == s.events && s'.tcb.Keys == s.tcb.Keys
    requires forall t :: t in s.tcb ==> s'.tcb[t].eventIn == s.tcb[t].eventIn
    ensures EventPartition(s')
  {
    assert forall m :: EventList(s', m) == EventList(s, m);
  }

  ghost predicate SameClock(s: Kernel, s': Kernel) {
    && s'.tick == s.tick && s'.time == s.time && s'.wake == s.wake && s'.list1IsCurrent == s.list1IsCurrent
    && s'.tcb.Keys == s.tcb.Keys
    && forall t :: t in s.tcb ==> s'.tcb[t].stateValue == s.tcb[t].stateValue
  }

  // No task joins a delayed list: the promises about time stay.
  lemma TimeFrame(s: Kernel, s': Kernel, due: bool)
    requires TimeOk(s, due) && SameClock(s, s') && s'.nextUnblock == s.nextUnblock
    requires forall t :: t in s'.tcb && s'.tcb[t].stateIn.In? && IsDelayed(s'.tcb[t].stateIn.list) ==>
      s.tcb[t].stateIn == s'.tcb[t].stateIn
    requires SortedList(s', Delayed1) && SortedList(s', Delayed2)
    ensures TimeOk(s', due)
  {
    hide ClockOk, SortedList, NextUnblockOk;
    ClockFrame(s, s', due);
    if !due { BoundFrame(s, s'); }
  }

  lemma ClockFrame(s: Kernel, s': Kernel, due: bool)
    requires ClockOk(s, due) && SameClock(s, s')
    requires forall t :: t in s'.tcb && s'.tcb[t].stateIn.In? && IsDelayed(s'.tcb[t].stateIn.list) ==>
      s.tcb[t].stateIn == s'.tcb[t].stateIn
    ensures ClockOk(s', due)
  {
    forall t | t in s'.tcb && s'.tcb[t].stateIn.In? && IsDelayed(s'.tcb[t].stateIn.list)
      ensures OnTime(s, t, due) ==> OnTime(s', t, due)
    { }
  }

  lemma BoundFrame(s: Kernel, s': Kernel)
    requires NextUnblockOk(s) && SameClock(s, s') && s'.nextUnblock <= s.nextUnblock
    requires forall t :: t in s'.tcb && s'.tcb[t].stateIn.In? && IsDelayed(s'.tcb[t].stateIn.list) ==>
      s.tcb[t].stateIn == s'.tcb[t].stateIn
    ensures NextUnblockOk(s')
  {
  }

  // Core reads neither the counts nor the suspension state nor the running task.
  lemma CoreFrame(s: Kernel, s': Kernel, d: set<Task>, due: bool)
    requires Core(s, d, due) && s'.tcb == s.tcb && s'.lists == s.lists && s'.events == s.events
    requires SameClock(s, s') && s'.nextUnblock == s.nextUnblock && s'.top == s.top
    ensures Core(s', d, due)
  {
    hide Partition, EventPartition, WaitersBlocked, ReadyOk, TimeOk;
    PartitionFrame(s, s', d);
    EventPartitionFrame(s, s');
    BlockedFrame(s, s');
    ReadyFrame(s, s');
    EventMoveTime(s, s', due);
  }

  lemma SameListSorted(s: Kernel, s': Kernel, l: ListId)
    requires SameClock(s, s') && StateList(s', l) == StateList(s, l) && SortedList(s, l)
    ensures SortedList(s', l)
  {
    assert StateValues(s', StateList(s', l)) == StateValues(s, StateList(s, l));
  }

  lemma RemovedListSorted(s: Kernel, s': Kernel, l: ListId, t: Task)
    requires SameClock(s, s') && SortedList(s, l)
    requires t in StateList(s, l).items && StateList(s', l) == Remove(StateList(s, l), t)
    ensures SortedList(s', l)
  {
    var a, b := StateValues(s, StateList(s, l)), StateValues(s', StateList(s', l));
    var k := Find(StateList(s, l).items, t);
    forall i | 0 <= i < |b| ensures b[i] == a[if i < k then i else i + 1] { }
  }

  // ----- The other conjuncts -----

  lemma BlockedFrame(s: Kernel, s': Kernel)
    requires WaitersBlocked(s)
    requires forall t :: t in s'.tcb && s'.tcb[t].eventIn.In? && s'.tcb[t].stateIn.In? ==>
      t in s.tcb && s.tcb[t].eventIn.In? && s.tcb[t].stateIn == s'.tcb[t].stateIn
    ensures WaitersBlocked(s')
  {
  }

  // Priorities are as they were, and no task has joined a ready list.
  lemma ReadyFrame(s: Kernel, s': Kernel)
    requires ReadyOk(s) && s'.top == s.top
    requires forall t :: t in s'.tcb ==> t in s.tcb && SamePriorities(s.tcb[t], s'.tcb[t])
    requires forall t :: t in s'.tcb && s'.tcb[t].stateIn.In? && s'.tcb[t].stateIn.list.Ready? ==>
      s.tcb[t].stateIn == s'.tcb[t].stateIn
    ensures ReadyOk(s')
  {
  }

  predicate SamePriorities(a: Tcb, b: Tcb) { a.priority == b.priority && a.basePriority == b.basePriority }

  lemma InItsList(s: Kernel, d: set<Task>, t: Task)
    requires Partition(s, d) && t in s.tcb && t !in d
    ensures s.tcb[t].stateIn.In? && t in StateList(s, s.tcb[t].stateIn.list).items
  {
  }

  // ----- The primitives -----

  lemma RemoveStateTime(s: Kernel, t: Task, due: bool)
    requires TimeOk(s, due) && t in s.tcb && s.tcb[t].stateIn.In? && t in StateList(s, s.tcb[t].stateIn.list).items
    ensures TimeOk(RemoveState(s, t), due)
  {
    var l, s' := s.tcb[t].stateIn.list, RemoveState(s, t);
    assert forall m :: m != l ==> StateList(s', m) == StateList(s, m);
    assert StateList(s', l) == Remove(StateList(s, l), t);
    hide StateList, Remove;
    forall m | IsDelayed(m) ensures SortedList(s', m) {
      if m == l { RemovedListSorted(s, s', l, t); } else { SameListSorted(s, s', m); }
    }
    TimeFrame(s, s', due);
  }

  lemma RemoveStateKeeps(s: Kernel, d: set<Task>, t: Task, due: bool)
    requires Core(s, d, due) && t in s.tcb && t !in d
    ensures Core(RemoveState(s, t), d + {t}, due)
  {
    hide Partition, EventPartition, WaitersBlocked, ReadyOk, TimeOk, StateList, Remove;
    InItsList(s, d, t);
    RemoveStatePartition(s, d, t);
    EventPartitionFrame(s, RemoveState(s, t));
    BlockedFrame(s, RemoveState(s, t));
    ReadyFrame(s, RemoveState(s, t));
    RemoveStateTime(s, t, due);
  }

  lemma RemoveEventKeeps(s: Kernel, d: set<Task>, t: Task, due: bool)
    requires Core(s, d, due) && t in s.tcb
    ensures Core(RemoveEvent(s, t), d, due)
    ensures RemoveEvent(s, t).tcb[t].eventIn.NotInList?
  {
    hide Partition, EventPartition, WaitersBlocked, ReadyOk, TimeOk, EventList, Remove;
    var s' := RemoveEvent(s, t);
    if s.tcb[t].eventIn.In? {
      RemoveEventPartition(s, t);
      BlockedFrame(s, s');
      EventMoveFrame(s, s', d, due);
    }
  }

  lemma RemoveEventPartition(s: Kernel, t: Task)
    requires EventPartition(s) && t in s.tcb && s.tcb[t].eventIn.In?
    ensures EventPartition(RemoveEvent(s, t))
  {
    var e := s.tcb[t].eventIn.list;
    RemoveFacts(EventList(s, e), t);
    EventPartitionLeave(s, e, Remove(EventList(s, e), t), t);
  }

  // Moving an event item touches nothing but the event lists.
  lemma EventMoveFrame(s: Kernel, s': Kernel, d: set<Task>, due: bool)
    requires Partition(s, d) && TimeOk(s, due) && ReadyOk(s)
    requires SameClock(s, s') && s'.lists == s.lists && s'.nextUnblock == s.nextUnblock && s'.top == s.top
    requires forall t :: t in s.tcb ==> s'.tcb[t].stateIn == s.tcb[t].stateIn && SamePriorities(s.tcb[t], s'.tcb[t])
    ensures Partition(s', d) && TimeOk(s', due) && ReadyOk(s')
  {
    hide Partition, ReadyOk, TimeOk;
    PartitionFrame(s, s', d);
    ReadyFrame(s, s');
    EventMoveTime(s, s', due);
  }

  lemma EventMoveTime(s: Kernel, s': Kernel, due: bool)
    requires TimeOk(s, due) && SameClock(s, s') && s'.lists == s.lists && s'.nextUnblock == s.nextUnblock
    requires forall t :: t in s.tcb ==> s'.tcb[t].stateIn == s.tcb[t].stateIn
    ensures TimeOk(s', due)
  {
    SameListSorted(s, s', Delayed1);
    SameListSorted(s, s', Delayed2);
    TimeFrame(s, s', due);
  }

  // A state item that goes onto a list where no task waits for time.
  lemma StateEnterFrame(s: Kernel, s': Kernel, l: ListId, t: Task, due: bool)
    requires EventPartition(s) && WaitersBlocked(s) && ReadyOk(s) && TimeOk(s, due)
    requires t in s.tcb && !IsDelayed(l) && (l != Suspended ==> s.tcb[t].eventIn.NotInList?)
    requires s'.tcb == s.tcb[t := s.tcb[t].(stateIn := In(l))] && s'.events == s.events
    requires SameClock(s, s') && s'.nextUnblock == s.nextUnblock
    requires StateList(s', Delayed1) == StateList(s, Delayed1) && StateList(s', Delayed2) == StateList(s, Delayed2)
    requires s.top <= s'.top < MAX_PRIORITIES && (l.Ready? ==> l.priority == s.tcb[t].priority <= s'.top)
    ensures EventPartition(s') && WaitersBlocked(s') && ReadyOk(s') && TimeOk(s', due)
  {
    EnterReady(s, s', l, t);
    EnterBlocked(s, s', l, t);
    hide EventPartition, WaitersBlocked, ReadyOk;
    EventPartitionFrame(s, s');
    SameListSorted(s, s', Delayed1);
    SameListSorted(s, s', Delayed2);
    TimeFrame(s, s', due);
  }

  lemma EnterReady(s: Kernel, s': Kernel, l: ListId, t: Task)
    requires ReadyOk(s) && t in s.tcb && s'.tcb == s.tcb[t := s.tcb[t].(stateIn := In(l))]
    requires s.top <= s'.top < MAX_PRIORITIES && (l.Ready? ==> l.priority == s.tcb[t].priority <= s'.top)
    ensures ReadyOk(s')
  {
  }

  lemma EnterBlocked(s: Kernel, s': Kernel, l: ListId, t: Task)
    requires WaitersBlocked(s) && t in s.tcb && s'.tcb == s.tcb[t := s.tcb[t].(stateIn := In(l))]
    requires l != Suspended ==> s.tcb[t].eventIn.NotInList?
    ensures WaitersBlocked(s')
  {
  }

  lemma AppendStatePartition(s: Kernel, d: set<Task>, l: ListId, t: Task)
    requires Partition(s, d) && t in s.tcb && t in d
    ensures Partition(AppendState(s, l, t), d - {t})
  {
    NotInAnyList(s, d, t, l);
    InsertEndFacts(StateList(s, l), t);
    hide Partition, InsertEnd;
    PartitionEnter(s, d, l, InsertEnd(StateList(s, l), t), t);
  }

  lemma NotInAnyList(s: Kernel, d: set<Task>, t: Task, l: ListId)
    requires Partition(s, d) && t in s.tcb && t in d
    ensures RingWf(StateList(s, l)) && t !in StateList(s, l).items
  {
  }

  lemma AppendStateKeeps(s: Kernel, d: set<Task>, l: ListId, t: Task, due: bool)
    requires Core(s, d, due) && t in d && t in s.tcb && (l == Suspended || l == Termination)
    requires l == Termination ==> s.tcb[t].eventIn.NotInList?
    ensures Core(AppendState(s, l, t), d - {t}, due)
  {
    TopInRange(s);
    hide Partition, EventPartition, WaitersBlocked, ReadyOk, TimeOk, InsertEnd;
    AppendStatePartition(s, d, l, t);
    StateEnterFrame(s, AppendState(s, l, t), l, t, due);
  }

  lemma TopInRange(s: Kernel)
    requires ReadyOk(s)
    ensures s.top < MAX_PRIORITIES && forall t :: t in s.tcb ==> s.tcb[t].priority < MAX_PRIORITIES
  {
  }

  lemma AddReadyKeeps(s: Kernel, d: set<Task>, t: Task, due: bool)
    requires Core(s, d, due) && t in d && t in s.tcb && s.tcb[t].eventIn.NotInList?
    ensures Core(AddReady(s, t), d - {t}, due)
  {
    TopInRange(s);
    hide Partition, EventPartition, WaitersBlocked, ReadyOk, TimeOk, InsertEnd;
    AddReadyPartition(s, d, t);
    StateEnterFrame(s, AddReady(s, t), Ready(s.tcb[t].priority), t, due);
  }

  // What lets a task's event item join a list: its state item is on none, or where a task waits.
  predicate MayWait(s: Kernel, t: Task)
    requires t in s.tcb
  {
    && s.tcb[t].eventIn.NotInList?
    && (s.tcb[t].stateIn.In? ==> IsDelayed(s.tcb[t].stateIn.list) || s.tcb[t].stateIn.list == Suspended)
  }

  lemma EnterEventKeeps(s: Kernel, d: set<Task>, e: EventId, r: Ring<Task>, t: Task, due: bool)
    requires Core(s, d, due) && t in s.tcb && MayWait(s, t)
    requires RingWf(r) && forall y :: y in r.items <==> y == t || y in EventList(s, e).items
    ensures Core(SetEventList(s, e, r, t, In(e)), d, due)
  {
    EventEnterBlocked(s, e, r, t);
    hide Partition, EventPartition, WaitersBlocked, ReadyOk, TimeOk, RingWf;
    EventPartitionEnter(s, e, r, t);
    EventMoveFrame(s, SetEventList(s, e, r, t, In(e)), d, due);
  }

  lemma EventEnterBlocked(s: Kernel, e: EventId, r: Ring<Task>, t: Task)
    requires WaitersBlocked(s) && t in s.tcb && MayWait(s, t)
    ensures WaitersBlocked(SetEventList(s, e, r, t, In(e)))
  {
  }

  lemma NotWaiting(s: Kernel, e: EventId, t: Task)
    requires EventPartition(s) && t in s.tcb && s.tcb[t].eventIn.NotInList?
    ensures RingWf(EventList(s, e)) && t !in EventList(s, e).items
  {
  }

  lemma AppendEventKeeps(s: Kernel, d: set<Task>, e: EventId, t: Task, due: bool)
    requires Core(s, d, due) && t in s.tcb && MayWait(s, t)
    ensures Core(AppendEvent(s, e, t), d, due)
  {
    hide Partition, EventPartition, WaitersBlocked, ReadyOk, TimeOk, InsertEnd, RingWf;
    NotWaiting(s, e, t);
    InsertEndFacts(EventList(s, e), t);
    EnterEventKeeps(s, d, e, InsertEnd(EventList(s, e), t), t, due);
  }

  lemma InsertEventKeeps(s: Kernel, d: set<Task>, e: EventId, t: Task, due: bool)
    requires Core(s, d, due) && t in s.tcb && MayWait(s, t)
    ensures Core(InsertEvent(s, e, t), d, due)
  {
    hide Partition, EventPartition, WaitersBlocked, ReadyOk, TimeOk, InsertAt, RingWf;
    NotWaiting(s, e, t);
    var r := EventList(s, e);
    var k := InsertPos(EventValues(s, r), s.tcb[t].eventValue);
    InsertAtFacts(r, k, t);
    EnterEventKeeps(s, d, e, InsertAt(r, k, t), t, due);
  }

  lemma HeadIsEarliest(s: Kernel, l: ListId, t: Task)
    requires SortedList(s, l) && t in StateList(s, l).items
    requires forall x :: x in StateList(s, l).items ==> x in s.tcb
    ensures StateList(s, l).items[0] in s.tcb
    ensures s.tcb[StateList(s, l).items[0]].stateValue <= s.tcb[t].stateValue
  {
    var r := StateList(s, l);
    var v := StateValues(s, r);
    var k := Find(r.items, t);
    assert r.items[0] in r.items;
    assert v[0] <= v[k];
  }

  lemma ResetNextUnblockKeeps(s: Kernel, d: set<Task>, due: bool)
    requires Core(s, d, due)
    ensures Core(ResetNextUnblock(s), d, due)
  {
    hide Partition, EventPartition, WaitersBlocked, ReadyOk, ClockOk, SortedList, NextUnblockOk;
    var s' := ResetNextUnblock(s);
    PartitionFrame(s, s', d);
    EventPartitionFrame(s, s');
    BlockedFrame(s, s');
    ReadyFrame(s, s');
    ResetNextUnblockTime(s, d, due);
  }

  lemma ResetNextUnblockTime(s: Kernel, d: set<Task>, due: bool)
    requires Partition(s, d) && ClockOk(s, due) && SortedList(s, Delayed1) && SortedList(s, Delayed2)
    ensures TimeOk(ResetNextUnblock(s), due) && NextUnblockOk(ResetNextUnblock(s))
  {
    hide Partition, ClockOk, SortedList, NextUnblockOk;
    var s' := ResetNextUnblock(s);
    SameListSorted(s, s', Delayed1);
    SameListSorted(s, s', Delayed2);
    ClockFrame(s, s', due);
    ResetBounds(s, d);
  }

  lemma ResetBounds(s: Kernel, d: set<Task>)
    requires Partition(s, d) && SortedList(s, CurrentDelayed(s))
    ensures NextUnblockOk(ResetNextUnblock(s))
  {
    var s', l := ResetNextUnblock(s), CurrentDelayed(s);
    forall t | t in s.tcb && s.tcb[t].stateIn == In(l) ensures s'.nextUnblock <= s.tcb[t].stateValue {
      HeadIsEarliest(s, l, t);
    }
  }
}
