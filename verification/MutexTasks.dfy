// The priority fields of a task control block and the recursive mutex, updated in place.
module MutexTasks {
  import P = MutexProtocol

  type TaskId = P.TaskId

  class TaskControlBlock {
    var uxPriority: nat
    var uxBasePriority: nat
    var uxMutexesHeld: nat
    var eventPriority: nat           // configMAX_PRIORITIES less the event list item's value
    var pc: P.Pc

    ghost function State(): P.Tcb
      reads this
    {
      P.Tcb(uxPriority, uxBasePriority, eventPriority, uxMutexesHeld, pc)
    }

    constructor (priority: nat)
      ensures State() == P.Tcb(priority, priority, priority, 0, P.Outside)
    {
      uxPriority, uxBasePriority, eventPriority, uxMutexesHeld, pc := priority, priority, priority, 0, P.Outside;
    }

    // xTaskPriorityInherit, for a mutex that has a holder
    method PriorityInherit(currentPriority: nat) returns (occurred: bool)
      modifies this
      ensures State() == P.Inherit(old(State()), currentPriority)
      ensures occurred == P.Inherits(old(State()), currentPriority)
      ensures uxPriority >= currentPriority && uxPriority >= old(uxPriority)
      ensures uxPriority == currentPriority || State() == old(State())
      ensures old(uxBasePriority <= uxPriority) ==> (occurred <==> uxBasePriority < currentPriority)
    {
      occurred := false;
      if uxPriority < currentPriority {
        eventPriority := currentPriority;
        uxPriority := currentPriority;
        occurred := true;
      } else if uxBasePriority < currentPriority {
        occurred := true;
      }
    }

    // xTaskPriorityDisinherit, called by the holder
    method PriorityDisinherit() returns (yieldRequired: bool)
      requires uxMutexesHeld > 0
      modifies this
      ensures State() == P.Disinherit(old(State()))
      ensures yieldRequired == (uxPriority != old(uxPriority))
      ensures uxMutexesHeld == old(uxMutexesHeld) - 1 && uxBasePriority == old(uxBasePriority)
      ensures uxPriority == if uxMutexesHeld == 0 then uxBasePriority else old(uxPriority)
    {
      yieldRequired := false;
      uxMutexesHeld := uxMutexesHeld - 1;
      if uxPriority != uxBasePriority {
        if uxMutexesHeld == 0 {
          uxPriority := uxBasePriority;
          eventPriority := uxPriority;
          yieldRequired := true;
        }
      }
    }

    // vTaskPriorityDisinheritAfterTimeout, for a mutex that has a holder
    method PriorityDisinheritAfterTimeout(highestWaiting: nat)
      modifies this
      ensures State() == P.DisinheritAfterTimeout(old(State()), highestWaiting)
      ensures uxMutexesHeld != 1 ==> State() == old(State())
      ensures uxMutexesHeld == 1 ==> uxPriority >= uxBasePriority && uxPriority >= highestWaiting
      ensures uxMutexesHeld == 1 ==> uxPriority == uxBasePriority || uxPriority == highestWaiting
    {
      var priorityToUse := if uxBasePriority < highestWaiting then highestWaiting else uxBasePriority;
      if uxPriority != priorityToUse {
        if uxMutexesHeld == 1 {
          uxPriority := priorityToUse;
          eventPriority := priorityToUse;
        }
      }
    }

    // vTaskPrioritySet
    method PrioritySet(newPriority: nat)
      modifies this
      ensures State() == P.SetPriority(old(State()), newPriority)
      ensures uxBasePriority == newPriority && uxMutexesHeld == old(uxMutexesHeld)
      ensures uxPriority == if old(uxPriority == uxBasePriority) then newPriority else old(uxPriority)
    {
      if uxBasePriority != newPriority {
        if uxBasePriority == uxPriority { uxPriority := newPriority; }
        uxBasePriority := newPriority;
        eventPriority := newPriority;
      }
    }
  }

  // ----- What inheriting and giving back come to -----

  // The holder's field after tasks of the given priorities have blocked on its mutexes in turn.
  function InheritEach(h: P.Tcb, ps: seq<nat>): P.Tcb
    decreases |ps|
  {
    if ps == [] then h else InheritEach(P.Inherit(h, ps[0]), ps[1..])
  }

  // In whatever order they come, the holder ends at the highest of its own and their priorities.
  lemma {:induction false} InheritsHighest(h: P.Tcb, ps: seq<nat>)
    ensures var p := InheritEach(h, ps).priority;
      && p >= h.priority && (forall i :: 0 <= i < |ps| ==> p >= ps[i]) && (p == h.priority || p in ps)
    ensures InheritEach(h, ps)
         == h.(priority := InheritEach(h, ps).priority, eventPriority := InheritEach(h, ps).eventPriority)
    ensures h.eventPriority == h.priority ==> InheritEach(h, ps).eventPriority == InheritEach(h, ps).priority
    decreases |ps|
  {
    if ps != [] {
      var h1 := P.Inherit(h, ps[0]);
      InheritsHighest(h1, ps[1..]);
      forall i | 0 <= i < |ps| ensures InheritEach(h, ps).priority >= ps[i] {
        if i > 0 { assert ps[1..][i - 1] == ps[i]; }
      }
    }
  }

  // A task that held nothing and had its own priority is as it was once it has given the one mutex it
  // took, whoever blocked on that meanwhile.
  lemma InheritanceUndone(h: P.Tcb, ps: seq<nat>)
    requires h.held == 0 && h.priority == h.base == h.eventPriority
    ensures var taken := InheritEach(h.(held := 1), ps);
      taken.held == 1 && P.Disinherit(taken) == h
  {
    InheritsHighest(h.(held := 1), ps);
  }

  // A priority set while another is inherited takes effect with the last mutex given back.
  lemma SetPriorityTakesEffect(h: P.Tcb, p: nat)
    requires h.held == 1
    ensures P.SetPriority(h, p).held == 1 && P.Disinherit(P.SetPriority(h, p)).priority == p
  {
  }

  // ----- Recursive mutexes -----

  // Who holds the mutex and uxRecursiveCallCount.
  datatype Recursive = Recursive(holder: P.Option<TaskId>, calls: int)

  datatype Call = Take(t: TaskId) | Give(t: TaskId)

  // A call that is made when it need not wait, and whether it passes.
  function Perform(r: Recursive, call: Call): (Recursive, bool) {
    match call
    case Take(t) =>
      if r.holder == P.Some(t) then (r.(calls := r.calls + 1), true)
      else if r.holder.None? then (Recursive(P.Some(t), r.calls + 1), true)
      else (r, false)
    case Give(t) =>
      if r.holder != P.Some(t) then (r, false)
      else (Recursive(if r.calls - 1 == 0 then P.None else r.holder, r.calls - 1), true)
  }

  function AfterCalls(calls: seq<Call>): Recursive
    decreases |calls|
  {
    if calls == [] then Recursive(P.None, 0)
    else Perform(AfterCalls(calls[..|calls| - 1]), calls[|calls| - 1]).0
  }

  // The takes of t that passed less its gives that passed.
  function Balance(calls: seq<Call>, t: TaskId): int
    decreases |calls|
  {
    if calls == [] then 0
    else
      var before, last := calls[..|calls| - 1], calls[|calls| - 1];
      var passed := Perform(AfterCalls(before), last).1;
      Balance(before, t) + (if last.t == t && passed then (if last.Take? then 1 else -1) else 0)
  }

  // Whoever calls what, in any order: the holder is the one task whose takes and gives do not
  // balance, its call count is the difference, and the mutex is free exactly when all balance.
  lemma {:induction false} ReleasedWhenBalanced(calls: seq<Call>)
    ensures var r := AfterCalls(calls);
      && (r.holder.None? <==> forall t: TaskId :: Balance(calls, t) == 0)
      && (forall t: TaskId :: r.holder == P.Some(t) <==> Balance(calls, t) > 0)
      && (forall t: TaskId :: r.holder != P.Some(t) ==> Balance(calls, t) == 0)
      && (forall t: TaskId :: r.holder == P.Some(t) ==> r.calls == Balance(calls, t))
      && (r.holder.None? ==> r.calls == 0)
    decreases |calls|
  {
    if calls != [] {
      var n := |calls| - 1;
      var before, last := calls[..n], calls[n];
      ReleasedWhenBalanced(before);
      var was, r := AfterCalls(before), AfterCalls(calls);
      forall t: TaskId
        ensures r.holder == P.Some(t) ==> Balance(calls, t) == r.calls > 0
        ensures r.holder != P.Some(t) ==> Balance(calls, t) == 0
      {
        var change := if last.t == t && Perform(was, last).1 then (if last.Take? then 1 else -1) else 0;
        assert Balance(calls, t) == Balance(before, t) + change;
        assert was.holder == P.Some(t) ==> was.calls == Balance(before, t) > 0;
        assert was.holder == P.Some(last.t) ==> was.calls == Balance(before, last.t) > 0;
      }
      if r.holder.Some? { assert Balance(calls, r.holder.value) > 0; }
    }
  }

  // A take passes exactly when no other task holds the mutex, and a give when the caller does.
  lemma PassesExactly(calls: seq<Call>, t: TaskId)
    ensures Perform(AfterCalls(calls), Take(t)).1 <==> forall u: TaskId :: u != t ==> Balance(calls, u) == 0
    ensures Perform(AfterCalls(calls), Give(t)).1 <==> Balance(calls, t) > 0
  {
    ReleasedWhenBalanced(calls);
    hide AfterCalls, Balance;
    var r := AfterCalls(calls);
    if r.holder.Some? && r.holder.value != t { assert Balance(calls, r.holder.value) != 0; }
  }

  lemma OneCallMore(calls: seq<Call>, call: Call)
    ensures AfterCalls(calls + [call]) == Perform(AfterCalls(calls), call).0
  {
    assert (calls + [call])[..|calls|] == calls;
  }

  class RecursiveMutex {
    var pxMutexHolder: P.Option<TaskId>
    var uxRecursiveCallCount: int
    var uxMessagesWaiting: nat
    ghost var calls: seq<Call>    // the calls made so far

    ghost predicate Valid()
      reads this
    {
      uxMessagesWaiting == (if pxMutexHolder.None? then 1 else 0) && State() == AfterCalls(calls)
    }

    ghost function State(): Recursive
      reads this
    {
      Recursive(pxMutexHolder, uxRecursiveCallCount)
    }

    constructor ()
      ensures Valid() && calls == []
    {
      pxMutexHolder, uxRecursiveCallCount, uxMessagesWaiting := P.None, 0, 1;
      calls := [];
    }

    // xQueueTakeMutexRecursive
    method TakeRecursive(current: TaskId) returns (passed: bool)
      requires Valid()
      modifies this
      ensures Valid() && (State(), passed) == old(Perform(State(), Take(current)))
      ensures calls == old(calls) + [Take(current)]
      ensures passed <==> forall t: TaskId :: t != current ==> Balance(old(calls), t) == 0
    {
      PassesExactly(calls, current);
      OneCallMore(calls, Take(current));
      calls := calls + [Take(current)];
      if pxMutexHolder == P.Some(current) {
        uxRecursiveCallCount := uxRecursiveCallCount + 1;
        passed := true;
      } else {
        passed := uxMessagesWaiting > 0;
        if passed {
          uxMessagesWaiting := uxMessagesWaiting - 1;
          pxMutexHolder := P.Some(current);
          uxRecursiveCallCount := uxRecursiveCallCount + 1;
        }
      }
    }

    // xQueueGiveMutexRecursive
    method GiveRecursive(current: TaskId) returns (passed: bool)
      requires Valid()
      modifies this
      ensures Valid() && (State(), passed) == old(Perform(State(), Give(current)))
      ensures calls == old(calls) + [Give(current)] && (passed <==> Balance(old(calls), current) > 0)
    {
      PassesExactly(calls, current);
      OneCallMore(calls, Give(current));
      calls := calls + [Give(current)];
      passed := pxMutexHolder == P.Some(current);
      if passed {
        uxRecursiveCallCount := uxRecursiveCallCount - 1;
        if uxRecursiveCallCount == 0 {
          pxMutexHolder := P.None;
          uxMessagesWaiting := uxMessagesWaiting + 1;
        }
      }
    }
  }
}
