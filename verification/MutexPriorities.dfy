// No task that holds a mutex runs below a task waiting for it.
module MutexPriorities {
  import opened ListRing
  import opened MutexProtocol
  import opened MutexLedger

  // The event list item is sorted by the priority the task has.
  ghost predicate EventsOk(s: System) {
    forall t :: t in s.tasks ==> s.tasks[t].eventPriority == s.tasks[t].priority
  }

  predicate HasBlocked(pc: Pc) {
    pc.Waiting? || pc.Disinheriting? || ((pc.Trying? || pc.Wanting? || pc.Expired?) && pc.inherited)
  }

  // A task that has blocked on a mutex in its current call holds none.
  ghost predicate BlockedHoldNone(s: System) {
    forall t :: t in s.tasks && HasBlocked(s.tasks[t].pc) ==> s.tasks[t].held == 0
  }

  ghost predicate SortedOk(s: System) {
    forall m :: m in s.mutexes ==> Descending(s.mutexes[m].waiters, s.tasks)
  }

  ghost predicate Descending(waiters: seq<TaskId>, tasks: map<TaskId, Tcb>) {
    && (forall w :: w in waiters ==> w in tasks)
    && (forall i, j :: 0 <= i < j < |waiters| ==> tasks[waiters[i]].priority >= tasks[waiters[j]].priority)
  }

  ghost predicate AtLeast(p: nat, waiters: seq<TaskId>, tasks: map<TaskId, Tcb>) {
    forall w :: w in waiters && w in tasks ==> tasks[w].priority <= p
  }

  // The priority inheritance bound.
  ghost predicate HoldersOk(s: System) {
    forall m :: m in s.mutexes && s.mutexes[m].holder.Some? && s.mutexes[m].holder.value in s.tasks ==>
      AtLeast(s.tasks[s.mutexes[m].holder.value].priority, s.mutexes[m].waiters, s.tasks)
  }

  // A task woken to take mutex m that has not run yet.
  ghost predicate Successor(s: System, m: MutexId, u: TaskId) {
    && m in s.mutexes && u in s.tasks && s.tasks[u].pc.Trying? && s.tasks[u].pc.m == m && s.tasks[u].held == 0
    && AtLeast(s.tasks[u].priority, s.mutexes[m].waiters, s.tasks)
  }

  // While a mutex is free and tasks wait for it, one of at least their priority is about to take it.
  ghost predicate SuccessorsOk(s: System) {
    forall m :: m in s.mutexes && s.mutexes[m].holder.None? && s.mutexes[m].waiters != [] ==>
      exists u :: Successor(s, m, u)
  }

  ghost predicate Bounded(s: System) {
    EventsOk(s) && BlockedHoldNone(s) && SortedOk(s) && HoldersOk(s) && SuccessorsOk(s)
  }

  ghost predicate Inv(s: System) { Ledger(s) && Bounded(s) }

  // The task at t is one of the highest-priority ready tasks.
  ghost predicate Runs(s: System, t: TaskId) {
    Ready(s, t) && forall u :: Ready(s, u) ==> s.tasks[u].priority <= s.tasks[t].priority
  }

  // What a preemptive scheduler lets happen: a step of a highest-priority ready task, or of the tick.
  // No task changes a priority.
  ghost predicate Dispatched(s: System, step: Step) {
    Enabled(s, step) && !step.Reprioritise? && (step.Wake? || step.TimeOut? || Runs(s, step.t))
  }

  // Such a step where no task blocks on a mutex while it holds one.
  ghost predicate Scheduled(s: System, step: Step) {
    && Dispatched(s, step)
    && (step.Block? ==>
          s.tasks[step.t].held == 0 || (s.tasks[step.t].pc.m in s.mutexes && s.mutexes[s.tasks[step.t].pc.m].count > 0))
  }

  // ----- Changes that leave waiters and their priorities alone -----

  // Tasks that hold nothing keep their priorities, no holder's falls, and no list or holder changes.
  ghost predicate Steady(s: System, after: System) {
    && SameNames(s, after)
    && (forall m :: m in s.mutexes ==>
          after.mutexes[m].waiters == s.mutexes[m].waiters && after.mutexes[m].holder == s.mutexes[m].holder)
    && (forall t :: t in s.tasks ==>
          after.tasks[t].priority >= s.tasks[t].priority && after.tasks[t].held == s.tasks[t].held)
    && (forall t :: t in s.tasks && s.tasks[t].held == 0 ==> after.tasks[t].priority == s.tasks[t].priority)
  }

  lemma WaitersHoldNone(s: System, m: MutexId)
    requires Ledger(s) && BlockedHoldNone(s) && m in s.mutexes
    ensures forall w :: w in s.mutexes[m].waiters ==>
      w in s.tasks && s.tasks[w].held == 0 && s.tasks[w].pc.Waiting? && s.tasks[w].pc.m == m
  {
    ListAt(s, m);
  }

  lemma SteadyKeeps(s: System, after: System)
    requires Ledger(s) && BlockedHoldNone(s) && SortedOk(s) && HoldersOk(s) && Steady(s, after)
    ensures SortedOk(after) && HoldersOk(after)
  {
    hide Ledger;
    forall m | m in after.mutexes
      ensures Descending(after.mutexes[m].waiters, after.tasks)
      ensures after.mutexes[m].holder.Some? && after.mutexes[m].holder.value in after.tasks ==>
        AtLeast(after.tasks[after.mutexes[m].holder.value].priority, after.mutexes[m].waiters, after.tasks)
    {
      WaitersHoldNone(s, m);
      assert Descending(s.mutexes[m].waiters, s.tasks);
    }
  }

  // Successors stay where they are.
  lemma SuccessorsStay(s: System, after: System)
    requires Ledger(s) && BlockedHoldNone(s) && SuccessorsOk(s) && Steady(s, after)
    requires forall m, u :: Successor(s, m, u) && s.mutexes[m].holder.None? ==> after.tasks[u].pc == s.tasks[u].pc
    ensures SuccessorsOk(after)
  {
    hide Ledger;
    forall m | m in after.mutexes && after.mutexes[m].holder.None? && after.mutexes[m].waiters != []
      ensures exists u :: Successor(after, m, u)
    {
      WaitersHoldNone(s, m);
      var u :| Successor(s, m, u);
      assert Successor(after, m, u);
    }
  }

  ghost predicate SamePriorities(waiters: seq<TaskId>, a: map<TaskId, Tcb>, b: map<TaskId, Tcb>) {
    forall w :: w in waiters ==> w in a && w in b && a[w].priority == b[w].priority
  }

  lemma SameOrder(waiters: seq<TaskId>, a: map<TaskId, Tcb>, b: map<TaskId, Tcb>, p: nat)
    requires Descending(waiters, a) && SamePriorities(waiters, a, b)
    ensures Descending(waiters, b) && (AtLeast(p, waiters, a) ==> AtLeast(p, waiters, b))
  {
  }

  // The part of the bound about mutex n.
  ghost predicate BoundAt(s: System, n: MutexId) {
    && n in s.mutexes && Descending(s.mutexes[n].waiters, s.tasks)
    && (s.mutexes[n].holder.Some? && s.mutexes[n].holder.value in s.tasks ==>
          AtLeast(s.tasks[s.mutexes[n].holder.value].priority, s.mutexes[n].waiters, s.tasks))
  }

  lemma BoundsAt(s: System)
    ensures SortedOk(s) && HoldersOk(s) <==> forall n :: n in s.mutexes ==> BoundAt(s, n)
  {
    if forall n :: n in s.mutexes ==> BoundAt(s, n) {
      forall n | n in s.mutexes ensures Descending(s.mutexes[n].waiters, s.tasks) { assert BoundAt(s, n); }
      forall n | n in s.mutexes && s.mutexes[n].holder.Some? && s.mutexes[n].holder.value in s.tasks
        ensures AtLeast(s.tasks[s.mutexes[n].holder.value].priority, s.mutexes[n].waiters, s.tasks)
      {
        assert BoundAt(s, n);
      }
    }
  }

  // ----- Each step -----

  lemma GotoBounded(s: System, t: TaskId, pc: Pc)
    requires Inv(s) && t in s.tasks && !pc.Waiting? && (HasBlocked(pc) ==> HasBlocked(s.tasks[t].pc))
    requires s.tasks[t].pc.Trying? && s.tasks[t].pc.m in s.mutexes ==> s.mutexes[s.tasks[t].pc.m].holder.Some?
    ensures Bounded(Goto(s, t, pc))
  {
    hide Ledger;
    SteadyKeeps(s, Goto(s, t, pc));
    SuccessorsStay(s, Goto(s, t, pc));
  }

  lemma TakeBounded(s: System, t: TaskId, m: MutexId)
    requires Inv(s) && Runs(s, t) && m in s.mutexes && s.mutexes[m].holder.None?
    requires s.tasks[t].pc.Trying? && s.tasks[t].pc.m == m
    ensures Bounded(Take(s, t, m))
  {
    hide Ledger;
    var after := Take(s, t, m);
    forall n | n in after.mutexes
      ensures Descending(after.mutexes[n].waiters, after.tasks)
      ensures after.mutexes[n].holder.Some? && after.mutexes[n].holder.value in after.tasks ==>
        AtLeast(after.tasks[after.mutexes[n].holder.value].priority, after.mutexes[n].waiters, after.tasks)
    {
      WaitersHoldNone(s, n);
      assert Descending(s.mutexes[n].waiters, s.tasks);
      if n == m && s.mutexes[m].waiters != [] {
        var u :| Successor(s, m, u);
        assert Ready(s, u);
      }
    }
    forall n | n in after.mutexes && after.mutexes[n].holder.None? && after.mutexes[n].waiters != []
      ensures exists u :: Successor(after, n, u)
    {
      var u :| Successor(s, n, u);
      assert Successor(after, n, u);
    }
  }

  lemma HoldsTwo(s: System, t: TaskId, m: MutexId, n: MutexId)
    requires Ledger(s) && t in s.tasks && m in s.mutexes && n in s.mutexes && n != m
    requires s.mutexes[m].holder == Some(t) && s.mutexes[n].holder == Some(t)
    ensures s.tasks[t].held >= 2
  {
    var held := HeldBy(s.mutexes, t);
    assert m in held && n in held - {m} && held == (held - {m}) + {m};
  }

  // What releasing changes.
  ghost predicate ReleasedFrom(s: System, after: System, t: TaskId, m: MutexId) {
    && SameNames(s, after) && t in s.tasks && m in s.mutexes && s.tasks[t].held > 0
    && after.mutexes == s.mutexes[m := after.mutexes[m]] && after.mutexes[m].holder.None?
    && var waiters := s.mutexes[m].waiters;
    && after.mutexes[m].waiters == (if waiters == [] then [] else waiters[1..])
    && (forall u :: u in s.tasks && u != t && (waiters == [] || u != waiters[0]) ==> after.tasks[u] == s.tasks[u])
    && (after.tasks[t].priority == s.tasks[t].priority || s.tasks[t].held == 1)
    && after.tasks[t].pc == s.tasks[t].pc && after.tasks[t].held == s.tasks[t].held - 1
    && (after.tasks[t].eventPriority == s.tasks[t].eventPriority || after.tasks[t].priority != s.tasks[t].priority)
    && (after.tasks[t].priority != s.tasks[t].priority ==> after.tasks[t].eventPriority == after.tasks[t].priority)
    && (waiters != [] ==>
          && waiters[0] in s.tasks && waiters[0] != t
          && after.tasks[waiters[0]] == s.tasks[waiters[0]].(pc := after.tasks[waiters[0]].pc)
          && s.tasks[waiters[0]].held == 0 && after.tasks[waiters[0]].pc.Trying? && after.tasks[waiters[0]].pc.m == m)
  }

  lemma ReleaseChanges(s: System, t: TaskId, m: MutexId)
    requires Ledger(s) && BlockedHoldNone(s) && t in s.tasks && m in s.mutexes && s.tasks[t].pc.Outside?
    requires s.mutexes[m].holder == Some(t)
    ensures s.tasks[t].held > 0 && Closed(s) && ReleasedFrom(s, Release(s, t, m), t, m)
  {
    hide HeldOk, CountsOk, BaseOk, ListsOk, Closed, BlockedHoldNone;
    HolderHolds(s, m);
    WaitersHoldNone(s, m);
    var waiters, tasks := s.mutexes[m].waiters, s.tasks[t := Disinherit(s.tasks[t])];
    if waiters != [] {
      assert waiters[0] in waiters;
      assert tasks[waiters[0]] == s.tasks[waiters[0]];
    }
  }

  lemma ReleaseShape(s: System, t: TaskId, m: MutexId)
    requires Ledger(s) && BlockedHoldNone(s) && EventsOk(s) && t in s.tasks && m in s.mutexes && s.tasks[t].pc.Outside?
    requires s.mutexes[m].holder == Some(t)
    ensures s.tasks[t].held > 0 && Closed(s)
    ensures ReleasedFrom(s, Release(s, t, m), t, m) && EventsOk(Release(s, t, m)) && BlockedHoldNone(Release(s, t, m))
  {
    hide Ledger, HeldBy, Release;
    ReleaseChanges(s, t, m);
  }

  lemma ReleaseBounded(s: System, t: TaskId, m: MutexId)
    requires Inv(s) && t in s.tasks && m in s.mutexes && s.tasks[t].pc.Outside? && s.mutexes[m].holder == Some(t)
    ensures s.tasks[t].held > 0 && Bounded(Release(s, t, m))
  {
    hide Ledger, HeldBy, Release;
    ReleaseShape(s, t, m);
    ReleaseHolders(s, t, m);
    ReleaseSuccessors(s, t, m);
  }

  lemma TailIn(waiters: seq<TaskId>)
    requires waiters != []
    ensures forall w :: w in waiters[1..] ==> w in waiters
  {
  }

  lemma ReleaseHolders(s: System, t: TaskId, m: MutexId)
    requires Inv(s) && t in s.tasks && m in s.mutexes && s.tasks[t].pc.Outside? && s.mutexes[m].holder == Some(t)
    ensures s.tasks[t].held > 0 && Closed(s) && SortedOk(Release(s, t, m)) && HoldersOk(Release(s, t, m))
  {
    hide Ledger, HeldBy, Release, Descending, AtLeast, EventsOk;
    ReleaseShape(s, t, m);
    BoundsAt(s);
    BoundsAt(Release(s, t, m));
    hide SortedOk, HoldersOk, SuccessorsOk, BlockedHoldNone;
    forall n | n in s.mutexes ensures BoundAt(Release(s, t, m), n) { ReleasedAt(s, t, m, n); }
  }

  lemma ReleasedAt(s: System, t: TaskId, m: MutexId, n: MutexId)
    requires Ledger(s) && BlockedHoldNone(s) && EventsOk(s) && t in s.tasks && m in s.mutexes && s.tasks[t].pc.Outside?
    requires s.mutexes[m].holder == Some(t) && n in s.mutexes && BoundAt(s, n)
    ensures s.tasks[t].held > 0 && Closed(s) && BoundAt(Release(s, t, m), n)
  {
    hide Ledger, HeldBy, Release, BlockedHoldNone, EventsOk, AtLeast;
    ReleaseShape(s, t, m);
    var after, waiters := Release(s, t, m), s.mutexes[n].waiters;
    WaitersHoldNone(s, n);
    if n == m {
      if waiters != [] { TailIn(waiters); }
    } else {
      assert SamePriorities(waiters, s.tasks, after.tasks);
      if s.mutexes[n].holder == Some(t) { HoldsTwo(s, t, m, n); }
      if s.mutexes[n].holder.Some? && s.mutexes[n].holder.value in s.tasks {
        HolderHolds(s, n);
        SameOrder(waiters, s.tasks, after.tasks, s.tasks[s.mutexes[n].holder.value].priority);
      } else {
        SameOrder(waiters, s.tasks, after.tasks, 0);
      }
    }
  }

  lemma ReleaseSuccessors(s: System, t: TaskId, m: MutexId)
    requires Inv(s) && t in s.tasks && m in s.mutexes && s.tasks[t].pc.Outside? && s.mutexes[m].holder == Some(t)
    ensures s.tasks[t].held > 0 && SuccessorsOk(Release(s, t, m))
  {
    hide Ledger, HeldBy, Release, HoldersOk;
    ReleaseShape(s, t, m);
    var after, waiters := Release(s, t, m), s.mutexes[m].waiters;
    forall n | n in after.mutexes && after.mutexes[n].holder.None? && after.mutexes[n].waiters != []
      ensures exists u :: Successor(after, n, u)
    {
      WaitersHoldNone(s, n);
      if n == m {
        assert Descending(waiters, s.tasks);
        forall w | w in waiters[1..]
          ensures w in after.tasks && after.tasks[w].priority <= after.tasks[waiters[0]].priority
        {
          var i :| 0 <= i < |waiters| - 1 && waiters[1..][i] == w;
          assert waiters[i + 1] == w && w in waiters;
        }
        assert after.mutexes[m].waiters == waiters[1..];
        assert Successor(after, m, waiters[0]);
      } else {
        WaitersHoldNone(s, m);
        assert waiters != [] ==> waiters[0] in waiters;
        var u :| Successor(s, n, u);
        assert Successor(after, n, u);
      }
    }
  }

  // A task joins the list of m, and no priority changes.
  ghost predicate Joined(s: System, after: System, t: TaskId, m: MutexId) {
    && SameNames(s, after) && t in s.tasks && s.tasks[t].held == 0 && s.tasks[t].pc.Wanting?
    && m in s.mutexes && s.mutexes[m].holder.Some? && after.mutexes[m].holder == s.mutexes[m].holder
    && (forall n :: n in s.mutexes && n != m ==> after.mutexes[n] == s.mutexes[n])
    && (forall u :: u in s.tasks && u != t ==> after.tasks[u] == s.tasks[u])
    && after.tasks[t].priority == s.tasks[t].priority && after.tasks[t].held == 0
    && s.mutexes[m].holder.value in s.tasks && s.tasks[s.mutexes[m].holder.value].priority >= s.tasks[t].priority
    && Descending(after.mutexes[m].waiters, s.tasks)
    && (forall w :: w in after.mutexes[m].waiters ==> w == t || w in s.mutexes[m].waiters)
  }

  lemma JoinedAt(s: System, after: System, t: TaskId, m: MutexId, n: MutexId)
    requires Joined(s, after, t, m) && BoundAt(s, n)
    ensures BoundAt(after, n)
  {
    SameOrder(after.mutexes[n].waiters, s.tasks, after.tasks, 0);
  }

  lemma JoinedSuccessors(s: System, after: System, t: TaskId, m: MutexId)
    requires Joined(s, after, t, m) && SuccessorsOk(s)
    ensures SuccessorsOk(after)
  {
    forall n | n in after.mutexes && after.mutexes[n].holder.None? && after.mutexes[n].waiters != []
      ensures exists u :: Successor(after, n, u)
    {
      var u :| Successor(s, n, u);
      assert Successor(after, n, u);
    }
  }

  lemma JoinBounded(s: System, t: TaskId, m: MutexId)
    requires Inv(s) && t in s.tasks && m in s.mutexes && s.tasks[t].pc.Wanting?
    requires s.tasks[t].held == 0 && s.mutexes[m].holder.Some?
    ensures Closed(s) && Bounded(Join(s, t, m))
  {
    hide Ledger, SortedOk, HoldersOk, SuccessorsOk, Join, Joined, Steady, Descending, AtLeast;
    JoinInTwo(s, t, m);
    var h, after := s.mutexes[m].holder.value, Join(s, t, m);
    var inherited := s.(tasks := s.tasks[h := Inherit(s.tasks[h], s.tasks[t].priority)]);
    SteadyKeeps(s, inherited);
    SuccessorsStay(s, inherited);
    SortedAt(inherited, m);
    JoinIsJoined(s, t, m);
    BoundsAt(inherited);
    forall n | n in after.mutexes ensures BoundAt(after, n) { JoinedAt(inherited, after, t, m, n); }
    BoundsAt(after);
    JoinedSuccessors(inherited, after, t, m);
  }

  // Joining is inheriting, which changes only the holder, and then entering the list.
  lemma JoinInTwo(s: System, t: TaskId, m: MutexId)
    requires Ledger(s) && EventsOk(s) && BlockedHoldNone(s)
    requires t in s.tasks && m in s.mutexes && s.tasks[t].pc.Wanting?
    requires s.tasks[t].held == 0 && s.mutexes[m].holder.Some?
    ensures var h, after := s.mutexes[m].holder.value, Join(s, t, m);
      && Closed(s) && h in s.tasks && h != t && SameNames(s, after) && EventsOk(after) && BlockedHoldNone(after)
      && Steady(s, s.(tasks := s.tasks[h := Inherit(s.tasks[h], s.tasks[t].priority)]))
  {
    hide Ledger, Closed, Join, Steady;
    HolderHolds(s, m);
    JoinEvents(s, t, m);
    InheritIsSteady(s, s.mutexes[m].holder.value, s.tasks[t].priority);
  }

  lemma JoinEvents(s: System, t: TaskId, m: MutexId)
    requires Ledger(s) && EventsOk(s) && BlockedHoldNone(s)
    requires t in s.tasks && m in s.mutexes && s.tasks[t].pc.Wanting?
    requires s.tasks[t].held == 0 && s.mutexes[m].holder.Some?
    ensures Closed(s) && SameNames(s, Join(s, t, m)) && EventsOk(Join(s, t, m)) && BlockedHoldNone(Join(s, t, m))
  {
    hide HeldOk, ListsOk, BaseOk, CountsOk, Closed, Join;
    var k := JoinShape(s, t, m);
    HolderHolds(s, m);
  }

  lemma InheritIsSteady(s: System, h: TaskId, p: nat)
    requires h in s.tasks && s.tasks[h].held > 0
    ensures Steady(s, s.(tasks := s.tasks[h := Inherit(s.tasks[h], p)]))
  {
  }

  lemma JoinIsJoined(s: System, t: TaskId, m: MutexId)
    requires Ledger(s) && EventsOk(s) && BlockedHoldNone(s)
    requires t in s.tasks && m in s.mutexes && s.tasks[t].pc.Wanting?
    requires s.tasks[t].held == 0 && s.mutexes[m].holder.Some?
    requires var h := s.mutexes[m].holder.value; h in s.tasks ==>
      Descending(s.mutexes[m].waiters, s.tasks[h := Inherit(s.tasks[h], s.tasks[t].priority)])
    ensures var h := s.mutexes[m].holder.value;
      && Closed(s) && h in s.tasks
      && Joined(s.(tasks := s.tasks[h := Inherit(s.tasks[h], s.tasks[t].priority)]), Join(s, t, m), t, m)
  {
    hide Ledger, Join, Descending;
    JoinInTwo(s, t, m);
    WaitersHoldNone(s, m);
    var k := JoinShape(s, t, m);
    var h, waiters, after := s.mutexes[m].holder.value, s.mutexes[m].waiters, Join(s, t, m);
    var tasks := s.tasks[h := Inherit(s.tasks[h], s.tasks[t].priority)];
    forall i | 0 <= i < |waiters| ensures tasks[waiters[i]].priority == after.tasks[waiters[i]].eventPriority {
      assert waiters[i] in waiters;
    }
    InsertedDescending(waiters, k, t, tasks);
  }

  lemma SortedAt(s: System, m: MutexId)
    requires SortedOk(s) && m in s.mutexes
    ensures Descending(s.mutexes[m].waiters, s.tasks)
  {
  }

  lemma InsertedDescending(waiters: seq<TaskId>, k: nat, t: TaskId, tasks: map<TaskId, Tcb>)
    requires Descending(waiters, tasks) && k <= |waiters| && t in tasks
    requires forall i :: 0 <= i < k ==> tasks[waiters[i]].priority >= tasks[t].priority
    requires k < |waiters| ==> tasks[waiters[k]].priority < tasks[t].priority
    ensures Descending(waiters[..k] + [t] + waiters[k..], tasks)
  {
    var m := waiters[..k] + [t] + waiters[k..];
    forall i, j | 0 <= i < j < |m| ensures tasks[m[i]].priority >= tasks[m[j]].priority {
      assert j > k ==> tasks[waiters[k]].priority >= tasks[m[j]].priority;
    }
  }

  lemma CutDescending(waiters: seq<TaskId>, t: TaskId, tasks: map<TaskId, Tcb>)
    requires Descending(waiters, tasks) && t in waiters
    ensures Descending(Cut(waiters, Find(waiters, t)), tasks)
    ensures forall w :: w in Cut(waiters, Find(waiters, t)) ==> w in waiters
  {
  }

  lemma TimeOutBounded(s: System, t: TaskId)
    requires Inv(s) && Enabled(s, TimeOut(t))
    ensures Bounded(Apply(s, TimeOut(t)))
  {
    hide HeldOk, ListsOk, BaseOk, CountsOk, Descending, AtLeast;
    var m, after := s.tasks[t].pc.m, Apply(s, TimeOut(t));
    BoundsAt(s);
    hide SortedOk, HoldersOk, SuccessorsOk;
    forall n | n in after.mutexes ensures BoundAt(after, n) { TimedOutAt(s, t, n); }
    BoundsAt(after);
    TimedOutSuccessors(s, t);
  }

  lemma TimedOutAt(s: System, t: TaskId, n: MutexId)
    requires Ledger(s) && Enabled(s, TimeOut(t)) && BoundAt(s, n) && BoundAt(s, s.tasks[t].pc.m)
    ensures BoundAt(Apply(s, TimeOut(t)), n)
  {
    hide HeldOk, ListsOk, BaseOk, CountsOk;
    var m, after := s.tasks[t].pc.m, Apply(s, TimeOut(t));
    CutDescending(s.mutexes[m].waiters, t, s.tasks);
    SameOrder(after.mutexes[n].waiters, s.tasks, after.tasks, 0);
  }

  lemma TimedOutSuccessors(s: System, t: TaskId)
    requires Ledger(s) && Enabled(s, TimeOut(t)) && SuccessorsOk(s) && SortedOk(s)
    ensures SuccessorsOk(Apply(s, TimeOut(t)))
  {
    hide HeldOk, ListsOk, BaseOk, CountsOk;
    var m, after := s.tasks[t].pc.m, Apply(s, TimeOut(t));
    CutDescending(s.mutexes[m].waiters, t, s.tasks);
    forall n | n in after.mutexes && after.mutexes[n].holder.None? && after.mutexes[n].waiters != []
      ensures exists u :: Successor(after, n, u)
    {
      var u :| Successor(s, n, u);
      assert Successor(after, n, u);
    }
  }

  // configASSERT( pxTCB != pxCurrentTCB ) in vTaskPriorityDisinheritAfterTimeout
  predicate UndoAssertHolds(s: System, t: TaskId) {
    t in s.tasks && s.tasks[t].pc.Disinheriting? && s.tasks[t].pc.m in s.mutexes
    && s.mutexes[s.tasks[t].pc.m].holder != Some(t)
  }

  lemma UndoBounded(s: System, t: TaskId)
    requires Inv(s) && t in s.tasks && s.tasks[t].pc.Disinheriting? && s.tasks[t].pc.m in s.mutexes
    ensures UndoAssertHolds(s, t) && Closed(s) && Bounded(UndoFor(s, t, s.tasks[t].pc.m))
  {
    var m := s.tasks[t].pc.m;
    UndoEvents(s, t, m);
    if s.mutexes[m].holder.None? {
      GotoBounded(s, t, Outside);
    } else {
      hide Descending, AtLeast, Ledger, UndoFor, EventsOk, BlockedHoldNone, SuccessorsOk;
      BoundsAt(s);
      var after := UndoFor(s, t, m);
      forall n | n in after.mutexes ensures BoundAt(after, n) { UndoneAt(s, t, m, n); }
      BoundsAt(after);
      UndoneSuccessors(s, t, m);
    }
  }

  lemma UndoEvents(s: System, t: TaskId, m: MutexId)
    requires Ledger(s) && EventsOk(s) && BlockedHoldNone(s) && t in s.tasks
    requires s.tasks[t].pc.Disinheriting? && m in s.mutexes
    ensures Closed(s) && EventsOk(UndoFor(s, t, m)) && BlockedHoldNone(UndoFor(s, t, m))
    ensures SameNames(s, UndoFor(s, t, m)) && s.mutexes[m].holder != Some(t)
  {
    hide HeldOk, ListsOk, BaseOk, CountsOk;
    if s.mutexes[m].holder.Some? { HolderHolds(s, m); }
  }

  lemma UndoneAt(s: System, t: TaskId, m: MutexId, n: MutexId)
    requires Ledger(s) && EventsOk(s) && BlockedHoldNone(s) && t in s.tasks && s.tasks[t].pc.Disinheriting?
    requires m in s.mutexes && s.mutexes[m].holder.Some? && BoundAt(s, n) && BoundAt(s, m)
    ensures Closed(s) && BoundAt(UndoFor(s, t, m), n)
  {
    hide HeldOk, ListsOk, BaseOk, CountsOk;
    HolderHolds(s, m);
    WaitersHoldNone(s, n);
    var h, after, waiters := s.mutexes[m].holder.value, UndoFor(s, t, m), s.mutexes[n].waiters;
    if s.mutexes[n].holder == Some(h) && n != m { HoldsTwo(s, h, m, n); }
    if n == m && waiters != [] { assert waiters[0] in waiters; }
    SameOrder(waiters, s.tasks, after.tasks, 0);
  }

  lemma UndoneSuccessors(s: System, t: TaskId, m: MutexId)
    requires Ledger(s) && BlockedHoldNone(s) && SuccessorsOk(s) && t in s.tasks && s.tasks[t].pc.Disinheriting?
    requires m in s.mutexes && s.mutexes[m].holder.Some?
    ensures Closed(s) && SuccessorsOk(UndoFor(s, t, m))
  {
    hide HeldOk, ListsOk, BaseOk, CountsOk;
    HolderHolds(s, m);
    var after := UndoFor(s, t, m);
    forall n | n in after.mutexes && after.mutexes[n].holder.None? && after.mutexes[n].waiters != []
      ensures exists u :: Successor(after, n, u)
    {
      WaitersHoldNone(s, n);
      var u :| Successor(s, n, u);
      assert Successor(after, n, u);
    }
  }

  // ----- Runs -----

  lemma ScheduledKeeps(s: System, step: Step)
    requires Inv(s) && Scheduled(s, step)
    ensures step.Give? ==> GiveAssertHolds(s, step.t, step.m)
    ensures step.UndoInheritance? ==> UndoAssertHolds(s, step.t)
    ensures Inv(Apply(s, step))
  {
    hide CountsOk, HeldOk, BaseOk, ListsOk, Bounded, Take, Join, Release, UndoFor;
    ApplyKeeps(s, step);
    FreeOrHeld(s);
    match step
    case Call(t, m, wait) => GotoBounded(s, t, Trying(m, wait, false));
    case Try(t) =>
      var pc := s.tasks[t].pc;
      if s.mutexes[pc.m].count > 0 { TakeBounded(s, t, pc.m); }
      else { GotoBounded(s, t, if pc.wait then Wanting(pc.m, pc.inherited) else Outside); }
    case Block(t) =>
      var pc := s.tasks[t].pc;
      if s.mutexes[pc.m].count == 0 { JoinBounded(s, t, pc.m); }
      else { GotoBounded(s, t, Trying(pc.m, true, pc.inherited)); }
    case Expire(t, zeroed) => GotoBounded(s, t, Expired(s.tasks[t].pc.m, !zeroed, s.tasks[t].pc.inherited));
    case LookAgain(t) =>
      var pc := s.tasks[t].pc;
      GotoBounded(s, t, if s.mutexes[pc.m].count > 0 then Trying(pc.m, pc.wait, pc.inherited)
                        else if pc.inherited then Disinheriting(pc.m) else Outside);
    case UndoInheritance(t) => UndoBounded(s, t);
    case Give(t, m) => if s.mutexes[m].count == 0 { ReleaseBounded(s, t, m); }
    case Sleep(t) => GotoBounded(s, t, Sleeping);
    case Wake(t) => GotoBounded(s, t, Outside);
    case TimeOut(t) => TimeOutBounded(s, t);
  }

  lemma FreeOrHeld(s: System)
    requires Ledger(s)
    ensures forall m :: m in s.mutexes ==> (s.mutexes[m].count == 0 <==> s.mutexes[m].holder.Some?)
  {
  }

  // Every task outside any call and no mutex held, as after creation.
  ghost predicate Initial(s: System) {
    && (forall t :: t in s.tasks ==>
          var c := s.tasks[t]; c.priority == c.base == c.eventPriority && c.held == 0 && c.pc.Outside?)
    && (forall m :: m in s.mutexes ==> s.mutexes[m] == Mutex(1, None, []))
  }

  lemma InitialInv(s: System)
    requires Initial(s)
    ensures Inv(s)
  {
    forall t | t in s.tasks ensures HeldBy(s.mutexes, t) == {} {}
  }

  // The assertion made when a mutex is given holds, so the step completes.
  predicate MayApply(s: System, step: Step) { step.Give? ==> GiveAssertHolds(s, step.t, step.m) }

  // A run in which any ready task may make the next step.
  ghost predicate IsRun(run: seq<System>, steps: seq<Step>) {
    && |run| == |steps| + 1
    && forall i :: 0 <= i < |steps| ==>
         && Closed(run[i]) && Enabled(run[i], steps[i]) && MayApply(run[i], steps[i])
         && run[i + 1] == Apply(run[i], steps[i])
  }

  lemma StepAt(run: seq<System>, steps: seq<Step>, i: nat)
    requires IsRun(run, steps) && i < |steps|
    ensures Closed(run[i]) && Enabled(run[i], steps[i]) && MayApply(run[i], steps[i])
    ensures run[i + 1] == Apply(run[i], steps[i])
  {
    hide Closed, Enabled, Apply, MayApply;
  }

  // The ledger balances in every reachable state, and the next give never fails its assertion.
  lemma {:induction false} LedgerBalances(run: seq<System>, steps: seq<Step>, n: nat)
    requires IsRun(run, steps) && n < |run| && Initial(run[0])
    ensures Ledger(run[n])
    ensures forall step :: Enabled(run[n], step) ==> MayApply(run[n], step)
  {
    hide Ledger, Enabled, Apply, MayApply, Initial;
    if n == 0 {
      InitialInv(run[0]);
    } else {
      LedgerBalances(run, steps, n - 1);
      ApplyKeeps(run[n - 1], steps[n - 1]);
    }
    forall step | Enabled(run[n], step) ensures MayApply(run[n], step) { MayGive(run[n], step); }
  }

  lemma MayGive(s: System, step: Step)
    requires Ledger(s) && Enabled(s, step)
    ensures MayApply(s, step)
  {
    ApplyKeeps(s, step);
  }

  ghost predicate IsScheduledRun(run: seq<System>, steps: seq<Step>) {
    IsRun(run, steps) && forall i :: 0 <= i < |steps| ==> Scheduled(run[i], steps[i])
  }

  lemma {:induction false} ScheduledRunKeeps(run: seq<System>, steps: seq<Step>, n: nat)
    requires IsScheduledRun(run, steps) && n < |run| && Initial(run[0])
    ensures Inv(run[n])
  {
    hide Inv, Enabled, Apply, MayApply, Initial, Scheduled;
    if n == 0 {
      InitialInv(run[0]);
    } else {
      ScheduledRunKeeps(run, steps, n - 1);
      ScheduledKeeps(run[n - 1], steps[n - 1]);
    }
  }

  // The priority inheritance bound, in every state of every such run: also after waiters have timed
  // out, and when a task other than the one woken has taken a freed mutex.
  lemma HolderNotBelowWaiters(run: seq<System>, steps: seq<Step>, n: nat, m: MutexId, w: TaskId)
    requires IsScheduledRun(run, steps) && n < |run| && Initial(run[0])
    requires m in run[n].mutexes && w in run[n].mutexes[m].waiters && run[n].mutexes[m].holder.Some?
    ensures w in run[n].tasks && run[n].mutexes[m].holder.value in run[n].tasks
    ensures run[n].tasks[w].priority <= run[n].tasks[run[n].mutexes[m].holder.value].priority
  {
    hide IsScheduledRun, Initial, IsRun;
    ScheduledRunKeeps(run, steps, n);
    HolderHolds(run[n], m);
    ListAt(run[n], m);
    BoundsAt(run[n]);
  }

  // How a call to take a mutex ends: with the mutex; or without, when the mutex is taken and there is no
  // block time, or it was looked at once more after a time-out and no inheritance is left to undo.
  predicate Obtains(s: System, step: Step, t: TaskId) {
    && step == Try(t) && t in s.tasks && s.tasks[t].pc.Trying? && s.tasks[t].pc.m in s.mutexes
    && s.mutexes[s.tasks[t].pc.m].holder.None?
  }

  predicate GoesWithout(s: System, step: Step, t: TaskId) {
    && t in s.tasks
    && match step
       case Try(u) =>
         && u == t && s.tasks[t].pc.Trying? && !s.tasks[t].pc.wait && s.tasks[t].pc.m in s.mutexes
         && s.mutexes[s.tasks[t].pc.m].holder.Some?
       case LookAgain(u) =>
         && u == t && s.tasks[t].pc.Expired? && !s.tasks[t].pc.inherited && s.tasks[t].pc.m in s.mutexes
         && s.mutexes[s.tasks[t].pc.m].holder.Some?
       case UndoInheritance(u) => u == t
       case _ => false
  }

  // The step of another task moves t on only by waking it or changing its priority.
  lemma OthersStep(s: System, step: Step, t: TaskId)
    requires Ledger(s) && Enabled(s, step) && MayApply(s, step) && t in s.tasks
    requires step.t != t && !s.tasks[t].pc.Sleeping?
    ensures t in Apply(s, step).tasks
    ensures var pc' := Apply(s, step).tasks[t].pc; pc' == s.tasks[t].pc || (s.tasks[t].pc.Waiting? && pc'.Trying?)
  {
    match step {
      case Give(u, m) => OthersGive(s, u, m, t);
      case Block(u) => OthersJoin(s, u, s.tasks[u].pc.m, t);
      case UndoInheritance(u) => OthersJoin(s, u, s.tasks[u].pc.m, t);
      case _ =>
    }
    hide CountsOk, HeldOk, BaseOk, ListsOk, PlaceFor, Find, Cut, Release, Join, UndoFor;
  }

  lemma OthersJoin(s: System, u: TaskId, m: MutexId, t: TaskId)
    requires Closed(s) && t in s.tasks && u in s.tasks && u != t && m in s.mutexes
    ensures t in Join(s, u, m).tasks && Join(s, u, m).tasks[t].pc == s.tasks[t].pc
    ensures t in UndoFor(s, u, m).tasks && UndoFor(s, u, m).tasks[t].pc == s.tasks[t].pc
  {
    hide Closed, PlaceFor, HighestWaiting;
  }

  lemma OthersGive(s: System, u: TaskId, m: MutexId, t: TaskId)
    requires Ledger(s) && t in s.tasks && u in s.tasks && u != t && m in s.mutexes
    ensures s.tasks[u].held > 0 ==> t in Release(s, u, m).tasks
    ensures s.tasks[u].held > 0 ==>
      Release(s, u, m).tasks[t].pc == s.tasks[t].pc || (s.tasks[t].pc.Waiting? && Release(s, u, m).tasks[t].pc.Trying?)
  {
    ListAt(s, m);
    hide CountsOk, HeldOk, BaseOk, ListsOk;
    if s.mutexes[m].waiters != [] { assert s.mutexes[m].waiters[0] in s.mutexes[m].waiters; }
  }

  lemma OwnStep(s: System, step: Step, t: TaskId)
    requires Closed(s) && CountsOk(s) && Enabled(s, step) && MayApply(s, step) && t in s.tasks && step.t == t
    requires !s.tasks[t].pc.Outside? && !s.tasks[t].pc.Sleeping?
    ensures t in Apply(s, step).tasks
    ensures Apply(s, step).tasks[t].pc.Outside? <==> Obtains(s, step, t) || GoesWithout(s, step, t)
    ensures Obtains(s, step, t) ==> Apply(s, step).mutexes[s.tasks[t].pc.m].holder == Some(t)
    ensures Apply(s, step).tasks[t].pc.Waiting? <==> step == Block(t) && s.mutexes[s.tasks[t].pc.m].holder.Some?
  {
    hide PlaceFor, Find, Cut, Release, HighestWaiting, Inherit, DisinheritAfterTimeout;
    match step {
      case Try(u) => hide Join, UndoFor;
      case Block(u) => hide Take, UndoFor;
      case UndoInheritance(u) => hide Take, Join;
      case _ => hide Take, Join, UndoFor;
    }
  }

  // A call ends exactly so, and waits exactly when it finds the mutex taken with block time left.
  lemma TakeEndsExactly(s: System, step: Step, t: TaskId)
    requires Ledger(s) && Enabled(s, step) && MayApply(s, step) && t in s.tasks
    requires !s.tasks[t].pc.Outside? && !s.tasks[t].pc.Sleeping?
    ensures t in Apply(s, step).tasks
    ensures Apply(s, step).tasks[t].pc.Outside? <==> Obtains(s, step, t) || GoesWithout(s, step, t)
    ensures Obtains(s, step, t) ==> Apply(s, step).mutexes[s.tasks[t].pc.m].holder == Some(t)
    ensures !s.tasks[t].pc.Waiting? ==> (
      Apply(s, step).tasks[t].pc.Waiting? <==> step == Block(t) && s.mutexes[s.tasks[t].pc.m].holder.Some?)
  {
    hide HeldOk, BaseOk, ListsOk, CountsOk, Enabled, Apply, MayApply, Closed;
    if step.t == t { OwnStep(s, step, t); } else { OthersStep(s, step, t); }
  }

  // Task w, and no other, has left the waiters of m and may go on; none of them had a higher priority.
  ghost predicate HighestReleased(s: System, after: System, m: MutexId, w: TaskId)
    requires m in s.mutexes && m in after.mutexes
  {
    && w in s.mutexes[m].waiters && w in s.tasks && Ready(after, w)
    && (forall u :: u in after.mutexes[m].waiters <==> u in s.mutexes[m].waiters && u != w)
    && (forall u :: u in s.mutexes[m].waiters && u in s.tasks ==> s.tasks[u].priority <= s.tasks[w].priority)
  }

  lemma ReleaseWakesHighest(s: System, t: TaskId, m: MutexId)
    requires Ledger(s) && SortedOk(s) && t in s.tasks && m in s.mutexes && s.tasks[t].held > 0
    requires s.mutexes[m].waiters != []
    ensures HighestReleased(s, Release(s, t, m), m, s.mutexes[m].waiters[0])
  {
    var waiters := s.mutexes[m].waiters;
    ListAt(s, m);
    assert Descending(waiters, s.tasks);
    hide Ledger, SortedOk, Disinherit;
    assert waiters == [waiters[0]] + waiters[1..] && waiters[0] in waiters;
    assert forall i :: 0 <= i < |waiters| ==> waiters[i] in waiters;
  }

  // In every such run a mutex that is given back is free, and of the tasks waiting for it one of the
  // highest priority is woken, if there are any.
  lemma GiveWakesHighest(run: seq<System>, steps: seq<Step>, n: nat, t: TaskId, m: MutexId)
    requires IsScheduledRun(run, steps) && n < |steps| && Initial(run[0]) && steps[n] == Give(t, m)
    requires m in run[n].mutexes && run[n].mutexes[m].holder == Some(t)
    ensures m in run[n + 1].mutexes && run[n + 1].mutexes[m].holder == None && run[n + 1].mutexes[m].count == 1
    ensures run[n].mutexes[m].waiters != [] ==>
      HighestReleased(run[n], run[n + 1], m, run[n].mutexes[m].waiters[0])
    ensures run[n].mutexes[m].waiters == [] ==> run[n + 1].mutexes[m].waiters == []
  {
    ScheduledRunKeeps(run, steps, n);
    StepAt(run, steps, n);
    FreeOrHeld(run[n]);
    HolderHolds(run[n], m);
    hide IsScheduledRun, Initial, IsRun, Ledger, SortedOk, HoldersOk, SuccessorsOk, EventsOk, BlockedHoldNone,
      HighestReleased;
    if run[n].mutexes[m].waiters != [] { ReleaseWakesHighest(run[n], t, m); }
  }

  // A timed-out waiter that undoes its inheritance never finds itself the holder.
  lemma UndoNeverFindsSelf(run: seq<System>, steps: seq<Step>, n: nat, t: TaskId)
    requires IsScheduledRun(run, steps) && n < |run| && Initial(run[0])
    requires t in run[n].tasks && run[n].tasks[t].pc.Disinheriting?
    ensures UndoAssertHolds(run[n], t)
  {
    hide IsScheduledRun, Initial, IsRun, HeldOk, BaseOk, CountsOk, ListsOk, SortedOk, HoldersOk, SuccessorsOk;
    ScheduledRunKeeps(run, steps, n);
    UndoBounded(run[n], t);
  }

  // ----- Where the bound ends -----

  // The holder of m waits for a mutex whose holder g has a lower priority than t.
  predicate Outranked(s: System, t: TaskId, m: MutexId, g: TaskId) {
    && t in s.tasks && m in s.mutexes && s.mutexes[m].holder.Some? && s.mutexes[m].holder.value in s.tasks
    && var h := s.mutexes[m].holder.value;
    && s.tasks[h].pc.Waiting? && s.tasks[h].pc.m in s.mutexes && s.mutexes[s.tasks[h].pc.m].holder == Some(g)
    && g != h && g in s.tasks && s.tasks[g].priority < s.tasks[t].priority
  }

  // A task that blocks raises the holder only: the bound survives exactly when the holder is not
  // itself waiting behind a task that stays below the new priority.
  lemma NestedBlockingExactly(s: System, t: TaskId, m: MutexId)
    requires Ledger(s) && HoldersOk(s) && t in s.tasks && m in s.mutexes && !s.tasks[t].pc.Waiting?
    requires s.mutexes[m].holder.Some? && s.mutexes[m].holder != Some(t)
    ensures HoldersOk(Join(s, t, m)) <==> forall g :: !Outranked(s, t, m, g)
  {
    hide HoldersOk;
    if forall g :: !Outranked(s, t, m, g) {
      NotOutranked(s, t, m);
    } else {
      var g :| Outranked(s, t, m, g);
      IsOutranked(s, t, m, g);
    }
  }

  lemma HoldersAt(s: System, m: MutexId, w: TaskId)
    requires HoldersOk(s) && m in s.mutexes && s.mutexes[m].holder.Some? && s.mutexes[m].holder.value in s.tasks
    requires w in s.mutexes[m].waiters && w in s.tasks
    ensures s.tasks[w].priority <= s.tasks[s.mutexes[m].holder.value].priority
  {
  }

  lemma IsOutranked(s: System, t: TaskId, m: MutexId, g: TaskId)
    requires Ledger(s) && t in s.tasks && !s.tasks[t].pc.Waiting?
    requires Outranked(s, t, m, g) && s.mutexes[m].holder != Some(t)
    ensures !HoldersOk(Join(s, t, m))
  {
    hide HoldersOk, Join, HeldOk, CountsOk, BaseOk, ListsOk;
    var h, n := s.mutexes[m].holder.value, s.tasks[s.mutexes[m].holder.value].pc.m;
    var k := JoinShape(s, t, m);
    ListAt(s, n);
    if HoldersOk(Join(s, t, m)) { HoldersAt(Join(s, t, m), n, h); }
  }

  lemma NotOutranked(s: System, t: TaskId, m: MutexId)
    requires Ledger(s) && HoldersOk(s) && t in s.tasks && m in s.mutexes && !s.tasks[t].pc.Waiting?
    requires s.mutexes[m].holder.Some? && s.mutexes[m].holder != Some(t) && forall g :: !Outranked(s, t, m, g)
    ensures HoldersOk(Join(s, t, m))
  {
    hide Join, HeldOk, CountsOk, BaseOk, ListsOk;
    var h, after := s.mutexes[m].holder.value, Join(s, t, m);
    var k := JoinShape(s, t, m);
    forall n, w | n in after.mutexes && after.mutexes[n].holder.Some? && w in after.mutexes[n].waiters
      ensures w in after.tasks && after.mutexes[n].holder.value in after.tasks
      ensures after.tasks[w].priority <= after.tasks[after.mutexes[n].holder.value].priority
    {
      var g := after.mutexes[n].holder.value;
      ListAt(s, n);
      HolderHolds(s, n);
      if n != m || w != t {
        HoldersAt(s, n, w);
        if w == h { assert !Outranked(s, t, m, g); }
      }
    }
  }
}
