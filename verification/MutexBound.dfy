// Exactly which steps keep every holder at least at the priority of the tasks waiting for its mutex.
module MutexBound {
  import opened MutexProtocol
  import opened MutexLedger
  import opened MutexPriorities

  // ----- What a task may run at -----

  // Task w waits for mutex m, which h holds.
  predicate Serves(s: System, m: MutexId, w: TaskId, h: TaskId)
    requires m in s.mutexes
  {
    s.mutexes[m].holder == Some(h) && h in s.tasks && w in s.mutexes[m].waiters && w in s.tasks
  }

  // No other task waits at a priority above p for a mutex that h holds.
  ghost predicate NoWaiterAbove(s: System, h: TaskId, p: nat) {
    forall m, w :: m in s.mutexes && Serves(s, m, w, h) && w != h ==> s.tasks[w].priority <= p
  }

  // Task h does not wait for a mutex whose holder, another task, is below p.
  ghost predicate NotBehindLower(s: System, h: TaskId, p: nat) {
    forall m, g :: m in s.mutexes && Serves(s, m, h, g) && g != h ==> p <= s.tasks[g].priority
  }

  // The guard of each step: what has to hold before it for the bound to hold after it.
  ghost predicate Fits(s: System, step: Step)
    requires Closed(s) && Enabled(s, step)
  {
    match step
    // No waiter is above the task that takes the mutex.
    case Try(t) =>
      var m := s.tasks[t].pc.m;
      s.mutexes[m].count > 0 ==> AtLeast(s.tasks[t].priority, s.mutexes[m].waiters, s.tasks)
    // The holder does not itself wait behind a task below the new waiter.
    case Block(t) =>
      var m := s.tasks[t].pc.m;
      s.mutexes[m].count == 0 ==> forall g :: !Outranked(s, t, m, g)
    // A holder of one mutex has no waiter above the priority it gets, and waits behind no task below that.
    case UndoInheritance(t) =>
      var m := s.tasks[t].pc.m;
      s.mutexes[m].holder.Some? && s.tasks[s.mutexes[m].holder.value].held == 1 ==>
        var h := s.mutexes[m].holder.value;
        var p := DisinheritTo(s.tasks[h].base, HighestWaiting(s.mutexes[m], s.tasks));
        NoWaiterAbove(s, h, p) && NotBehindLower(s, h, p)
    // The same for a task whose priority is not inherited.
    case Reprioritise(_, u, p) =>
      s.tasks[u].base == s.tasks[u].priority ==> NoWaiterAbove(s, u, p) && NotBehindLower(s, u, p)
    case _ => true
  }

  // ----- One kind of change at a time -----

  lemma HoldersWhen(s: System)
    requires forall m, w, h :: m in s.mutexes && Serves(s, m, w, h) ==> s.tasks[w].priority <= s.tasks[h].priority
    ensures HoldersOk(s)
  {
  }

  // Every waiter and holder of the new state is one of the old, and no holder has fallen against a waiter.
  ghost predicate Eases(s: System, after: System) {
    && SameNames(s, after)
    && (forall m, w :: m in s.mutexes && w in after.mutexes[m].waiters ==> w in s.mutexes[m].waiters)
    && (forall m, h :: m in s.mutexes && after.mutexes[m].holder == Some(h) && h in s.tasks ==>
          s.mutexes[m].holder == Some(h) && after.tasks[h].priority >= s.tasks[h].priority)
    && (forall m, w :: m in s.mutexes && w in after.mutexes[m].waiters && w in s.tasks ==>
          after.tasks[w].priority <= s.tasks[w].priority)
  }

  lemma EasesKeeps(s: System, after: System)
    requires HoldersOk(s) && Eases(s, after)
    ensures HoldersOk(after)
  {
    forall m, w, h | m in after.mutexes && Serves(after, m, w, h)
      ensures after.tasks[w].priority <= after.tasks[h].priority
    {
      HoldersAt(s, m, w);
    }
    HoldersWhen(after);
  }

  // The priority of h alone changes.
  lemma PriorityFits(s: System, after: System, h: TaskId)
    requires HoldersOk(s) && h in s.tasks && after.mutexes == s.mutexes && after.tasks.Keys == s.tasks.Keys
    requires forall u :: u in s.tasks && u != h ==> after.tasks[u].priority == s.tasks[u].priority
    ensures HoldersOk(after) <==>
      NoWaiterAbove(s, h, after.tasks[h].priority) && NotBehindLower(s, h, after.tasks[h].priority)
  {
    var p := after.tasks[h].priority;
    if HoldersOk(after) {
      forall m, w | m in s.mutexes && Serves(s, m, w, h) && w != h
        ensures s.tasks[w].priority <= p
      {
        HoldersAt(after, m, w);
      }
      forall m, g | m in s.mutexes && Serves(s, m, h, g) && g != h
        ensures p <= s.tasks[g].priority
      {
        HoldersAt(after, m, h);
      }
    }
    if NoWaiterAbove(s, h, p) && NotBehindLower(s, h, p) {
      forall m, w, g | m in s.mutexes && Serves(s, m, w, g)
        ensures after.tasks[w].priority <= after.tasks[g].priority
      {
        HoldersAt(s, m, w);
      }
      HoldersWhen(after);
    }
  }

  // A priority that stays needs no guard.
  lemma OwnPriorityFits(s: System, h: TaskId)
    requires HoldersOk(s) && h in s.tasks
    ensures NoWaiterAbove(s, h, s.tasks[h].priority) && NotBehindLower(s, h, s.tasks[h].priority)
  {
    PriorityFits(s, s, h);
  }

  // ----- Each step -----

  lemma TakeFits(s: System, t: TaskId, m: MutexId)
    requires HoldersOk(s) && t in s.tasks && m in s.mutexes
    ensures HoldersOk(Take(s, t, m)) <==> AtLeast(s.tasks[t].priority, s.mutexes[m].waiters, s.tasks)
  {
    var after := Take(s, t, m);
    if HoldersOk(after) {
      forall w | w in s.mutexes[m].waiters && w in s.tasks ensures s.tasks[w].priority <= s.tasks[t].priority {
        HoldersAt(after, m, w);
      }
    }
    if AtLeast(s.tasks[t].priority, s.mutexes[m].waiters, s.tasks) {
      forall n, w, h | n in after.mutexes && Serves(after, n, w, h)
        ensures after.tasks[w].priority <= after.tasks[h].priority
      {
        if n != m { HoldersAt(s, n, w); }
      }
      HoldersWhen(after);
    }
  }

  lemma JoinFits(s: System, t: TaskId, m: MutexId)
    requires Ledger(s) && HoldersOk(s) && t in s.tasks && m in s.mutexes && !s.tasks[t].pc.Waiting?
    requires s.mutexes[m].holder.Some?
    ensures HoldersOk(Join(s, t, m)) <==> forall g :: !Outranked(s, t, m, g)
  {
    hide Ledger, HoldersOk, Join;
    if s.mutexes[m].holder == Some(t) { SelfJoinKeeps(s, t, m); } else { NestedBlockingExactly(s, t, m); }
  }

  // A task that blocks on a mutex it holds raises nobody.
  lemma SelfJoinKeeps(s: System, t: TaskId, m: MutexId)
    requires Ledger(s) && HoldersOk(s) && t in s.tasks && m in s.mutexes && !s.tasks[t].pc.Waiting?
    requires s.mutexes[m].holder == Some(t)
    ensures HoldersOk(Join(s, t, m))
  {
    hide Join, HeldOk, CountsOk, BaseOk, ListsOk, HoldersOk;
    var k := JoinShape(s, t, m);
    var after := Join(s, t, m);
    forall n, w, h | n in after.mutexes && Serves(after, n, w, h)
      ensures after.tasks[w].priority <= after.tasks[h].priority
    {
      if n != m || w != t { HoldersAt(s, n, w); }
    }
    HoldersWhen(after);
  }

  // Giving a mutex back never breaks the bound: a giver whose priority falls holds nothing else.
  lemma ReleaseFits(s: System, t: TaskId, m: MutexId)
    requires Ledger(s) && HoldersOk(s) && t in s.tasks && m in s.mutexes && s.tasks[t].pc.Outside?
    requires s.mutexes[m].holder == Some(t)
    ensures s.tasks[t].held > 0 && HoldersOk(Release(s, t, m))
  {
    HolderHolds(s, m);
    ListAt(s, m);
    hide HeldOk, CountsOk, BaseOk, ListsOk, HoldersOk;
    var after, waiters := Release(s, t, m), s.mutexes[m].waiters;
    if waiters != [] { assert waiters[0] in waiters; }
    assert forall u :: u in s.tasks && u != t ==> after.tasks[u].priority == s.tasks[u].priority;
    assert after.tasks[t].priority == s.tasks[t].priority || s.tasks[t].held == 1;
    assert after.mutexes == s.mutexes[m := after.mutexes[m]] && after.mutexes[m].holder.None?;
    hide Release;
    forall n, w, h | n in after.mutexes && Serves(after, n, w, h)
      ensures after.tasks[w].priority <= after.tasks[h].priority
    {
      ListAt(s, n);
      HoldersAt(s, n, w);
      if h == t { HoldsTwo(s, t, m, n); }
    }
    HoldersWhen(after);
  }

  lemma UndoFits(s: System, t: TaskId)
    requires Closed(s) && HoldersOk(s) && Enabled(s, UndoInheritance(t))
    ensures HoldersOk(Apply(s, UndoInheritance(t))) <==> Fits(s, UndoInheritance(t))
  {
    hide HoldersOk, NoWaiterAbove, NotBehindLower;
    var m, after := s.tasks[t].pc.m, Apply(s, UndoInheritance(t));
    match s.mutexes[m].holder
    case None => EasesKeeps(s, after);
    case Some(h) =>
      PriorityFits(s, after, h);
      OwnPriorityFits(s, h);
  }

  lemma ReprioritiseFits(s: System, t: TaskId, u: TaskId, p: nat)
    requires Closed(s) && HoldersOk(s) && Enabled(s, Reprioritise(t, u, p))
    ensures HoldersOk(Apply(s, Reprioritise(t, u, p))) <==> Fits(s, Reprioritise(t, u, p))
  {
    hide HoldersOk, NoWaiterAbove, NotBehindLower;
    PriorityFits(s, Apply(s, Reprioritise(t, u, p)), u);
    OwnPriorityFits(s, u);
  }

  lemma TimeOutFits(s: System, t: TaskId)
    requires Closed(s) && HoldersOk(s) && Enabled(s, TimeOut(t))
    ensures HoldersOk(Apply(s, TimeOut(t)))
  {
    hide HoldersOk;
    EasesKeeps(s, Apply(s, TimeOut(t)));
  }

  lemma GotoFits(s: System, t: TaskId, pc: Pc)
    requires HoldersOk(s) && t in s.tasks
    ensures HoldersOk(Goto(s, t, pc))
  {
    EasesKeeps(s, Goto(s, t, pc));
  }

  // From a state with the bound, a step keeps it exactly when it fits.
  lemma StepFits(s: System, step: Step)
    requires Ledger(s) && HoldersOk(s) && Enabled(s, step) && MayApply(s, step)
    ensures Closed(s) && (HoldersOk(Apply(s, step)) <==> Fits(s, step))
  {
    FreeOrHeld(s);
    hide CountsOk, HeldOk, BaseOk, ListsOk, HoldersOk, Take, Join, Release, UndoFor;
    match step
    case Try(t) =>
      var pc := s.tasks[t].pc;
      if s.mutexes[pc.m].count > 0 { TakeFits(s, t, pc.m); }
      else { GotoFits(s, t, if pc.wait then Wanting(pc.m, pc.inherited) else Outside); }
    case Block(t) =>
      var pc := s.tasks[t].pc;
      if s.mutexes[pc.m].count == 0 { JoinFits(s, t, pc.m); } else { GotoFits(s, t, Trying(pc.m, true, pc.inherited)); }
    case UndoInheritance(t) => UndoFits(s, t);
    case Give(t, m) => if s.mutexes[m].count == 0 { ReleaseFits(s, t, m); }
    case TimeOut(t) => TimeOutFits(s, t);
    case Reprioritise(t, u, p) => ReprioritiseFits(s, t, u, p);
    case Call(t, m, wait) => GotoFits(s, t, Trying(m, wait, false));
    case Expire(t, zeroed) => GotoFits(s, t, Expired(s.tasks[t].pc.m, !zeroed, s.tasks[t].pc.inherited));
    case LookAgain(t) =>
      var pc := s.tasks[t].pc;
      GotoFits(s, t, if s.mutexes[pc.m].count > 0 then Trying(pc.m, pc.wait, pc.inherited)
                     else if pc.inherited then Disinheriting(pc.m) else Outside);
    case Sleep(t) => GotoFits(s, t, Sleeping);
    case Wake(t) => GotoFits(s, t, Outside);
  }

  // ----- Every run -----

  // In every run, of whatever calls in whatever order, no holder is below a task waiting for its mutex
  // in any state up to the n-th if and only if each of the n steps to it fits.
  lemma {:induction false} BoundExactly(run: seq<System>, steps: seq<Step>, n: nat)
    requires IsRun(run, steps) && n < |run| && Initial(run[0])
    ensures forall i :: 0 <= i < n ==> Closed(run[i]) && Enabled(run[i], steps[i])
    ensures (forall i :: 0 <= i <= n ==> HoldersOk(run[i])) <==> (forall i :: 0 <= i < n ==> Fits(run[i], steps[i]))
  {
    hide Enabled, Apply, MayApply, Closed, HoldersOk, Ledger, Initial, Fits;
    if n == 0 {
      InitialHolders(run[0]);
    } else {
      BoundExactly(run, steps, n - 1);
      LedgerBalances(run, steps, n - 1);
      StepAt(run, steps, n - 1);
      if HoldersOk(run[n - 1]) { StepFits(run[n - 1], steps[n - 1]); }
    }
  }

  lemma InitialHolders(s: System)
    requires Initial(s)
    ensures HoldersOk(s)
  {
  }
}
