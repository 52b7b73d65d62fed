// Runs that reach the ends of what priority inheritance promises, and when its assertions fail.
module MutexRuns {
  import opened ListRing
  import opened MutexProtocol
  import opened MutexLedger
  import opened MutexPriorities
  import opened MutexBound

  // ----- Building runs -----

  // A step of a highest-priority ready task or of the tick; in an orderly run, of one that does not
  // block while it holds a mutex.
  ghost predicate MayStep(s: System, step: Step, orderly: bool) {
    Dispatched(s, step) && (orderly ==> Scheduled(s, step))
  }

  ghost predicate RunFrom(run: seq<System>, steps: seq<Step>, s0: System, s: System, orderly: bool) {
    && IsRun(run, steps) && (forall i :: 0 <= i < |steps| ==> MayStep(run[i], steps[i], orderly))
    && run[0] == s0 && run[|steps|] == s
  }

  // Some run of highest-priority tasks leads from s0 to s.
  ghost predicate Leads(s0: System, s: System, orderly: bool) {
    exists run, steps :: RunFrom(run, steps, s0, s, orderly)
  }

  lemma Nowhere(s: System, orderly: bool)
    ensures Leads(s, s, orderly)
  {
    assert RunFrom([s], [], s, s, orderly);
  }

  lemma LeadsToLedger(s0: System, s: System, orderly: bool)
    requires Initial(s0) && Leads(s0, s, orderly)
    ensures Ledger(s) && Closed(s)
  {
    hide Initial, Ledger, MayStep;
    var run, steps :| RunFrom(run, steps, s0, s, orderly);
    LedgerBalances(run, steps, |steps|);
    LedgerLists(s);
  }

  lemma LedgerLists(s: System)
    requires Ledger(s)
    ensures ListsOk(s) && Closed(s)
  {
  }

  lemma Onwards(s0: System, s: System, step: Step, orderly: bool)
    requires Initial(s0) && Leads(s0, s, orderly) && MayStep(s, step, orderly)
    ensures Closed(s) && Enabled(s, step) && MayApply(s, step) && Leads(s0, Apply(s, step), orderly)
  {
    hide Initial, Ledger, Enabled, MayStep, Dispatched, Scheduled, Apply, Closed;
    StepEnabled(s, step, orderly);
    LeadsToLedger(s0, s, orderly);
    MayGive(s, step);
    var run, steps :| RunFrom(run, steps, s0, s, orderly);
    var run', steps' := run + [Apply(s, step)], steps + [step];
    forall i | 0 <= i < |steps'|
      ensures Closed(run'[i]) && Enabled(run'[i], steps'[i]) && MayApply(run'[i], steps'[i])
      ensures run'[i + 1] == Apply(run'[i], steps'[i]) && MayStep(run'[i], steps'[i], orderly)
    {
      if i < |steps| { assert run'[i] == run[i] && steps'[i] == steps[i] && run'[i + 1] == run[i + 1]; }
    }
    assert RunFrom(run', steps', s0, Apply(s, step), orderly);
  }

  lemma StepEnabled(s: System, step: Step, orderly: bool)
    requires MayStep(s, step, orderly)
    ensures Enabled(s, step)
  {
  }

  // ----- Every task asleep -----

  function Asleep(s: System, d: set<TaskId>): System {
    s.(tasks := map t | t in s.tasks :: if t in d then s.tasks[t].(pc := Sleeping) else s.tasks[t])
  }

  lemma {:induction false} Lowest(d: set<TaskId>, tasks: map<TaskId, Tcb>) returns (t: TaskId)
    requires d != {} && d <= tasks.Keys
    ensures t in d && forall u :: u in d ==> tasks[t].priority <= tasks[u].priority
    decreases |d|
  {
    t :| t in d;
    if d != {t} {
      var u := Lowest(d - {t}, tasks);
      if tasks[u].priority < tasks[t].priority { t := u; }
    }
  }

  // The highest-priority tasks go to sleep, one after the other.
  lemma {:induction false} FallAsleep(s0: System, d: set<TaskId>, orderly: bool)
    requires Initial(s0) && d <= s0.tasks.Keys
    requires forall t, u :: t in d && u in s0.tasks && u !in d ==> s0.tasks[u].priority <= s0.tasks[t].priority
    ensures Leads(s0, Asleep(s0, d), orderly)
    decreases |d|
  {
    InitialEntries(s0);
    hide Initial, Leads;
    if d == {} {
      Nowhere(s0, orderly);
      assert Asleep(s0, d).tasks == s0.tasks;
    } else {
      var t := Lowest(d, s0.tasks);
      FallAsleep(s0, d - {t}, orderly);
      var s := Asleep(s0, d - {t});
      SleepStep(s0, s, t, orderly);
      assert Goto(s, t, Sleeping).tasks == Asleep(s0, d).tasks;
    }
  }

  // Where every run below begins: all tasks asleep, no mutex held.
  ghost predicate AllAsleep(s0: System, s: System) {
    && s.tasks.Keys == s0.tasks.Keys && s.mutexes.Keys == s0.mutexes.Keys
    && (forall t :: t in s.tasks ==> AsleepAs(s0.tasks[t], s.tasks[t]))
    && (forall m :: m in s.mutexes ==> s.mutexes[m] == Mutex(1, None, []))
  }

  predicate AsleepAs(c0: Tcb, c: Tcb) {
    c.pc == Sleeping && c.held == 0 && c.priority == c.base == c.eventPriority == c0.priority
  }

  lemma FirstSleep(s0: System, orderly: bool) returns (s: System)
    requires Initial(s0)
    ensures Leads(s0, s, orderly) && AllAsleep(s0, s)
  {
    s := Asleep(s0, s0.tasks.Keys);
    FallAsleep(s0, s0.tasks.Keys, orderly);
  }

  lemma InitialEntries(s: System)
    requires Initial(s)
    ensures forall t :: t in s.tasks ==> s.tasks[t].pc.Outside? && s.tasks[t].held == 0
    ensures forall m :: m in s.mutexes ==> s.mutexes[m] == Mutex(1, None, [])
  {
  }

  lemma SleepStep(s0: System, s: System, t: TaskId, orderly: bool)
    requires Initial(s0) && Leads(s0, s, orderly) && Runs(s, t) && s.tasks[t].pc.Outside?
    ensures Leads(s0, Goto(s, t, Sleeping), orderly)
  {
    hide Initial, Leads, Closed;
    Onwards(s0, s, Sleep(t), orderly);
  }

  lemma WakeStep(s0: System, s: System, t: TaskId, orderly: bool)
    requires Initial(s0) && Leads(s0, s, orderly) && t in s.tasks && s.tasks[t].pc.Sleeping?
    ensures Leads(s0, Goto(s, t, Outside), orderly)
  {
    hide Initial, Leads, Closed;
    Onwards(s0, s, Wake(t), orderly);
  }

  // ----- Taking, waiting, timing out -----

  lemma CallStep(s0: System, s: System, t: TaskId, m: MutexId, orderly: bool)
    requires Initial(s0) && Leads(s0, s, orderly) && Runs(s, t) && s.tasks[t].pc.Outside? && m in s.mutexes
    ensures var s1 := Goto(s, t, Trying(m, true, false)); Leads(s0, s1, orderly) && Runs(s1, t)
  {
    hide Initial, Leads, Closed;
    Onwards(s0, s, Call(t, m, true), orderly);
  }

  lemma TryStep(s0: System, s: System, t: TaskId, orderly: bool)
    requires Initial(s0) && Leads(s0, s, orderly) && Runs(s, t)
    requires s.tasks[t].pc.Trying? && s.tasks[t].pc.wait && s.tasks[t].pc.m in s.mutexes
    ensures var pc := s.tasks[t].pc;
      && (s.mutexes[pc.m].count > 0 ==> Leads(s0, Take(s, t, pc.m), orderly))
      && (s.mutexes[pc.m].count == 0 ==>
            Leads(s0, Goto(s, t, Wanting(pc.m, pc.inherited)), orderly)
            && Runs(Goto(s, t, Wanting(pc.m, pc.inherited)), t))
  {
    hide Initial, Leads, Closed;
    Onwards(s0, s, Try(t), orderly);
  }

  lemma TakesFree(s0: System, s: System, t: TaskId, m: MutexId, orderly: bool)
    requires Initial(s0) && Leads(s0, s, orderly) && Runs(s, t)
    requires s.tasks[t].pc.Outside? && m in s.mutexes && s.mutexes[m].count > 0
    ensures Leads(s0, Take(s, t, m), orderly)
  {
    assert t in s.tasks;
    hide Initial, Leads, Runs;
    CallStep(s0, s, t, m, orderly);
    var s1 := Goto(s, t, Trying(m, true, false));
    TryStep(s0, s1, t, orderly);
    assert Take(s1, t, m).tasks == Take(s, t, m).tasks;
  }

  // The state after t has joined the waiters of a mutex that is held.
  function Waits(s: System, t: TaskId, m: MutexId, waiters: seq<TaskId>): System
    requires t in s.tasks && m in s.mutexes && s.mutexes[m].holder.Some? && s.mutexes[m].holder.value in s.tasks
  {
    var h := s.mutexes[m].holder.value;
    var tasks := s.tasks[h := Inherit(s.tasks[h], s.tasks[t].priority)];
    System(tasks[t := tasks[t].(pc := Waiting(m, Inherits(s.tasks[h], s.tasks[t].priority)))],
           s.mutexes[m := s.mutexes[m].(waiters := waiters)])
  }

  // Task t belongs at place k: behind all of at least its priority. The holder does not wait itself.
  predicate Belongs(s: System, t: TaskId, m: MutexId, k: nat)
    requires t in s.tasks && m in s.mutexes
  {
    var waiters, p := s.mutexes[m].waiters, s.tasks[t].eventPriority;
    && k <= |waiters| && (forall w :: w in waiters ==> w in s.tasks && s.mutexes[m].holder != Some(w))
    && (forall i :: 0 <= i < k ==> s.tasks[waiters[i]].eventPriority >= p)
    && (k < |waiters| ==> s.tasks[waiters[k]].eventPriority < p)
  }

  lemma {:induction false} PlaceIs(waiters: seq<TaskId>, tasks: map<TaskId, Tcb>, p: nat, k: nat)
    requires (forall w :: w in waiters ==> w in tasks) && k <= |waiters|
    requires forall i :: 0 <= i < k ==> tasks[waiters[i]].eventPriority >= p
    requires k < |waiters| ==> tasks[waiters[k]].eventPriority < p
    ensures PlaceFor(waiters, tasks, p) == k
  {
    var place := PlaceFor(waiters, tasks, p);
    hide PlaceFor;
  }

  lemma JoinAt(s: System, t: TaskId, m: MutexId, k: nat)
    requires Closed(s) && t in s.tasks && m in s.mutexes && s.mutexes[m].holder.Some? && Belongs(s, t, m, k)
    requires s.tasks[t].eventPriority == s.tasks[t].priority
    ensures s.mutexes[m].holder.value in s.tasks
    ensures Join(s, t, m) == Waits(s, t, m, s.mutexes[m].waiters[..k] + [t] + s.mutexes[m].waiters[k..])
  {
    var h, waiters := s.mutexes[m].holder.value, s.mutexes[m].waiters;
    var tasks := s.tasks[h := Inherit(s.tasks[h], s.tasks[t].priority)];
    assert forall i :: 0 <= i < |waiters| ==> waiters[i] in waiters;
    PlaceIs(waiters, tasks, tasks[t].eventPriority, k);
  }

  lemma BlockStep(s0: System, s: System, t: TaskId, m: MutexId, k: nat, orderly: bool)
    requires Initial(s0) && Leads(s0, s, orderly) && Runs(s, t) && s.tasks[t].eventPriority == s.tasks[t].priority
    requires s.tasks[t].pc.Wanting? && s.tasks[t].pc.m == m && m in s.mutexes && s.mutexes[m].count == 0
    requires s.mutexes[m].holder.Some? && s.mutexes[m].holder.value in s.tasks && Belongs(s, t, m, k)
    requires orderly ==> s.tasks[t].held == 0
    ensures Leads(s0, Waits(s, t, m, s.mutexes[m].waiters[..k] + [t] + s.mutexes[m].waiters[k..]), orderly)
  {
    hide Initial, Leads, Closed, Belongs;
    Onwards(s0, s, Block(t), orderly);
    JoinAt(s, t, m, k);
  }

  lemma Blocks(s0: System, s: System, t: TaskId, m: MutexId, k: nat, waiters: seq<TaskId>, orderly: bool)
    requires Initial(s0) && Leads(s0, s, orderly) && Runs(s, t) && s.tasks[t].eventPriority == s.tasks[t].priority
    requires s.tasks[t].pc.Outside? && m in s.mutexes && s.mutexes[m].count == 0 && Belongs(s, t, m, k)
    requires waiters == s.mutexes[m].waiters[..k] + [t] + s.mutexes[m].waiters[k..]
    requires s.mutexes[m].holder.Some? && s.mutexes[m].holder.value in s.tasks && (orderly ==> s.tasks[t].held == 0)
    ensures Leads(s0, Waits(s, t, m, waiters), orderly)
  {
    assert t in s.tasks;
    hide Initial, Leads, Runs, Closed;
    CallStep(s0, s, t, m, orderly);
    var s1 := Goto(s, t, Trying(m, true, false));
    TryStep(s0, s1, t, orderly);
    var s2 := Goto(s1, t, Wanting(m, false));
    BlockStep(s0, s2, t, m, k, orderly);
    WaitsFromAnyPc(s, t, m, waiters, Trying(m, true, false));
    WaitsFromAnyPc(s1, t, m, waiters, Wanting(m, false));
  }

  lemma WaitsFromAnyPc(s: System, t: TaskId, m: MutexId, waiters: seq<TaskId>, pc: Pc)
    requires t in s.tasks && m in s.mutexes && s.mutexes[m].holder.Some? && s.mutexes[m].holder.value in s.tasks
    ensures Waits(Goto(s, t, pc), t, m, waiters) == Waits(s, t, m, waiters)
  {
    var a, b := Waits(Goto(s, t, pc), t, m, waiters).tasks, Waits(s, t, m, waiters).tasks;
    assert a.Keys == b.Keys && forall u :: u in a ==> a[u] == b[u];
    assert a == b;
  }

  // The first waiter times out, and goes on at pc.
  function TimedOut(s: System, t: TaskId, m: MutexId, rest: seq<TaskId>, pc: Pc): System
    requires t in s.tasks && m in s.mutexes
  {
    System(s.tasks[t := s.tasks[t].(pc := pc)], s.mutexes[m := s.mutexes[m].(waiters := rest)])
  }

  lemma TimeOutStep(s0: System, s: System, t: TaskId, m: MutexId, rest: seq<TaskId>, orderly: bool)
    requires Initial(s0) && Leads(s0, s, orderly) && t in s.tasks && m in s.mutexes
    requires s.tasks[t].pc == Waiting(m, true) && s.mutexes[m].waiters == [t] + rest
    ensures Leads(s0, TimedOut(s, t, m, rest, Trying(m, true, true)), orderly)
  {
    hide Initial, Leads, Closed;
    var waiters := s.mutexes[m].waiters;
    assert waiters[0] == t && Find(waiters, t) == 0 && waiters[1..] == rest;
    assert Cut(waiters, 0) == rest;
    Onwards(s0, s, TimeOut(t), orderly);
  }

  lemma ExpireStep(s0: System, s: System, t: TaskId, m: MutexId, orderly: bool)
    requires Initial(s0) && Leads(s0, s, orderly) && Runs(s, t) && s.tasks[t].pc == Wanting(m, true)
    ensures Leads(s0, Goto(s, t, Expired(m, false, true)), orderly)
    ensures Runs(Goto(s, t, Expired(m, false, true)), t)
  {
    hide Initial, Leads, Closed;
    Onwards(s0, s, Expire(t, true), orderly);
  }

  // It finds the mutex still taken and its block time used up.
  lemma TimesOut(s0: System, s: System, t: TaskId, m: MutexId, rest: seq<TaskId>, orderly: bool)
    requires Initial(s0) && Leads(s0, s, orderly) && t in s.tasks && m in s.mutexes
    requires s.tasks[t].pc == Waiting(m, true) && s.mutexes[m].waiters == [t] + rest && s.mutexes[m].count == 0
    requires Runs(TimedOut(s, t, m, rest, Trying(m, true, true)), t)
    ensures var s1 := TimedOut(s, t, m, rest, Expired(m, false, true)); Leads(s0, s1, orderly) && Runs(s1, t)
  {
    hide Initial, Leads, Runs;
    TimeOutStep(s0, s, t, m, rest, orderly);
    var s1 := TimedOut(s, t, m, rest, Trying(m, true, true));
    TryStep(s0, s1, t, orderly);
    var s2 := Goto(s1, t, Wanting(m, true));
    ExpireStep(s0, s2, t, m, orderly);
    assert Goto(s2, t, Expired(m, false, true)).tasks == TimedOut(s, t, m, rest, Expired(m, false, true)).tasks;
  }

  lemma LookAgainStep(s0: System, s: System, t: TaskId, m: MutexId, orderly: bool)
    requires Initial(s0) && Leads(s0, s, orderly) && Runs(s, t)
    requires s.tasks[t].pc == Expired(m, false, true) && m in s.mutexes
    ensures var pc := if s.mutexes[m].count > 0 then Trying(m, false, true) else Disinheriting(m);
      Leads(s0, Goto(s, t, pc), orderly) && Runs(Goto(s, t, pc), t)
  {
    hide Initial, Leads, Closed;
    Onwards(s0, s, LookAgain(t), orderly);
  }

  // The holder gives a mutex nobody waits for.
  function GivenBack(s: System, t: TaskId, m: MutexId): System
    requires t in s.tasks && m in s.mutexes && s.tasks[t].held > 0
  {
    System(s.tasks[t := Disinherit(s.tasks[t])], s.mutexes[m := Mutex(1, None, [])])
  }

  lemma GiveStep(s0: System, s: System, t: TaskId, m: MutexId, orderly: bool)
    requires Initial(s0) && Leads(s0, s, orderly) && Runs(s, t) && s.tasks[t].pc.Outside? && s.tasks[t].held > 0
    requires m in s.mutexes && s.mutexes[m] == Mutex(0, Some(t), [])
    ensures Leads(s0, GivenBack(s, t, m), orderly)
  {
    hide Initial, Leads, Closed;
    Onwards(s0, s, Give(t, m), orderly);
  }

  // ----- While everybody sleeps or waits -----

  predicate Quiet(s: System) { forall u :: u in s.tasks ==> s.tasks[u].pc.Sleeping? || s.tasks[u].pc.Waiting? }

  // A task has woken up, taken a free mutex and gone to sleep again.
  function Took(s: System, t: TaskId, m: MutexId): System
    requires t in s.tasks && m in s.mutexes
  {
    System(s.tasks[t := s.tasks[t].(held := s.tasks[t].held + 1)],
           s.mutexes[m := s.mutexes[m].(count := 0, holder := Some(t))])
  }

  lemma TakesAsleep(s0: System, s: System, t: TaskId, m: MutexId, orderly: bool)
    requires Initial(s0) && Leads(s0, s, orderly) && Quiet(s) && t in s.tasks && s.tasks[t].pc == Sleeping
    requires m in s.mutexes && s.mutexes[m].count > 0
    ensures Leads(s0, Took(s, t, m), orderly) && Quiet(Took(s, t, m))
  {
    hide Initial, Leads;
    WakeStep(s0, s, t, orderly);
    var s1 := Goto(s, t, Outside);
    TakesFree(s0, s1, t, m, orderly);
    SleepStep(s0, Take(s1, t, m), t, orderly);
    assert Goto(Take(s1, t, m), t, Sleeping).tasks == Took(s, t, m).tasks;
  }

  // A task wakes up and waits for a mutex at place k.
  lemma WakesAndBlocks(s0: System, s: System, t: TaskId, m: MutexId, k: nat, waiters: seq<TaskId>, orderly: bool)
    requires Initial(s0) && Leads(s0, s, orderly) && Quiet(s) && t in s.tasks && s.tasks[t].pc == Sleeping
    requires s.tasks[t].eventPriority == s.tasks[t].priority && m in s.mutexes && s.mutexes[m].count == 0
    requires Belongs(s, t, m, k) && waiters == s.mutexes[m].waiters[..k] + [t] + s.mutexes[m].waiters[k..]
    requires s.mutexes[m].holder.Some? && s.mutexes[m].holder.value in s.tasks && (orderly ==> s.tasks[t].held == 0)
    ensures Leads(s0, Waits(s, t, m, waiters), orderly) && Quiet(Waits(s, t, m, waiters))
  {
    hide Initial, Leads;
    WakeStep(s0, s, t, orderly);
    var s1 := Goto(s, t, Outside);
    BelongsFromAnyPc(s, t, m, k, Outside);
    Blocks(s0, s1, t, m, k, waiters, orderly);
    WaitsFromAnyPc(s, t, m, waiters, Outside);
  }

  lemma BelongsFromAnyPc(s: System, t: TaskId, m: MutexId, k: nat, pc: Pc)
    requires t in s.tasks && m in s.mutexes && Belongs(s, t, m, k)
    ensures Belongs(Goto(s, t, pc), t, m, k)
  {
    var waiters := s.mutexes[m].waiters;
    assert forall i :: 0 <= i < |waiters| ==> waiters[i] in waiters;
  }

  // ----- Nested blocking -----

  // Task g takes n; h takes m and waits for n; then t, of higher priority than both, waits for m. That
  // raises h, which waits for g, but not g.
  lemma NestedBlockingReached(s0: System, g: TaskId, h: TaskId, t: TaskId, n: MutexId, m: MutexId)
    requires Initial(s0) && g in s0.tasks && h in s0.tasks && t in s0.tasks && g != h && g != t && h != t
    requires n in s0.mutexes && m in s0.mutexes && n != m
    requires s0.tasks[g].priority < s0.tasks[t].priority && s0.tasks[h].priority < s0.tasks[t].priority
    ensures exists s :: Leads(s0, s, false) && !HoldersOk(s)
  {
    var s1 := FirstSleep(s0, false);
    AsleepIsQuiet(s0, s1);
    hide Initial, Leads, Quiet, HoldersOk;
    TakesAsleep(s0, s1, g, n, false);
    var s2 := Took(s1, g, n);
    TakesAsleep(s0, s2, h, m, false);
    var s3 := Took(s2, h, m);
    WakesAndBlocks(s0, s3, h, n, 0, [h], false);
    var s4 := Waits(s3, h, n, [h]);
    WakesAndBlocks(s0, s4, t, m, 0, [t], false);
    var s5 := Waits(s4, t, m, [t]);
    if HoldersOk(s5) { HoldersAt(s5, n, h); }
  }

  lemma AsleepIsQuiet(s0: System, s: System)
    requires AllAsleep(s0, s)
    ensures Quiet(s)
  {
  }

  // ----- Undoing an inheritance -----

  predicate AllDiffer(g: TaskId, y: TaskId, h: TaskId, x: TaskId, t: TaskId) {
    g != y && g != h && g != x && g != t && y != h && y != x && y != t && h != x && h != t && x != t
  }

  // Tasks y and h wait for n, which g holds, then x, above t, in front of them. Task t waits for m, which
  // raises h to t, still not above g. Then x times out and undoes its inheritance by the head of the
  // list, y: the list was not sorted again when h was raised, so g falls below h.
  lemma UndoBreaksBound(s0: System, g: TaskId, y: TaskId, h: TaskId, x: TaskId, t: TaskId, n: MutexId, m: MutexId)
    requires Initial(s0) && {g, y, h, x, t} <= s0.tasks.Keys && AllDiffer(g, y, h, x, t)
    requires n in s0.mutexes && m in s0.mutexes && n != m
    requires s0.tasks[g].priority < s0.tasks[t].priority <= s0.tasks[x].priority
    requires s0.tasks[h].priority <= s0.tasks[y].priority < s0.tasks[t].priority
    ensures exists s :: Leads(s0, s, false) && MayStep(s, UndoInheritance(x), false) && Breaks(s, UndoInheritance(x))
  {
    hide Initial, Leads, Quiet, TwoHold, TwoWait, ThreeWait, FourWait, MayStep, Breaks;
    var s1 := TwoTake(s0, g, h, n, m);
    var s2 := TwoBlock(s0, s1, g, y, h, n, m);
    var s3 := ThirdBlocks(s0, s2, g, y, h, x, n, m);
    var s4 := FourthBlocks(s0, s3, g, y, h, x, t, n, m);
    ThenUndone(s0, s4, g, y, h, x, t, n, m);
  }

  // Tasks g and h hold n and m, and all sleep.
  ghost predicate TwoHold(s0: System, s: System, g: TaskId, h: TaskId, n: MutexId, m: MutexId) {
    && g in s.tasks && h in s.tasks && s.tasks.Keys == s0.tasks.Keys && n in s.mutexes && m in s.mutexes
    && s.mutexes[n] == Mutex(0, Some(g), []) && s.mutexes[m] == Mutex(0, Some(h), [])
    && (forall k :: k in s.mutexes && k != n && k != m ==> s.mutexes[k].holder.None?)
    && (forall u :: u in s.tasks && u != g && u != h ==> AsleepAs(s0.tasks[u], s.tasks[u]))
    && s.tasks[g] == Tcb(s0.tasks[g].priority, s0.tasks[g].priority, s0.tasks[g].priority, 1, Sleeping)
    && s.tasks[h] == Tcb(s0.tasks[h].priority, s0.tasks[h].priority, s0.tasks[h].priority, 1, Sleeping)
  }

  lemma TwoTake(s0: System, g: TaskId, h: TaskId, n: MutexId, m: MutexId) returns (s: System)
    requires Initial(s0) && g in s0.tasks && h in s0.tasks && g != h && n in s0.mutexes && m in s0.mutexes && n != m
    ensures Leads(s0, s, false) && Quiet(s) && TwoHold(s0, s, g, h, n, m)
  {
    var s1 := FirstSleep(s0, false);
    AsleepIsQuiet(s0, s1);
    hide Initial, Leads, Quiet;
    TakesAsleep(s0, s1, g, n, false);
    var s2 := Took(s1, g, n);
    TakesAsleep(s0, s2, h, m, false);
    s := Took(s2, h, m);
  }

  // Task g holds n and sleeps, h holds m, y and h wait for n in that order, and all others sleep.
  ghost predicate TwoWait(s0: System, s: System, g: TaskId, y: TaskId, h: TaskId, n: MutexId, m: MutexId) {
    && g in s.tasks && y in s.tasks && h in s.tasks && s.tasks.Keys == s0.tasks.Keys && n in s.mutexes && m in s.mutexes
    && s.mutexes[n] == Mutex(0, Some(g), [y, h]) && s.mutexes[m] == Mutex(0, Some(h), [])
    && (forall k :: k in s.mutexes && k != n && k != m ==> s.mutexes[k].holder.None?)
    && (forall u :: u in s.tasks && u != g && u != y && u != h ==> AsleepAs(s0.tasks[u], s.tasks[u]))
    && s.tasks[g].held == 1 && s.tasks[g].base == s0.tasks[g].priority
    && s.tasks[g].priority <= DisinheritTo(s0.tasks[g].priority, s0.tasks[y].priority)
    && s.tasks[y].priority == s.tasks[y].eventPriority == s0.tasks[y].priority
    && s.tasks[h].priority == s.tasks[h].eventPriority == s0.tasks[h].priority
  }

  lemma TwoBlock(s0: System, s: System, g: TaskId, y: TaskId, h: TaskId, n: MutexId, m: MutexId) returns (s': System)
    requires Initial(s0) && Leads(s0, s, false) && Quiet(s) && TwoHold(s0, s, g, h, n, m)
    requires y in s0.tasks && g != y && g != h && y != h && n != m && s0.tasks[h].priority <= s0.tasks[y].priority
    ensures Leads(s0, s', false) && Quiet(s') && TwoWait(s0, s', g, y, h, n, m)
  {
    hide Initial, Leads, Quiet;
    WakesAndBlocks(s0, s, y, n, 0, [y], false);
    var s1 := Waits(s, y, n, [y]);
    WakesAndBlocks(s0, s1, h, n, 1, [y, h], false);
    s' := Waits(s1, h, n, [y, h]);
  }

  // Now x is in front of them, with g at its priority.
  ghost predicate ThreeWait(s0: System, s: System, g: TaskId, y: TaskId, h: TaskId, x: TaskId,
                            n: MutexId, m: MutexId)
  {
    && g in s.tasks && y in s.tasks && h in s.tasks && x in s.tasks && s.tasks.Keys == s0.tasks.Keys
    && n in s.mutexes && m in s.mutexes
    && s.mutexes[n] == Mutex(0, Some(g), [x, y, h]) && s.mutexes[m] == Mutex(0, Some(h), [])
    && (forall k :: k in s.mutexes && k != n && k != m ==> s.mutexes[k].holder.None?)
    && (forall u :: u in s.tasks && u != g && u != y && u != h && u != x ==> AsleepAs(s0.tasks[u], s.tasks[u]))
    && s.tasks[x].pc == Waiting(n, true) && s.tasks[x].priority == s0.tasks[x].priority
    && s.tasks[g].held == 1 && s.tasks[g].base == s0.tasks[g].priority && s.tasks[g].priority == s0.tasks[x].priority
    && s.tasks[y].priority == s.tasks[y].eventPriority == s0.tasks[y].priority
    && s.tasks[h].priority == s.tasks[h].eventPriority == s0.tasks[h].priority
  }

  lemma ThirdBlocks(s0: System, s: System, g: TaskId, y: TaskId, h: TaskId, x: TaskId,
                    n: MutexId, m: MutexId) returns (s': System)
    requires Initial(s0) && Leads(s0, s, false) && Quiet(s) && TwoWait(s0, s, g, y, h, n, m)
    requires x in s0.tasks && g != y && g != h && y != h && x != g && x != y && x != h && n != m
    requires s0.tasks[g].priority < s0.tasks[x].priority
    requires s0.tasks[h].priority <= s0.tasks[y].priority < s0.tasks[x].priority
    ensures Leads(s0, s', false) && Quiet(s') && ThreeWait(s0, s', g, y, h, x, n, m)
  {
    hide Initial, Leads, Quiet;
    WakesAndBlocks(s0, s, x, n, 0, [x, y, h], false);
    s' := Waits(s, x, n, [x, y, h]);
  }

  // And h is at the priority of t, which waits for m.
  ghost predicate FourWait(s0: System, s: System, g: TaskId, y: TaskId, h: TaskId, x: TaskId, t: TaskId,
                           n: MutexId, m: MutexId)
  {
    && g in s.tasks && y in s.tasks && h in s.tasks && x in s.tasks && t in s.tasks && s.tasks.Keys == s0.tasks.Keys
    && n in s.mutexes && m in s.mutexes
    && s.mutexes[n] == Mutex(0, Some(g), [x, y, h]) && s.mutexes[m] == Mutex(0, Some(h), [t])
    && (forall k :: k in s.mutexes && k != n && k != m ==> s.mutexes[k].holder.None?)
    && s.tasks[x].pc == Waiting(n, true) && s.tasks[x].priority == s0.tasks[x].priority
    && s.tasks[g].held == 1 && s.tasks[g].base == s0.tasks[g].priority && s.tasks[g].priority == s0.tasks[x].priority
    && s.tasks[y].priority == s.tasks[y].eventPriority == s0.tasks[y].priority
    && s.tasks[h].priority == s.tasks[t].priority == s0.tasks[t].priority
  }

  lemma FourthBlocks(s0: System, s: System, g: TaskId, y: TaskId, h: TaskId, x: TaskId, t: TaskId,
                     n: MutexId, m: MutexId) returns (s': System)
    requires Initial(s0) && Leads(s0, s, false) && Quiet(s) && ThreeWait(s0, s, g, y, h, x, n, m)
    requires AllDiffer(g, y, h, x, t) && t in s0.tasks && n != m && s0.tasks[h].priority < s0.tasks[t].priority
    ensures Leads(s0, s', false) && Quiet(s') && FourWait(s0, s', g, y, h, x, t, n, m)
  {
    hide Initial, Leads, Quiet;
    WakesAndBlocks(s0, s, t, m, 0, [t], false);
    s' := Waits(s, t, m, [t]);
  }

  lemma ThenUndone(s0: System, s: System, g: TaskId, y: TaskId, h: TaskId, x: TaskId, t: TaskId, n: MutexId, m: MutexId)
    requires Initial(s0) && Leads(s0, s, false) && Quiet(s) && FourWait(s0, s, g, y, h, x, t, n, m)
    requires AllDiffer(g, y, h, x, t) && n != m
    requires s0.tasks[g].priority < s0.tasks[t].priority <= s0.tasks[x].priority
    requires s0.tasks[y].priority < s0.tasks[t].priority
    ensures exists s' ::
      Leads(s0, s', false) && MayStep(s', UndoInheritance(x), false) && Breaks(s', UndoInheritance(x))
  {
    hide Initial, Leads;
    TimesOut(s0, s, x, n, [y, h], false);
    var s1 := TimedOut(s, x, n, [y, h], Expired(n, false, true));
    LookAgainStep(s0, s1, x, n, false);
    var s2 := Goto(s1, x, Disinheriting(n));
    LeadsToLedger(s0, s2, false);
    UndoLowers(s0, s, s2, g, y, h, x, t, n, m);
    assert MayStep(s2, UndoInheritance(x), false);
  }

  // The bound holds before the step and not after it.
  ghost predicate Breaks(s: System, step: Step) {
    Closed(s) && Enabled(s, step) && MayApply(s, step) && HoldersOk(s) && !HoldersOk(Apply(s, step))
  }

  lemma UndoLowers(s0: System, s: System, s': System, g: TaskId, y: TaskId, h: TaskId, x: TaskId, t: TaskId,
                   n: MutexId, m: MutexId)
    requires FourWait(s0, s, g, y, h, x, t, n, m) && AllDiffer(g, y, h, x, t) && n != m
    requires s0.tasks[g].priority < s0.tasks[t].priority <= s0.tasks[x].priority
    requires s0.tasks[y].priority < s0.tasks[t].priority && Closed(s')
    requires s' == Goto(TimedOut(s, x, n, [y, h], Expired(n, false, true)), x, Disinheriting(n))
    ensures Breaks(s', UndoInheritance(x))
  {
    forall k, w, u | k in s'.mutexes && Serves(s', k, w, u) ensures s'.tasks[w].priority <= s'.tasks[u].priority { }
    HoldersWhen(s');
    var after := Apply(s', UndoInheritance(x));
    assert after.mutexes[n].waiters[1] == h;
    hide HoldersOk;
    if HoldersOk(after) { HoldersAt(after, n, h); }
  }

  // ----- The assertion that a take without block time has caused no inheritance -----

  // configASSERT( xInheritanceOccurred == pdFALSE ) where the count is zero and no block time is left
  predicate TakeAssertHolds(s: System, t: TaskId) {
    var failing := t in s.tasks && s.tasks[t].pc.Trying? && !s.tasks[t].pc.wait && s.tasks[t].pc.inherited;
    failing ==> s.tasks[t].pc.m in s.mutexes && s.mutexes[s.tasks[t].pc.m].count > 0
  }

  // Two tasks of one priority, a and b, above l. While l holds m, a waits for it and times out with its
  // block time used up; l, at the priority it inherited, gives m back; a sees that it is free, and b
  // takes it before a can.
  lemma TakeAssertReached(s0: System, l: TaskId, a: TaskId, b: TaskId, m: MutexId)
    requires Initial(s0) && l in s0.tasks && a in s0.tasks && b in s0.tasks && l != a && l != b && a != b
    requires m in s0.mutexes
    requires s0.tasks[l].priority < s0.tasks[a].priority == s0.tasks[b].priority
    ensures exists s :: Leads(s0, s, true) && MayStep(s, Try(a), true) && !TakeAssertHolds(s, a)
  {
    var s1 := FirstSleep(s0, true);
    AsleepIsQuiet(s0, s1);
    hide Initial, Leads, Quiet;
    TakesAsleep(s0, s1, l, m, true);
    var s2 := Took(s1, l, m);
    WakesAndBlocks(s0, s2, a, m, 0, [a], true);
    FreedAndTaken(s0, Waits(s2, a, m, [a]), l, a, b, m);
  }

  lemma FreedAndTaken(s0: System, s: System, l: TaskId, a: TaskId, b: TaskId, m: MutexId)
    requires Initial(s0) && Leads(s0, s, true) && l in s.tasks && a in s.tasks && b in s.tasks
    requires l != a && l != b && a != b && m in s.mutexes && s.mutexes[m] == Mutex(0, Some(l), [a])
    requires s.tasks[l].held == 1 && s.tasks[l].pc == Sleeping && s.tasks[a].pc == Waiting(m, true)
    requires Quiet(s) && s.tasks[b].pc == Sleeping
    requires s.tasks[l].base <= s.tasks[l].priority == s.tasks[a].priority == s.tasks[b].priority
    ensures exists s' :: Leads(s0, s', true) && MayStep(s', Try(a), true) && !TakeAssertHolds(s', a)
  {
    hide Initial, Leads;
    TimesOut(s0, s, a, m, [], true);
    var s1 := TimedOut(s, a, m, [], Expired(m, false, true));
    WakeStep(s0, s1, l, true);
    var s2 := Goto(s1, l, Outside);
    GiveStep(s0, s2, l, m, true);
    var s3 := GivenBack(s2, l, m);
    LookAgainStep(s0, s3, a, m, true);
    var s4 := Goto(s3, a, Trying(m, false, true));
    WakeStep(s0, s4, b, true);
    var s5 := Goto(s4, b, Outside);
    TakesFree(s0, s5, b, m, true);
    assert MayStep(Take(s5, b, m), Try(a), true);
  }

  // In every run the assertion fails exactly when the task's wait timed out with its block time used
  // up, it then saw the mutex free, and the mutex has been taken since.
  ghost predicate LookedAgain(run: seq<System>, steps: seq<Step>, t: TaskId, m: MutexId, j: nat, n: nat)
    requires |run| == |steps| + 1 && n < |run|
  {
    && j < n && steps[j] == LookAgain(t) && t in run[j].tasks && run[j].tasks[t].pc == Expired(m, false, true)
    && m in run[j].mutexes && run[j].mutexes[m].count > 0
    && forall i :: j < i <= n ==> t in run[i].tasks && run[i].tasks[t].pc == Trying(m, false, true)
  }

  lemma TakeAssertExactly(run: seq<System>, steps: seq<Step>, n: nat, t: TaskId)
    requires IsRun(run, steps) && n < |run| && Initial(run[0])
    ensures !TakeAssertHolds(run[n], t) <==>
      exists m, j: nat :: LookedAgain(run, steps, t, m, j, n) && m in run[n].mutexes && run[n].mutexes[m].count == 0
  {
    LedgerBalances(run, steps, n);
    LedgerLists(run[n]);
    hide IsRun, Initial, Ledger;
    if t in run[n].tasks && run[n].tasks[t].pc.Trying? && !run[n].tasks[t].pc.wait && run[n].tasks[t].pc.inherited {
      SawItFree(run, steps, n, t, run[n].tasks[t].pc.m);
    }
  }

  lemma {:induction false} SawItFree(run: seq<System>, steps: seq<Step>, n: nat, t: TaskId, m: MutexId)
    requires IsRun(run, steps) && n < |run| && Initial(run[0])
    requires t in run[n].tasks && run[n].tasks[t].pc == Trying(m, false, true)
    ensures exists j: nat :: LookedAgain(run, steps, t, m, j, n)
  {
    hide Enabled, Apply, MayApply, Closed;
    if n > 0 {
      StepsIntoTrying(run[n - 1], steps[n - 1], t, m);
      if run[n - 1].tasks[t].pc == Trying(m, false, true) {
        SawItFree(run, steps, n - 1, t, m);
        var j: nat :| LookedAgain(run, steps, t, m, j, n - 1);
        assert LookedAgain(run, steps, t, m, j, n);
      } else {
        assert LookedAgain(run, steps, t, m, n - 1, n);
      }
    }
  }

  lemma StepsIntoTrying(s: System, step: Step, t: TaskId, m: MutexId)
    requires Closed(s) && Enabled(s, step) && MayApply(s, step)
    requires t in Apply(s, step).tasks && Apply(s, step).tasks[t].pc == Trying(m, false, true)
    ensures t in s.tasks
    ensures s.tasks[t].pc == Trying(m, false, true)
         || (step == LookAgain(t) && s.tasks[t].pc == Expired(m, false, true)
             && m in s.mutexes && s.mutexes[m].count > 0)
  {
    hide PlaceFor, Find, Cut;
  }

  // So it never fails in a run in which no wait for a mutex uses up its block time, as with portMAX_DELAY.
  lemma TakeAssertWithoutTimeOuts(run: seq<System>, steps: seq<Step>, n: nat, t: TaskId)
    requires IsRun(run, steps) && n < |run| && Initial(run[0])
    requires forall i :: 0 <= i < n ==> steps[i] != Expire(t, true)
    ensures TakeAssertHolds(run[n], t)
  {
    TakeAssertExactly(run, steps, n, t);
    hide IsRun, Initial, TakeAssertHolds;
    if !TakeAssertHolds(run[n], t) {
      var m, j: nat :| LookedAgain(run, steps, t, m, j, n);
      UsedUp(run, steps, j, t, m);
    }
  }

  lemma {:induction false} UsedUp(run: seq<System>, steps: seq<Step>, n: nat, t: TaskId, m: MutexId)
    requires IsRun(run, steps) && n < |run| && Initial(run[0])
    requires t in run[n].tasks && run[n].tasks[t].pc == Expired(m, false, true)
    ensures exists i :: 0 <= i < n && steps[i] == Expire(t, true)
  {
    hide Enabled, Apply, MayApply, Closed, Initial;
    if n == 0 {
      InitialEntries(run[0]);
    } else {
      StepAt(run, steps, n - 1);
      StepsIntoExpired(run[n - 1], steps[n - 1], t, m);
      if steps[n - 1] != Expire(t, true) { UsedUp(run, steps, n - 1, t, m); }
    }
  }

  lemma StepsIntoExpired(s: System, step: Step, t: TaskId, m: MutexId)
    requires Closed(s) && Enabled(s, step) && MayApply(s, step)
    requires t in Apply(s, step).tasks && Apply(s, step).tasks[t].pc == Expired(m, false, true)
    ensures t in s.tasks && (s.tasks[t].pc == Expired(m, false, true) || step == Expire(t, true))
  {
    hide PlaceFor, Find, Cut;
  }

  // ----- The assertion that a timed-out waiter is not the holder -----

  // configASSERT( pxTCB != pxCurrentTCB ) in vTaskPriorityDisinheritAfterTimeout, reached only by a
  // holder of one mutex whose priority is to change
  predicate UndoAssertFails(s: System, t: TaskId)
    requires Closed(s)
  {
    t in s.tasks && s.tasks[t].pc.Disinheriting? && s.mutexes[s.tasks[t].pc.m].holder == Some(t) && s.tasks[t].held == 1
      && s.tasks[t].priority != DisinheritTo(s.tasks[t].base, HighestWaiting(s.mutexes[s.tasks[t].pc.m], s.tasks))
  }

  // Task t takes m and n; w, above it, waits for m and times out, which leaves t raised because it
  // holds two mutexes; t gives n, then asks for m, which it holds, and times out.
  lemma UndoAssertReached(s0: System, t: TaskId, w: TaskId, m: MutexId, n: MutexId)
    requires Initial(s0) && t in s0.tasks && w in s0.tasks && m in s0.mutexes && n in s0.mutexes && m != n
    requires s0.tasks[t].priority < s0.tasks[w].priority
    ensures exists s :: Leads(s0, s, false) && Closed(s) && UndoAssertFails(s, t)
  {
    var s1 := FirstSleep(s0, false);
    AsleepIsQuiet(s0, s1);
    hide Initial, Leads, Closed, Quiet;
    TakesAsleep(s0, s1, t, m, false);
    var s2 := Took(s1, t, m);
    TakesAsleep(s0, s2, t, n, false);
    var s3 := Took(s2, t, n);
    WakesAndBlocks(s0, s3, w, m, 0, [w], false);
    StaysRaised(s0, Waits(s3, w, m, [w]), t, w, m, n);
  }

  lemma StaysRaised(s0: System, s: System, t: TaskId, w: TaskId, m: MutexId, n: MutexId)
    requires Initial(s0) && Leads(s0, s, false) && t in s.tasks && w in s.tasks && t != w
    requires m in s.mutexes && n in s.mutexes && m != n
    requires s.mutexes[m] == Mutex(0, Some(t), [w]) && s.mutexes[n] == Mutex(0, Some(t), [])
    requires s.tasks[t].held == 2 && s.tasks[t].pc == Sleeping && s.tasks[w].pc == Waiting(m, true) && Quiet(s)
    requires s.tasks[t].base < s.tasks[t].priority == s.tasks[t].eventPriority == s.tasks[w].priority
    ensures exists s' :: Leads(s0, s', false) && Closed(s') && UndoAssertFails(s', t)
  {
    hide Initial, Leads, Closed;
    TimesOut(s0, s, w, m, [], false);
    var s1 := TimedOut(s, w, m, [], Expired(m, false, true));
    LookAgainStep(s0, s1, w, m, false);
    var s2 := Goto(s1, w, Disinheriting(m));
    UndoStep(s0, s2, w, m, t);
    var s3 := Goto(s2, w, Outside);
    WakeStep(s0, s3, t, false);
    var s4 := Goto(s3, t, Outside);
    GiveStep(s0, s4, t, n, false);
    AsksForItsOwn(s0, GivenBack(s4, t, n), t, w, m);
  }

  lemma AsksForItsOwn(s0: System, s: System, t: TaskId, w: TaskId, m: MutexId)
    requires Initial(s0) && Leads(s0, s, false) && t in s.tasks && w in s.tasks && t != w
    requires m in s.mutexes && s.mutexes[m] == Mutex(0, Some(t), [])
    requires s.tasks[t].held == 1 && s.tasks[t].pc.Outside? && s.tasks[w].pc.Outside?
    requires s.tasks[t].base < s.tasks[t].priority == s.tasks[t].eventPriority == s.tasks[w].priority
    requires forall u :: u in s.tasks && u != t && u != w ==> s.tasks[u].pc.Sleeping? || s.tasks[u].pc.Waiting?
    ensures exists s' :: Leads(s0, s', false) && Closed(s') && UndoAssertFails(s', t)
  {
    hide Initial, Leads, Closed;
    Blocks(s0, s, t, m, 0, [t], false);
    var s1 := Waits(s, t, m, [t]);
    TimesOut(s0, s1, t, m, [], false);
    var s2 := TimedOut(s1, t, m, [], Expired(m, false, true));
    LookAgainStep(s0, s2, t, m, false);
    var s3 := Goto(s2, t, Disinheriting(m));
    LeadsToLedger(s0, s3, false);
    assert UndoAssertFails(s3, t);
  }

  // A holder of two mutexes keeps its priority.
  lemma UndoStep(s0: System, s: System, w: TaskId, m: MutexId, h: TaskId)
    requires Initial(s0) && Leads(s0, s, false) && Runs(s, w) && s.tasks[w].pc == Disinheriting(m) && m in s.mutexes
    requires s.mutexes[m].holder == Some(h) && h in s.tasks && h != w && s.tasks[h].held == 2
    ensures Leads(s0, Goto(s, w, Outside), false)
  {
    hide Initial, Leads;
    LeadsToLedger(s0, s, false);
    Onwards(s0, s, UndoInheritance(w), false);
    assert s.tasks[h := s.tasks[h]] == s.tasks;
    assert DisinheritAfterTimeout(s.tasks[h], HighestWaiting(s.mutexes[m], s.tasks)) == s.tasks[h];
  }

  // The call of t on mutex m that began with step j and has not ended at n.
  ghost predicate CalledOn(run: seq<System>, steps: seq<Step>, t: TaskId, m: MutexId, j: nat, n: nat)
    requires |run| == |steps| + 1 && n < |run|
  {
    && j < n && steps[j].Call? && steps[j].t == t && steps[j].m == m
    && forall i :: j < i <= n ==> t in run[i].tasks && InCall(run[i].tasks[t].pc, m)
  }

  predicate InCall(pc: Pc, m: MutexId) { !pc.Outside? && !pc.Sleeping? && pc.m == m }

  // In every run the assertion fails exactly when the task called xQueueSemaphoreTake on a mutex it
  // held itself, and now holds only that one at a priority other than that of its base and waiters.
  lemma UndoAssertExactly(run: seq<System>, steps: seq<Step>, n: nat, t: TaskId, m: MutexId)
    requires IsRun(run, steps) && n < |run| && Initial(run[0])
    requires t in run[n].tasks && run[n].tasks[t].pc == Disinheriting(m)
    ensures Closed(run[n]) && m in run[n].mutexes
    ensures UndoAssertFails(run[n], t) <==>
      (&& run[n].tasks[t].held == 1
       && run[n].tasks[t].priority !=
            DisinheritTo(run[n].tasks[t].base, HighestWaiting(run[n].mutexes[m], run[n].tasks))
       && exists j: nat :: CalledOn(run, steps, t, m, j, n) && HeldAt(run[j], t, m))
  {
    LedgerBalances(run, steps, n);
    LedgerLists(run[n]);
    hide IsRun, Initial, Ledger, DisinheritTo, HighestWaiting;
    CallBegan(run, steps, n, t, m);
    forall j: nat | CalledOn(run, steps, t, m, j, n) ensures HeldAt(run[j], t, m) <==> HeldAt(run[n], t, m) {
      HeldSinceCall(run, steps, j, n, t, m);
    }
  }

  predicate HeldAt(s: System, t: TaskId, m: MutexId) { m in s.mutexes && s.mutexes[m].holder == Some(t) }

  lemma {:induction false} CallBegan(run: seq<System>, steps: seq<Step>, n: nat, t: TaskId, m: MutexId)
    requires IsRun(run, steps) && n < |run| && Initial(run[0]) && t in run[n].tasks && InCall(run[n].tasks[t].pc, m)
    ensures exists j: nat :: CalledOn(run, steps, t, m, j, n)
  {
    hide Enabled, Apply, MayApply, Closed, ListsOk, Ledger, Initial;
    if n == 0 {
      InitialEntries(run[0]);
    } else {
      LedgerBalances(run, steps, n - 1);
      LedgerLists(run[n - 1]);
      StepAt(run, steps, n - 1);
      StepsIntoCall(run[n - 1], steps[n - 1], t, m);
      if InCall(run[n - 1].tasks[t].pc, m) {
        CallBegan(run, steps, n - 1, t, m);
        var j: nat :| CalledOn(run, steps, t, m, j, n - 1);
        assert CalledOn(run, steps, t, m, j, n);
      } else {
        assert CalledOn(run, steps, t, m, n - 1, n);
      }
    }
  }

  lemma StepsIntoCall(s: System, step: Step, t: TaskId, m: MutexId)
    requires Closed(s) && ListsOk(s) && Enabled(s, step) && MayApply(s, step)
    requires t in Apply(s, step).tasks && InCall(Apply(s, step).tasks[t].pc, m)
    ensures t in s.tasks && (InCall(s.tasks[t].pc, m) || (step.Call? && step.t == t && step.m == m))
  {
    if step.Give? && s.mutexes[step.m].waiters != [] {
      ListAt(s, step.m);
      assert s.mutexes[step.m].waiters[0] in s.mutexes[step.m].waiters;
    }
    hide ListsOk, PlaceFor, Find, Cut, Inherit, Inherits, Disinherit, DisinheritAfterTimeout, SetPriority,
      HighestWaiting;
  }

  lemma {:induction false} HeldSinceCall(run: seq<System>, steps: seq<Step>, j: nat, n: nat, t: TaskId, m: MutexId)
    requires IsRun(run, steps) && n < |run| && Initial(run[0]) && CalledOn(run, steps, t, m, j, n)
    ensures HeldAt(run[j], t, m) <==> HeldAt(run[n], t, m)
    decreases n
  {
    hide Enabled, Apply, MayApply, Closed, Initial, Ledger;
    LedgerBalances(run, steps, n - 1);
    StepAt(run, steps, n - 1);
    if n == j + 1 {
      CallMovesNoHolder(run[j], steps[j], t, m);
    } else {
      HeldSinceCall(run, steps, j, n - 1, t, m);
      HeldWhileInCall(run[n - 1], steps[n - 1], t, m);
    }
  }

  lemma CallMovesNoHolder(s: System, step: Step, t: TaskId, m: MutexId)
    requires Closed(s) && Enabled(s, step) && MayApply(s, step) && step.Call?
    ensures HeldAt(s, t, m) <==> HeldAt(Apply(s, step), t, m)
  {
    hide Closed;
  }

  // Only a successful take, and a give, change who holds a mutex.
  lemma HoldersChange(s: System, step: Step, m: MutexId)
    requires Closed(s) && Enabled(s, step) && MayApply(s, step) && m in s.mutexes
    ensures var s' := Apply(s, step);
      && m in s'.mutexes
      && (s'.mutexes[m].holder != s.mutexes[m].holder ==>
            || (step.Give? && step.m == m && s.mutexes[m].count == 0)
            || (step.Try? && s.tasks[step.t].pc.m == m && s.mutexes[m].count > 0 && s'.mutexes[m].holder == Some(step.t)
                && s'.tasks[step.t].pc.Outside?))
  {
    hide PlaceFor, Find, Cut, Inherit, Inherits, Disinherit, DisinheritAfterTimeout, SetPriority, HighestWaiting,
      Closed;
    match step {
      case Try(t) => hide Join, Release, UndoFor;
      case Block(t) => hide Take, Release, UndoFor;
      case Give(t, n) => hide Take, Join, UndoFor;
      case UndoInheritance(t) => hide Take, Join, Release;
      case _ => hide Take, Join, Release, UndoFor;
    }
  }

  lemma HeldWhileInCall(s: System, step: Step, t: TaskId, m: MutexId)
    requires Ledger(s) && Closed(s) && Enabled(s, step) && MayApply(s, step) && t in s.tasks && InCall(s.tasks[t].pc, m)
    requires t in Apply(s, step).tasks && InCall(Apply(s, step).tasks[t].pc, m)
    ensures HeldAt(s, t, m) <==> HeldAt(Apply(s, step), t, m)
  {
    FreeOrHeld(s);
    InCallNames(s, t, m);
    HoldersChange(s, step, m);
    hide Ledger, Closed, Apply;
  }

  lemma InCallNames(s: System, t: TaskId, m: MutexId)
    requires Closed(s) && t in s.tasks && InCall(s.tasks[t].pc, m)
    ensures m in s.mutexes
  {
  }
}
