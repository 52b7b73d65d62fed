// The mutex ledger: counts, holders and priorities agree in every reachable state.
module MutexLedger {
  import opened ListRing
  import opened MutexProtocol

  ghost function HeldBy(mutexes: map<MutexId, Mutex>, t: TaskId): set<MutexId> {
    set m | m in mutexes && mutexes[m].holder == Some(t)
  }

  // A mutex is taken (its count is zero) exactly while it has a holder.
  ghost predicate CountsOk(s: System) {
    forall m :: m in s.mutexes ==> s.mutexes[m].count <= 1 && (s.mutexes[m].count == 0 <==> s.mutexes[m].holder.Some?)
  }

  // uxMutexesHeld is the number of mutexes held.
  ghost predicate HeldOk(s: System) {
    forall t :: t in s.tasks ==> s.tasks[t].held == |HeldBy(s.mutexes, t)|
  }

  // A task that holds no mutex has its own priority.
  ghost predicate BaseOk(s: System) {
    forall t :: t in s.tasks && s.tasks[t].held == 0 ==> s.tasks[t].priority == s.tasks[t].base
  }

  predicate WaitsFor(c: Tcb, m: MutexId) { c.pc.Waiting? && c.pc.m == m }

  // The tasks on a mutex's event list are those waiting for it, each once.
  ghost predicate ListsOk(s: System) {
    && (forall m :: m in s.mutexes ==> NoDup(s.mutexes[m].waiters))
    && (forall m, t :: m in s.mutexes ==> (t in s.mutexes[m].waiters <==> t in s.tasks && WaitsFor(s.tasks[t], m)))
  }

  ghost predicate Ledger(s: System) { Closed(s) && CountsOk(s) && HeldOk(s) && BaseOk(s) && ListsOk(s) }

  lemma HolderHolds(s: System, m: MutexId)
    requires Ledger(s) && m in s.mutexes && s.mutexes[m].holder.Some?
    ensures s.mutexes[m].holder.value in s.tasks && s.tasks[s.mutexes[m].holder.value].held > 0
  {
    assert m in HeldBy(s.mutexes, s.mutexes[m].holder.value);
  }

  // ----- What keeps each part -----

  ghost predicate SameNames(s: System, after: System) {
    s.tasks.Keys == after.tasks.Keys && s.mutexes.Keys == after.mutexes.Keys
  }

  lemma HeldUnchanged(s: System, after: System)
    requires HeldOk(s) && SameNames(s, after)
    requires forall m :: m in s.mutexes ==> s.mutexes[m].holder == after.mutexes[m].holder
    requires forall t :: t in s.tasks ==> s.tasks[t].held == after.tasks[t].held
    ensures HeldOk(after)
  {
    forall t | t in after.tasks ensures HeldBy(after.mutexes, t) == HeldBy(s.mutexes, t) {}
  }

  // How the mutexes held by u change when mutex m passes from nobody to t, or back.
  lemma SetMoves(was: map<MutexId, Mutex>, now: map<MutexId, Mutex>, t: TaskId, m: MutexId, u: TaskId)
    requires was.Keys == now.Keys && m in was && was[m].holder == None && now[m].holder == Some(t)
    requires forall n :: n in was && n != m ==> was[n].holder == now[n].holder
    ensures |HeldBy(now, u)| == |HeldBy(was, u)| + if u == t then 1 else 0
  {
    var a, b := HeldBy(was, u), HeldBy(now, u);
    assert m !in a;
    if u == t {
      assert b == a + {m};
    } else {
      assert b == a;
    }
  }

  // Mutex m passes to or from task t.
  lemma HeldMoves(s: System, after: System, t: TaskId, m: MutexId)
    requires HeldOk(s) && SameNames(s, after) && t in s.tasks && m in s.mutexes
    requires forall n :: n in s.mutexes && n != m ==> s.mutexes[n].holder == after.mutexes[n].holder
    requires forall u :: u in s.tasks && u != t ==> s.tasks[u].held == after.tasks[u].held
    requires || (s.mutexes[m].holder == None && after.mutexes[m].holder == Some(t)
                 && after.tasks[t].held == s.tasks[t].held + 1)
             || (s.mutexes[m].holder == Some(t) && after.mutexes[m].holder == None
                 && after.tasks[t].held == s.tasks[t].held - 1)
    ensures HeldOk(after)
  {
    hide HeldBy;
    forall u | u in after.tasks ensures after.tasks[u].held == |HeldBy(after.mutexes, u)| {
      if after.mutexes[m].holder == None { SetMoves(after.mutexes, s.mutexes, t, m, u); }
      else { SetMoves(s.mutexes, after.mutexes, t, m, u); }
    }
  }

  ghost predicate SameWait(a: Tcb, b: Tcb) {
    (a.pc.Waiting? <==> b.pc.Waiting?) && (a.pc.Waiting? ==> a.pc.m == b.pc.m)
  }

  lemma ListsUnchanged(s: System, after: System)
    requires ListsOk(s) && SameNames(s, after)
    requires forall m :: m in s.mutexes ==> s.mutexes[m].waiters == after.mutexes[m].waiters
    requires forall t :: t in s.tasks ==> SameWait(s.tasks[t], after.tasks[t])
    ensures ListsOk(after)
  {
    forall m, t | m in after.mutexes
      ensures t in after.mutexes[m].waiters <==> t in after.tasks && WaitsFor(after.tasks[t], m)
    { }
  }

  // Task t joins or leaves the list of mutex m.
  lemma ListsMove(s: System, after: System, t: TaskId, m: MutexId)
    requires ListsOk(s) && SameNames(s, after) && t in s.tasks && m in s.mutexes
    requires forall n :: n in s.mutexes && n != m ==> s.mutexes[n].waiters == after.mutexes[n].waiters
    requires forall u :: u in s.tasks && u != t ==> SameWait(s.tasks[u], after.tasks[u])
    requires NoDup(after.mutexes[m].waiters)
    requires forall u :: u != t ==> (u in after.mutexes[m].waiters <==> u in s.mutexes[m].waiters)
    requires (s.tasks[t].pc.Waiting? ==> s.tasks[t].pc.m == m)
    requires (after.tasks[t].pc.Waiting? ==> after.tasks[t].pc.m == m)
    requires after.tasks[t].pc.Waiting? <==> t in after.mutexes[m].waiters
    ensures ListsOk(after)
  {
    forall n, u | n in after.mutexes
      ensures u in after.mutexes[n].waiters <==> u in after.tasks && WaitsFor(after.tasks[u], n)
    {
      assert u in s.mutexes[n].waiters <==> u in s.tasks && WaitsFor(s.tasks[u], n);
    }
  }

  // A pc that is no longer Waiting still names a mutex that exists.
  ghost predicate PcOk(c: Tcb, s: System) { c.pc.Outside? || c.pc.Sleeping? || c.pc.m in s.mutexes }

  lemma ClosedKept(s: System, after: System)
    requires Closed(s) && ListsOk(after) && SameNames(s, after)
    requires forall t :: t in s.tasks ==> after.tasks[t].pc == s.tasks[t].pc || PcOk(after.tasks[t], s)
    requires forall m :: m in s.mutexes && after.mutexes[m].holder.Some? ==>
      after.mutexes[m].holder == s.mutexes[m].holder || after.mutexes[m].holder.value in s.tasks
    ensures Closed(after)
  {
  }

  // ----- Each step -----

  lemma GotoKeeps(s: System, t: TaskId, pc: Pc)
    requires Ledger(s) && t in s.tasks && !s.tasks[t].pc.Waiting? && !pc.Waiting?
    requires pc.Outside? || pc.Sleeping? || pc.m in s.mutexes
    ensures Ledger(Goto(s, t, pc))
  {
    hide HeldOk, ListsOk, Closed;
    var after := Goto(s, t, pc);
    HeldUnchanged(s, after);
    ListsUnchanged(s, after);
    ClosedKept(s, after);
  }

  lemma TakeKeeps(s: System, t: TaskId, m: MutexId)
    requires Ledger(s) && t in s.tasks && m in s.mutexes && !s.tasks[t].pc.Waiting? && s.mutexes[m].count > 0
    ensures Ledger(Take(s, t, m))
  {
    hide HeldOk, ListsOk, Closed;
    var after := Take(s, t, m);
    HeldMoves(s, after, t, m);
    ListsUnchanged(s, after);
    ClosedKept(s, after);
  }

  lemma HeadFacts(waiters: seq<TaskId>)
    requires NoDup(waiters) && waiters != []
    ensures NoDup(waiters[1..]) && forall u :: u in waiters[1..] <==> u in waiters && u != waiters[0]
  {
    assert waiters == [waiters[0]] + waiters[1..];
  }

  lemma ListAt(s: System, m: MutexId)
    requires ListsOk(s) && m in s.mutexes
    ensures NoDup(s.mutexes[m].waiters)
    ensures forall t :: t in s.mutexes[m].waiters <==> t in s.tasks && WaitsFor(s.tasks[t], m)
  {
  }

  lemma ReleaseKeeps(s: System, t: TaskId, m: MutexId)
    requires Ledger(s) && t in s.tasks && m in s.mutexes && !s.tasks[t].pc.Waiting? && s.mutexes[m].holder == Some(t)
    ensures s.tasks[t].held > 0 && Ledger(Release(s, t, m))
  {
    hide HeldOk, ListsOk, Closed;
    HolderHolds(s, m);
    ListAt(s, m);
    var after := Release(s, t, m);
    HeldMoves(s, after, t, m);
    var waiters := s.mutexes[m].waiters;
    if waiters == [] {
      ListsUnchanged(s, after);
    } else {
      assert waiters[0] in waiters;
      HeadFacts(waiters);
      ListsMove(s, after, waiters[0], m);
    }
    ClosedKept(s, after);
  }

  // What joining changes: the list of m, the caller's pc and the holder's priority.
  lemma JoinShape(s: System, t: TaskId, m: MutexId) returns (k: nat)
    requires Ledger(s) && t in s.tasks && m in s.mutexes && !s.tasks[t].pc.Waiting? && s.mutexes[m].holder.Some?
    ensures s.mutexes[m].holder.value in s.tasks
    ensures var after, waiters, h := Join(s, t, m), s.mutexes[m].waiters, s.mutexes[m].holder.value;
      && SameNames(s, after) && k <= |waiters|
      && after.mutexes == s.mutexes[m := s.mutexes[m].(waiters := waiters[..k] + [t] + waiters[k..])]
      && after.tasks[t].pc.Waiting? && after.tasks[t].pc.m == m
      && (forall u :: u in s.tasks && u != t && u != h ==> after.tasks[u] == s.tasks[u])
      && (h != t ==> after.tasks[h] == Inherit(s.tasks[h], s.tasks[t].priority))
      && after.tasks[t] == s.tasks[t].(pc := after.tasks[t].pc)
      && (forall i :: 0 <= i < k ==> after.tasks[waiters[i]].eventPriority >= s.tasks[t].eventPriority)
      && (k < |waiters| ==> after.tasks[waiters[k]].eventPriority < s.tasks[t].eventPriority)
  {
    hide HeldOk, CountsOk, BaseOk, ListsOk;
    HolderHolds(s, m);
    ListAt(s, m);
    var h, waiters := s.mutexes[m].holder.value, s.mutexes[m].waiters;
    var tasks := s.tasks[h := Inherit(s.tasks[h], s.tasks[t].priority)];
    k := PlaceFor(waiters, tasks, tasks[t].eventPriority);
    assert t !in waiters;
    assert forall i :: 0 <= i < |waiters| ==> waiters[i] in waiters;
  }

  lemma JoinKeeps(s: System, t: TaskId, m: MutexId)
    requires Ledger(s) && t in s.tasks && m in s.mutexes && !s.tasks[t].pc.Waiting? && s.mutexes[m].count == 0
    ensures Ledger(Join(s, t, m))
  {
    hide HeldOk, ListsOk, Closed, Join, NoDup;
    HolderHolds(s, m);
    ListAt(s, m);
    var k := JoinShape(s, t, m);
    var after := Join(s, t, m);
    InsertFacts(s.mutexes[m].waiters, k, t);
    JoinedRest(s, after, t, m);
    ListsMove(s, after, t, m);
    ClosedKept(s, after);
  }

  // Joining a list leaves holders, counts and what each task holds.
  lemma JoinedRest(s: System, after: System, t: TaskId, m: MutexId)
    requires HeldOk(s) && CountsOk(s) && BaseOk(s) && m in s.mutexes && after.tasks.Keys == s.tasks.Keys
    requires m in after.mutexes && after.mutexes == s.mutexes[m := s.mutexes[m].(waiters := after.mutexes[m].waiters)]
    requires forall u :: u in s.tasks ==>
      after.tasks[u].held == s.tasks[u].held && after.tasks[u].base == s.tasks[u].base
    requires forall u :: u in s.tasks && s.tasks[u].held == 0 ==> after.tasks[u].priority == s.tasks[u].priority
    ensures HeldOk(after) && CountsOk(after) && BaseOk(after)
  {
    hide HeldOk, HeldBy;
    HeldUnchanged(s, after);
  }

  lemma TimeOutKeeps(s: System, t: TaskId)
    requires Ledger(s) && Enabled(s, TimeOut(t))
    ensures Ledger(Apply(s, TimeOut(t)))
  {
    hide HeldOk, ListsOk, Closed;
    var m, after := s.tasks[t].pc.m, Apply(s, TimeOut(t));
    ListAt(s, m);
    RemoveFacts(Ring(s.mutexes[m].waiters, 0), t);
    HeldUnchanged(s, after);
    ListsMove(s, after, t, m);
    ClosedKept(s, after);
  }

  lemma UndoKeeps(s: System, t: TaskId, m: MutexId)
    requires Ledger(s) && t in s.tasks && m in s.mutexes && !s.tasks[t].pc.Waiting?
    ensures Ledger(UndoFor(s, t, m))
  {
    hide HeldOk, ListsOk, Closed;
    if s.mutexes[m].holder.Some? { HolderHolds(s, m); }
    var after := UndoFor(s, t, m);
    HeldUnchanged(s, after);
    ListsUnchanged(s, after);
    ClosedKept(s, after);
  }

  lemma ReprioritiseKeeps(s: System, u: TaskId, p: nat)
    requires Ledger(s) && u in s.tasks
    ensures Ledger(s.(tasks := s.tasks[u := SetPriority(s.tasks[u], p)]))
  {
    hide HeldOk, ListsOk, Closed;
    var after := s.(tasks := s.tasks[u := SetPriority(s.tasks[u], p)]);
    HeldUnchanged(s, after);
    ListsUnchanged(s, after);
    ClosedKept(s, after);
  }

  // The assertion made when a mutex is given never fails, and every step keeps the ledger.
  lemma ApplyKeeps(s: System, step: Step)
    requires Ledger(s) && Enabled(s, step)
    ensures step.Give? ==> GiveAssertHolds(s, step.t, step.m)
    ensures Ledger(Apply(s, step))
  {
    match step
    case Call(t, m, wait) => GotoKeeps(s, t, Trying(m, wait, false));
    case Try(t) =>
      var pc := s.tasks[t].pc;
      if s.mutexes[pc.m].count > 0 { TakeKeeps(s, t, pc.m); }
      else { GotoKeeps(s, t, if pc.wait then Wanting(pc.m, pc.inherited) else Outside); }
    case Block(t) =>
      var pc := s.tasks[t].pc;
      if s.mutexes[pc.m].count == 0 { JoinKeeps(s, t, pc.m); }
      else { GotoKeeps(s, t, Trying(pc.m, true, pc.inherited)); }
    case Expire(t, zeroed) => GotoKeeps(s, t, Expired(s.tasks[t].pc.m, !zeroed, s.tasks[t].pc.inherited));
    case LookAgain(t) =>
      var pc := s.tasks[t].pc;
      GotoKeeps(s, t, if s.mutexes[pc.m].count > 0 then Trying(pc.m, pc.wait, pc.inherited)
                      else if pc.inherited then Disinheriting(pc.m) else Outside);
    case UndoInheritance(t) => UndoKeeps(s, t, s.tasks[t].pc.m);
    case Give(t, m) => if s.mutexes[m].count == 0 { ReleaseKeeps(s, t, m); }
    case Sleep(t) => GotoKeeps(s, t, Sleeping);
    case Wake(t) => GotoKeeps(s, t, Outside);
    case TimeOut(t) => TimeOutKeeps(s, t);
    case Reprioritise(_, u, p) => ReprioritiseKeeps(s, u, p);
  }
}
