// Mutexes with priority inheritance: the tasks that take, give and wait for them, one step at a time.
module MutexProtocol {
  import opened ListRing

  type TaskId = nat
  type MutexId = nat

  datatype Option<T> = None | Some(value: T)

  // Where a task is in xQueueSemaphoreTake. wait: xTicksToWait is not zero; inherited: xInheritanceOccurred.
  datatype Pc =
    | Outside
    | Trying(m: MutexId, wait: bool, inherited: bool)    // about to enter the critical section
    | Wanting(m: MutexId, inherited: bool)               // found the mutex taken, about to suspend the scheduler
    | Waiting(m: MutexId, inherited: bool)               // on the mutex's event list
    | Expired(m: MutexId, wait: bool, inherited: bool)   // timed out, about to look once more
    | Disinheriting(m: MutexId)                          // about to undo the inheritance it caused
    | Sleeping                                           // delayed, or blocked on something else

  // eventPriority is the priority the event list item is sorted by.
  datatype Tcb = Tcb(priority: nat, base: nat, eventPriority: nat, held: nat, pc: Pc)

  datatype Mutex = Mutex(count: nat, holder: Option<TaskId>, waiters: seq<TaskId>)

  datatype System = System(tasks: map<TaskId, Tcb>, mutexes: map<MutexId, Mutex>)

  // ----- Changes of priority -----

  // xTaskPriorityInherit: what the holder becomes, and what is returned.
  function Inherit(h: Tcb, p: nat): Tcb { if h.priority < p then h.(priority := p, eventPriority := p) else h }
  predicate Inherits(h: Tcb, p: nat) { h.priority < p || h.base < p }

  // xTaskPriorityDisinherit
  function Disinherit(h: Tcb): Tcb
    requires h.held > 0
  {
    var left := h.(held := h.held - 1);
    if left.priority != left.base && left.held == 0 then left.(priority := left.base, eventPriority := left.base)
    else left
  }

  // The priority vTaskPriorityDisinheritAfterTimeout lowers a holder to.
  function DisinheritTo(base: nat, highestWaiting: nat): nat { if base < highestWaiting then highestWaiting else base }

  // vTaskPriorityDisinheritAfterTimeout
  function DisinheritAfterTimeout(h: Tcb, highestWaiting: nat): Tcb {
    var p := DisinheritTo(h.base, highestWaiting);
    if h.priority != p && h.held == 1 then h.(priority := p, eventPriority := p) else h
  }

  // vTaskPrioritySet
  function SetPriority(h: Tcb, p: nat): Tcb {
    if h.base == p then h
    else if h.base == h.priority then h.(priority := p, base := p, eventPriority := p)
    else h.(base := p, eventPriority := p)
  }

  // ----- Waiting lists -----

  // Where vListInsert puts an entry: after all of at least its priority, up to the first that is lower.
  function PlaceFor(waiters: seq<TaskId>, tasks: map<TaskId, Tcb>, p: nat): (k: nat)
    requires forall w :: w in waiters ==> w in tasks
    ensures k <= |waiters|
    ensures forall i :: 0 <= i < k ==> tasks[waiters[i]].eventPriority >= p
    ensures k < |waiters| ==> tasks[waiters[k]].eventPriority < p
  {
    if waiters == [] || tasks[waiters[0]].eventPriority < p then 0 else PlaceFor(waiters[1..], tasks, p) + 1
  }

  // prvGetDisinheritPriorityAfterTimeout
  function HighestWaiting(m: Mutex, tasks: map<TaskId, Tcb>): nat
    requires forall w :: w in m.waiters ==> w in tasks
  {
    if m.waiters == [] then 0 else tasks[m.waiters[0]].eventPriority
  }

  // ----- Steps -----

  datatype Step =
    | Call(t: TaskId, m: MutexId, wait: bool)
    | Try(t: TaskId)
    | Block(t: TaskId)                  // time left: inherit and wait, or try again
    | Expire(t: TaskId, zeroed: bool)   // no time left
    | LookAgain(t: TaskId)
    | UndoInheritance(t: TaskId)
    | Give(t: TaskId, m: MutexId)
    | Sleep(t: TaskId)
    | Wake(t: TaskId)                   // by the tick or an interrupt
    | TimeOut(t: TaskId)                // by the tick
    | Reprioritise(t: TaskId, u: TaskId, p: nat)

  // Every reference is to something that exists.
  ghost predicate Closed(s: System) {
    && (forall t :: t in s.tasks && !s.tasks[t].pc.Outside? && !s.tasks[t].pc.Sleeping? ==>
          s.tasks[t].pc.m in s.mutexes)
    && (forall m :: m in s.mutexes && s.mutexes[m].holder.Some? ==> s.mutexes[m].holder.value in s.tasks)
    && (forall m, w :: m in s.mutexes && w in s.mutexes[m].waiters ==> w in s.tasks)
  }

  predicate Ready(s: System, t: TaskId) { t in s.tasks && !s.tasks[t].pc.Waiting? && !s.tasks[t].pc.Sleeping? }

  predicate Enabled(s: System, step: Step) {
    match step
    case Call(t, m, _) => Ready(s, t) && s.tasks[t].pc.Outside? && m in s.mutexes
    case Try(t) => Ready(s, t) && s.tasks[t].pc.Trying?
    case Block(t) => Ready(s, t) && s.tasks[t].pc.Wanting?
    case Expire(t, _) => Ready(s, t) && s.tasks[t].pc.Wanting?
    case LookAgain(t) => Ready(s, t) && s.tasks[t].pc.Expired?
    case UndoInheritance(t) => Ready(s, t) && s.tasks[t].pc.Disinheriting?
    // A mutex that is held is given only by its holder.
    case Give(t, m) => Ready(s, t) && s.tasks[t].pc.Outside? && m in s.mutexes
                       && (s.mutexes[m].count > 0 || s.mutexes[m].holder == Some(t))
    case Sleep(t) => Ready(s, t) && s.tasks[t].pc.Outside?
    case Wake(t) => t in s.tasks && s.tasks[t].pc.Sleeping?
    case TimeOut(t) => t in s.tasks && s.tasks[t].pc.Waiting? && s.tasks[t].pc.m in s.mutexes
                       && t in s.mutexes[s.tasks[t].pc.m].waiters
    case Reprioritise(t, u, _) => Ready(s, t) && s.tasks[t].pc.Outside? && u in s.tasks
  }

  function Goto(s: System, t: TaskId, pc: Pc): System
    requires t in s.tasks
  {
    s.(tasks := s.tasks[t := s.tasks[t].(pc := pc)])
  }

  // The successful branch of the critical section.
  function Take(s: System, t: TaskId, m: MutexId): System
    requires t in s.tasks && m in s.mutexes
  {
    System(s.tasks[t := s.tasks[t].(held := s.tasks[t].held + 1, pc := Outside)],
           s.mutexes[m := s.mutexes[m].(count := 0, holder := Some(t))])
  }

  // Inherit, then join the event list.
  function Join(s: System, t: TaskId, m: MutexId): System
    requires Closed(s) && t in s.tasks && m in s.mutexes
  {
    var me, mutex := s.tasks[t], s.mutexes[m];
    var waiters := mutex.waiters;
    match mutex.holder
    case None =>
      var k := PlaceFor(waiters, s.tasks, me.eventPriority);
      System(s.tasks[t := me.(pc := Waiting(m, false))],
             s.mutexes[m := mutex.(waiters := waiters[..k] + [t] + waiters[k..])])
    case Some(h) =>
      var tasks := s.tasks[h := Inherit(s.tasks[h], me.priority)];
      var k := PlaceFor(waiters, tasks, tasks[t].eventPriority);
      System(tasks[t := tasks[t].(pc := Waiting(m, Inherits(s.tasks[h], me.priority)))],
             s.mutexes[m := mutex.(waiters := waiters[..k] + [t] + waiters[k..])])
  }

  // Giving a held mutex: disinherit, release, wake the head of the list.
  function Release(s: System, t: TaskId, m: MutexId): System
    requires Closed(s) && t in s.tasks && m in s.mutexes && s.tasks[t].held > 0
  {
    var mutex := s.mutexes[m];
    var tasks := s.tasks[t := Disinherit(s.tasks[t])];
    if mutex.waiters == [] then System(tasks, s.mutexes[m := Mutex(mutex.count + 1, None, [])])
    else
      var w := mutex.waiters[0];
      var inherited := if tasks[w].pc.Waiting? then tasks[w].pc.inherited else false;
      System(tasks[w := tasks[w].(pc := Trying(m, true, inherited))],
             s.mutexes[m := Mutex(mutex.count + 1, None, mutex.waiters[1..])])
  }

  function UndoFor(s: System, t: TaskId, m: MutexId): System
    requires Closed(s) && t in s.tasks && m in s.mutexes
  {
    match s.mutexes[m].holder
    case None => Goto(s, t, Outside)
    case Some(h) =>
      var tasks := s.tasks[h := DisinheritAfterTimeout(s.tasks[h], HighestWaiting(s.mutexes[m], s.tasks))];
      Goto(s.(tasks := tasks), t, Outside)
  }

  // configASSERT( pxTCB->uxMutexesHeld ) in xTaskPriorityDisinherit
  predicate GiveAssertHolds(s: System, t: TaskId, m: MutexId) {
    t in s.tasks && m in s.mutexes && (s.mutexes[m].count > 0 || s.tasks[t].held > 0)
  }

  function Apply(s: System, step: Step): System
    requires Closed(s) && Enabled(s, step)
    requires step.Give? ==> GiveAssertHolds(s, step.t, step.m)
  {
    match step
    case Call(t, m, wait) => Goto(s, t, Trying(m, wait, false))
    case Try(t) =>
      var pc := s.tasks[t].pc;
      if s.mutexes[pc.m].count > 0 then Take(s, t, pc.m)
      else Goto(s, t, if pc.wait then Wanting(pc.m, pc.inherited) else Outside)
    case Block(t) =>
      var pc := s.tasks[t].pc;
      if s.mutexes[pc.m].count == 0 then Join(s, t, pc.m) else Goto(s, t, Trying(pc.m, true, pc.inherited))
    case Expire(t, zeroed) => Goto(s, t, Expired(s.tasks[t].pc.m, !zeroed, s.tasks[t].pc.inherited))
    case LookAgain(t) =>
      var pc := s.tasks[t].pc;
      Goto(s, t, if s.mutexes[pc.m].count > 0 then Trying(pc.m, pc.wait, pc.inherited)
                 else if pc.inherited then Disinheriting(pc.m) else Outside)
    case UndoInheritance(t) => UndoFor(s, t, s.tasks[t].pc.m)
    // Giving a mutex that is not held finds the queue full and changes nothing.
    case Give(t, m) => if s.mutexes[m].count > 0 then s else Release(s, t, m)
    case Sleep(t) => Goto(s, t, Sleeping)
    case Wake(t) => Goto(s, t, Outside)
    case TimeOut(t) =>
      var pc := s.tasks[t].pc;
      var mutex := s.mutexes[pc.m];
      Goto(s.(mutexes := s.mutexes[pc.m := mutex.(waiters := Cut(mutex.waiters, Find(mutex.waiters, t)))]), t,
           Trying(pc.m, true, pc.inherited))
    case Reprioritise(_, u, p) => s.(tasks := s.tasks[u := SetPriority(s.tasks[u], p)])
  }
}
