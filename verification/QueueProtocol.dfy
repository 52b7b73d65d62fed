// Blocking on a queue: the event lists, the lock counts and the tasks and interrupts that share them.
module QueueProtocol {
  import opened ListRing

  type Task = nat

  const UNLOCKED: int := -1

  // One side of the queue's event state: who waits, who has been woken for it but has not yet
  // re-entered its critical section, and the lock count.
  datatype Side = Side(waiting: seq<Task>, woken: set<Task>, lock: int)

  // receivers wait for items, senders for spaces. receivers.lock is cTxLock, the posts made while
  // locked; senders.lock is cRxLock, the removals made while locked.
  datatype Queue = Queue(items: nat, length: nat, receivers: Side, senders: Side)

  function Spaces(q: Queue): int { q.length - q.items }

  // xTaskRemoveFromEventList, if the list is not empty.
  function WakeOne(s: Side): Side {
    if s.waiting == [] then s else s.(waiting := s.waiting[1..], woken := s.woken + {s.waiting[0]})
  }

  // Items have bytes where they are overwritten: only such items are replaced.
  function ItemsAfterPost(q: Queue, overwrite: bool): nat {
    if overwrite && q.items > 0 then q.items else q.items + 1
  }

  predicate CanPost(q: Queue, overwrite: bool) { q.items < q.length || overwrite }

  // The critical section of xQueueGenericSend when it succeeds.
  function Post(q: Queue, overwrite: bool): Queue {
    q.(items := ItemsAfterPost(q, overwrite), receivers := WakeOne(q.receivers))
  }

  // The critical section of xQueueReceive and xQueueSemaphoreTake when it succeeds.
  function Take(q: Queue): Queue
    requires q.items > 0
  {
    q.(items := q.items - 1, senders := WakeOne(q.senders))
  }

  // The critical section of xQueuePeek when it succeeds.
  function Peek(q: Queue): Queue { q.(receivers := WakeOne(q.receivers)) }

  // Touch one side from an interrupt: wake a task, or count if the queue is locked.
  function WakeOrCount(s: Side): Side {
    if s.lock == UNLOCKED then WakeOne(s) else s.(lock := s.lock + 1)
  }

  // xQueueGenericSendFromISR and xQueueGiveFromISR
  function PostFromIsr(q: Queue, overwrite: bool): Queue {
    if CanPost(q, overwrite) then q.(items := ItemsAfterPost(q, overwrite), receivers := WakeOrCount(q.receivers))
    else q
  }

  // xQueueReceiveFromISR
  function TakeFromIsr(q: Queue): Queue {
    if q.items > 0 then q.(items := q.items - 1, senders := WakeOrCount(q.senders)) else q
  }

  function LockSide(s: Side): Side { if s.lock == UNLOCKED then s.(lock := 0) else s }

  // prvLockQueue
  function Lock(q: Queue): Queue { q.(receivers := LockSide(q.receivers), senders := LockSide(q.senders)) }

  // One half of prvUnlockQueue: wake a task for each count while any waits, then unlock.
  function UnlockSide(s: Side): Side
    decreases s.lock
  {
    if s.lock > 0 && s.waiting != [] then UnlockSide(WakeOne(s).(lock := s.lock - 1)) else s.(lock := UNLOCKED)
  }

  // ----- The tasks -----

  datatype Request = Receive | PeekItem | Send(overwrite: bool)
  datatype Then = Sleep | Retry | Expire

  // Where a task is in the call it makes.
  datatype Pc =
    | Outside
    | Entering(r: Request)            // about to enter the critical section at the top of the loop
    | Leaving(r: Request)             // found the queue empty (full), about to suspend the scheduler
    | Locking(r: Request)             // scheduler suspended, about to lock the queue
    | Timing(r: Request)              // locked, about to check the time-out
    | Testing(r: Request)             // not expired, about to look at the queue again
    | Placing(r: Request)             // still empty (full), about to join the event list
    | UnlockingTx(r: Request, next: Then)
    | UnlockingRx(r: Request, next: Then)
    | Resuming(r: Request, next: Then) // unlocked, about to resume the scheduler
    | Asleep(r: Request)              // blocked, or woken and not yet run
    | Expired(r: Request)             // timed out, about to look at the queue once more

  // holder is the task that has suspended the scheduler for its call.
  datatype System = System(q: Queue, pc: map<Task, Pc>, holder: set<Task>)

  predicate Receives(r: Request) { !r.Send? }

  function SideOf(q: Queue, r: Request): Side { if Receives(r) then q.receivers else q.senders }
  function WithSide(q: Queue, r: Request, s: Side): Queue {
    if Receives(r) then q.(receivers := s) else q.(senders := s)
  }

  // prvIsQueueEmpty for a receiver, prvIsQueueFull for a sender.
  predicate MustWait(q: Queue, r: Request) { if Receives(r) then q.items == 0 else q.items == q.length }

  // The task re-enters its critical section: it no longer counts as woken.
  function Reentered(q: Queue, r: Request, t: Task): Queue {
    var s := SideOf(q, r);
    WithSide(q, r, s.(woken := s.woken - {t}))
  }

  datatype Step =
    | CallIn(t: Task, r: Request)
    | EnterCritical(t: Task, noWait: bool)    // noWait: xTicksToWait is zero
    | SuspendScheduler(t: Task)
    | LockQueue(t: Task)
    | CheckTime(t: Task, expired: bool)
    | TestAgain(t: Task)
    | JoinList(t: Task, place: nat)
    | UnlockTx(t: Task)
    | UnlockRx(t: Task)
    | ResumeScheduler(t: Task)
    | RunAgain(t: Task)
    | TestExpired(t: Task)
    | TimeOut(t: Task)
    | IsrPost(overwrite: bool)
    | IsrTake

  function PcOf(s: System, t: Task): Pc { if t in s.pc then s.pc[t] else Outside }

  // A task runs only while no other task has the scheduler suspended.
  predicate MayRun(s: System, t: Task) { s.holder <= {t} }

  predicate Enabled(s: System, step: Step) {
    match step
    case CallIn(t, r) => MayRun(s, t) && PcOf(s, t).Outside? && (r.Send? && r.overwrite ==> s.q.length == 1)
    case EnterCritical(t, noWait) => MayRun(s, t) && PcOf(s, t).Entering?
    case SuspendScheduler(t) => MayRun(s, t) && PcOf(s, t).Leaving?
    case LockQueue(t) => PcOf(s, t).Locking?
    case CheckTime(t, expired) => PcOf(s, t).Timing?
    case TestAgain(t) => PcOf(s, t).Testing?
    case JoinList(t, k) => PcOf(s, t).Placing? && k <= |SideOf(s.q, PcOf(s, t).r).waiting|
    case UnlockTx(t) => PcOf(s, t).UnlockingTx?
    case UnlockRx(t) => PcOf(s, t).UnlockingRx?
    case ResumeScheduler(t) => PcOf(s, t).Resuming?
    case RunAgain(t) => MayRun(s, t) && PcOf(s, t).Asleep? && t !in SideOf(s.q, PcOf(s, t).r).waiting
    case TestExpired(t) => MayRun(s, t) && PcOf(s, t).Expired?
    // The tick wakes a task only while the scheduler runs.
    case TimeOut(t) => s.holder == {} && PcOf(s, t).Asleep? && t in SideOf(s.q, PcOf(s, t).r).waiting
    // The lock counts are eight bits wide.
    case IsrPost(overwrite) => s.q.receivers.lock < 127 && (overwrite ==> s.q.length == 1)
    case IsrTake => s.q.senders.lock < 127
  }

  function Goto(s: System, t: Task, p: Pc): System { s.(pc := s.pc[t := p]) }

  // The critical section at the top of the loop of each call.
  function EnterResult(s: System, t: Task, r: Request, noWait: bool): System {
    var q := Reentered(s.q, r, t);
    match r
    case Receive =>
      if q.items > 0 then Goto(s.(q := Take(q)), t, Outside)
      else Goto(s.(q := q), t, if noWait then Outside else Leaving(r))
    case PeekItem =>
      if q.items > 0 then Goto(s.(q := Peek(q)), t, Outside)
      else Goto(s.(q := q), t, if noWait then Outside else Leaving(r))
    case Send(overwrite) =>
      if CanPost(q, overwrite) then Goto(s.(q := Post(q, overwrite)), t, Outside)
      else Goto(s.(q := q), t, if noWait then Outside else Leaving(r))
  }

  function Apply(s: System, step: Step): System
    requires Enabled(s, step)
  {
    match step
    case CallIn(t, r) => Goto(s, t, Entering(r))
    case EnterCritical(t, noWait) => EnterResult(s, t, PcOf(s, t).r, noWait)
    case SuspendScheduler(t) => Goto(s.(holder := {t}), t, Locking(PcOf(s, t).r))
    case LockQueue(t) => Goto(s.(q := Lock(s.q)), t, Timing(PcOf(s, t).r))
    case CheckTime(t, expired) =>
      Goto(s, t, if expired then UnlockingTx(PcOf(s, t).r, Expire) else Testing(PcOf(s, t).r))
    case TestAgain(t) =>
      var r := PcOf(s, t).r;
      Goto(s, t, if MustWait(s.q, r) then Placing(r) else UnlockingTx(r, Retry))
    case JoinList(t, k) =>
      var r := PcOf(s, t).r;
      var side := SideOf(s.q, r);
      var joined := side.(waiting := side.waiting[..k] + [t] + side.waiting[k..]);
      Goto(s.(q := WithSide(s.q, r, joined)), t, UnlockingTx(r, Sleep))
    case UnlockTx(t) =>
      Goto(s.(q := s.q.(receivers := UnlockSide(s.q.receivers))), t, UnlockingRx(PcOf(s, t).r, PcOf(s, t).next))
    case UnlockRx(t) =>
      Goto(s.(q := s.q.(senders := UnlockSide(s.q.senders))), t, Resuming(PcOf(s, t).r, PcOf(s, t).next))
    case ResumeScheduler(t) =>
      var r := PcOf(s, t).r;
      Goto(s.(holder := {}), t,
           match PcOf(s, t).next
           case Sleep => Asleep(r)
           case Retry => Entering(r)
           case Expire => if Receives(r) then Expired(r) else Outside)
    case RunAgain(t) => Goto(s, t, Entering(PcOf(s, t).r))
    case TestExpired(t) =>
      Goto(s, t, if MustWait(s.q, PcOf(s, t).r) then Outside else Entering(PcOf(s, t).r))
    case TimeOut(t) =>
      var r := PcOf(s, t).r;
      var side := SideOf(s.q, r);
      s.(q := WithSide(s.q, r, side.(waiting := Cut(side.waiting, Find(side.waiting, t)))))
    case IsrPost(overwrite) => s.(q := PostFromIsr(s.q, overwrite))
    case IsrTake => s.(q := TakeFromIsr(s.q))
  }
}
