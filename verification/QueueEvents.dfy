// The fields of a queue that tasks and interrupts share, and the code that updates them in place.
module QueueEvents {
  import P = QueueProtocol
  import opened QueueSafety
  import opened ListRing

  type Task = P.Task

  // ----- What every critical section keeps -----

  ghost predicate SideFine(s: P.Side) {
    NoDup(s.waiting) && s.lock >= P.UNLOCKED && forall t :: t in s.waiting ==> t !in s.woken
  }

  // No task is left waiting for an item or a space that neither a woken task nor a lock count answers for.
  ghost predicate NoneForgotten(q: P.Queue) {
    && q.items <= q.length && SideFine(q.receivers) && SideFine(q.senders)
    && Answered(q.receivers, q.items) && Answered(q.senders, P.Spaces(q))
  }

  lemma WakeFine(s: P.Side, available: int)
    requires SideFine(s) && Answered(s, available)
    ensures SideFine(P.WakeOne(s)) && Answered(P.WakeOne(s), available) && Answered(P.WakeOne(s), available + 1)
  {
    WakeOneAnswered(s, available);
  }

  lemma WakeOrCountFine(s: P.Side, available: int)
    requires SideFine(s) && Answered(s, available)
    ensures SideFine(P.WakeOrCount(s)) && Answered(P.WakeOrCount(s), available + 1)
    ensures Answered(P.WakeOrCount(s), available)
  {
    WakeFine(s, available);
  }

  lemma PostKeeps(q: P.Queue, overwrite: bool)
    requires NoneForgotten(q) && P.CanPost(q, overwrite) && (overwrite ==> q.length == 1)
    ensures NoneForgotten(P.Post(q, overwrite)) && NoneForgotten(P.PostFromIsr(q, overwrite))
  {
    hide SideFine;
    WakeFine(q.receivers, q.items);
    WakeOrCountFine(q.receivers, q.items);
  }

  lemma TakeKeeps(q: P.Queue)
    requires NoneForgotten(q) && q.items > 0
    ensures NoneForgotten(P.Take(q)) && NoneForgotten(P.TakeFromIsr(q)) && NoneForgotten(P.Peek(q))
  {
    hide SideFine;
    WakeFine(q.receivers, q.items);
    WakeFine(q.senders, P.Spaces(q));
    WakeOrCountFine(q.senders, P.Spaces(q));
  }

  lemma LockKeeps(q: P.Queue)
    requires NoneForgotten(q)
    ensures NoneForgotten(P.Lock(q))
  {
  }

  lemma UnlockKeeps(q: P.Queue)
    requires NoneForgotten(q)
    ensures NoneForgotten(q.(receivers := P.UnlockSide(q.receivers)))
    ensures NoneForgotten(q.(senders := P.UnlockSide(q.senders)))
  {
    UnlockSideAnswered(q.receivers, q.items);
    UnlockSideAnswered(q.senders, P.Spaces(q));
  }

  // In every run of the protocol, locked or not, the queue keeps the promise that the methods below rely on.
  lemma RunsForgetNone(run: seq<P.System>, steps: seq<P.Step>, length: nat, items: nat, n: nat)
    requires IsRun(run, steps) && n < |run| && items <= length && run[0] == Initial(length, items)
    ensures NoneForgotten(run[n].q)
  {
    hide IsRun;
    RunKeeps(run, steps, length, items, n);
  }

  // With nothing posted or taken in between, unlocking undoes locking.
  lemma UnlockUndoesLock(q: P.Queue)
    requires q.receivers.lock == q.senders.lock == P.UNLOCKED
    ensures var q' := P.Lock(q); q'.(receivers := P.UnlockSide(q'.receivers), senders := P.UnlockSide(q'.senders)) == q
  {
  }

  // The longest-waiting task of the highest priority is woken if any waits; otherwise nothing changes.
  ghost predicate HeadWoken(before: seq<Task>, wokenBefore: set<Task>, after: seq<Task>, wokenAfter: set<Task>) {
    if before == [] then after == [] && wokenAfter == wokenBefore
    else before == [before[0]] + after && wokenAfter == wokenBefore + {before[0]}
  }

  // The first k of the list have been woken, and the side is unlocked.
  ghost predicate FirstWoken(before: P.Side, after: P.Side, k: nat) {
    && k <= |before.waiting| && after.waiting == before.waiting[k..] && after.lock == P.UNLOCKED
    && after.woken == before.woken + (set t | t in before.waiting[..k])
  }

  // As many have been woken from the head of the list as there were counts, or all if there were fewer.
  ghost predicate HeadsWoken(before: P.Side, after: P.Side) {
    var counted := if before.lock > 0 then before.lock else 0;
    FirstWoken(before, after, if counted <= |before.waiting| then counted else |before.waiting|)
  }

  lemma {:induction false} UnlockWakes(s: P.Side)
    ensures HeadsWoken(s, P.UnlockSide(s))
    decreases s.lock
  {
    if s.lock > 0 && s.waiting != [] {
      var s1 := P.WakeOne(s).(lock := s.lock - 1);
      UnlockWakes(s1);
      hide P.UnlockSide;
      OneMoreWoken(s, s1, P.UnlockSide(s1), if s1.lock <= |s1.waiting| then s1.lock else |s1.waiting|);
    } else {
      assert s.woken + (set t | t in s.waiting[..0]) == s.woken;
      assert s.waiting[0..] == s.waiting;
    }
  }

  lemma OneMoreWoken(s: P.Side, s1: P.Side, after: P.Side, k: nat)
    requires s.waiting != [] && s1.waiting == s.waiting[1..] && s1.woken == s.woken + {s.waiting[0]}
    requires FirstWoken(s1, after, k)
    ensures FirstWoken(s, after, k + 1)
  {
    assert s.waiting[..k + 1] == [s.waiting[0]] + s1.waiting[..k];
  }

  class EventState {
    var uxMessagesWaiting: nat
    const uxLength: nat
    var xTasksWaitingToReceive: seq<Task>
    var xTasksWaitingToSend: seq<Task>
    var cTxLock: int
    var cRxLock: int
    ghost var wokenToReceive: set<Task>
    ghost var wokenToSend: set<Task>

    ghost function State(): P.Queue
      reads this
    {
      P.Queue(uxMessagesWaiting, uxLength, P.Side(xTasksWaitingToReceive, wokenToReceive, cTxLock),
              P.Side(xTasksWaitingToSend, wokenToSend, cRxLock))
    }

    constructor (length: nat)
      ensures State() == P.Queue(0, length, P.Side([], {}, P.UNLOCKED), P.Side([], {}, P.UNLOCKED))
    {
      uxMessagesWaiting, uxLength := 0, length;
      xTasksWaitingToReceive, xTasksWaitingToSend := [], [];
      cTxLock, cRxLock := P.UNLOCKED, P.UNLOCKED;
      wokenToReceive, wokenToSend := {}, {};
    }

    // xTaskRemoveFromEventList on either list
    method WakeReceiver()
      requires xTasksWaitingToReceive != []
      modifies this`xTasksWaitingToReceive, this`wokenToReceive
      ensures State() == old(State().(receivers := P.WakeOne(State().receivers)))
    {
      wokenToReceive := wokenToReceive + {xTasksWaitingToReceive[0]};
      xTasksWaitingToReceive := xTasksWaitingToReceive[1..];
    }

    method WakeSender()
      requires xTasksWaitingToSend != []
      modifies this`xTasksWaitingToSend, this`wokenToSend
      ensures State() == old(State().(senders := P.WakeOne(State().senders)))
    {
      wokenToSend := wokenToSend + {xTasksWaitingToSend[0]};
      xTasksWaitingToSend := xTasksWaitingToSend[1..];
    }

    // prvLockQueue
    method LockQueue()
      modifies this`cTxLock, this`cRxLock
      ensures State() == old(P.Lock(State())) && (old(NoneForgotten(State())) ==> NoneForgotten(State()))
      ensures cTxLock == if old(cTxLock) == P.UNLOCKED then 0 else old(cTxLock)
      ensures cRxLock == if old(cRxLock) == P.UNLOCKED then 0 else old(cRxLock)
    {
      if NoneForgotten(State()) { LockKeeps(State()); }
      hide NoneForgotten;
      if cRxLock == P.UNLOCKED { cRxLock := 0; }
      if cTxLock == P.UNLOCKED { cTxLock := 0; }
    }

    // The two critical sections of prvUnlockQueue
    method UnlockTx()
      modifies this`cTxLock, this`xTasksWaitingToReceive, this`wokenToReceive
      ensures State() == old(State().(receivers := P.UnlockSide(State().receivers)))
      ensures old(NoneForgotten(State())) ==> NoneForgotten(State()) && cTxLock == P.UNLOCKED
      ensures HeadsWoken(old(State()).receivers, State().receivers) && State().senders == old(State()).senders
    {
      UnlockWakes(State().receivers);
      if NoneForgotten(State()) { UnlockKeeps(State()); }
      hide NoneForgotten;
      var count := cTxLock;
      while count > 0 && xTasksWaitingToReceive != []
        invariant cTxLock == old(cTxLock)
        invariant P.UnlockSide(State().receivers.(lock := count)) == old(P.UnlockSide(State().receivers))
        invariant State() == old(State()).(receivers := State().receivers)
        decreases count
      {
        WakeReceiver();
        count := count - 1;
      }
      cTxLock := P.UNLOCKED;
    }

    method UnlockRx()
      modifies this`cRxLock, this`xTasksWaitingToSend, this`wokenToSend
      ensures State() == old(State().(senders := P.UnlockSide(State().senders)))
      ensures old(NoneForgotten(State())) ==> NoneForgotten(State()) && cRxLock == P.UNLOCKED
      ensures HeadsWoken(old(State()).senders, State().senders) && State().receivers == old(State()).receivers
    {
      UnlockWakes(State().senders);
      if NoneForgotten(State()) { UnlockKeeps(State()); }
      hide NoneForgotten;
      var count := cRxLock;
      while count > 0 && xTasksWaitingToSend != []
        invariant cRxLock == old(cRxLock)
        invariant P.UnlockSide(State().senders.(lock := count)) == old(P.UnlockSide(State().senders))
        invariant State() == old(State()).(senders := State().senders)
        decreases count
      {
        WakeSender();
        count := count - 1;
      }
      cRxLock := P.UNLOCKED;
    }

    // The critical section of xQueueGenericSend
    method TrySend(overwrite: bool) returns (sent: bool)
      requires overwrite ==> uxLength == 1
      modifies this`uxMessagesWaiting, this`xTasksWaitingToReceive, this`wokenToReceive
      ensures sent == old(P.CanPost(State(), overwrite))
      ensures State() == if sent then old(P.Post(State(), overwrite)) else old(State())
      ensures old(NoneForgotten(State())) ==> NoneForgotten(State())
      ensures sent <==> old(uxMessagesWaiting) < uxLength || overwrite
      ensures uxMessagesWaiting == if sent && !(overwrite && old(uxMessagesWaiting) > 0) then old(uxMessagesWaiting) + 1
                                   else old(uxMessagesWaiting)
      ensures sent ==>
        HeadWoken(old(xTasksWaitingToReceive), old(wokenToReceive), xTasksWaitingToReceive, wokenToReceive)
    {
      if NoneForgotten(State()) && P.CanPost(State(), overwrite) { PostKeeps(State(), overwrite); }
      hide NoneForgotten;
      sent := uxMessagesWaiting < uxLength || overwrite;
      if sent {
        if !(overwrite && uxMessagesWaiting > 0) { uxMessagesWaiting := uxMessagesWaiting + 1; }
        if xTasksWaitingToReceive != [] { WakeReceiver(); }
      }
    }

    // The critical section of xQueueReceive and xQueueSemaphoreTake, or with peek that of xQueuePeek
    method TryReceive(peek: bool) returns (received: bool)
      modifies this
      ensures received <==> old(uxMessagesWaiting) > 0
      ensures uxMessagesWaiting == if received && !peek then old(uxMessagesWaiting) - 1 else old(uxMessagesWaiting)
      ensures received && !peek ==>
        State() == old(State().(items := State().items - 1, senders := P.WakeOne(State().senders)))
      ensures received && peek ==> State() == old(P.Peek(State()))
      ensures !received ==> State() == old(State())
      ensures old(NoneForgotten(State())) ==> NoneForgotten(State())
      ensures received && !peek ==>
        HeadWoken(old(xTasksWaitingToSend), old(wokenToSend), xTasksWaitingToSend, wokenToSend)
      ensures received && peek ==>
        HeadWoken(old(xTasksWaitingToReceive), old(wokenToReceive), xTasksWaitingToReceive, wokenToReceive)
    {
      if NoneForgotten(State()) && State().items > 0 { TakeKeeps(State()); }
      hide NoneForgotten;
      received := uxMessagesWaiting > 0;
      if received {
        if peek {
          if xTasksWaitingToReceive != [] { WakeReceiver(); }
        } else {
          uxMessagesWaiting := uxMessagesWaiting - 1;
          if xTasksWaitingToSend != [] { WakeSender(); }
        }
      }
    }

    // xQueueGenericSendFromISR and xQueueGiveFromISR
    method SendFromIsr(overwrite: bool) returns (sent: bool)
      requires overwrite ==> uxLength == 1
      modifies this
      ensures sent == old(P.CanPost(State(), overwrite)) && State() == old(P.PostFromIsr(State(), overwrite))
      ensures sent <==> old(uxMessagesWaiting) < uxLength || overwrite
      ensures uxMessagesWaiting == if sent && !(overwrite && old(uxMessagesWaiting) > 0) then old(uxMessagesWaiting) + 1
                                   else old(uxMessagesWaiting)
      ensures !sent ==> State() == old(State())
      ensures old(NoneForgotten(State())) ==> NoneForgotten(State())
      ensures sent && old(cTxLock) == P.UNLOCKED ==> (
        && cTxLock == P.UNLOCKED
        && HeadWoken(old(xTasksWaitingToReceive), old(wokenToReceive), xTasksWaitingToReceive, wokenToReceive))
      ensures sent && old(cTxLock) != P.UNLOCKED ==> (
        && cTxLock == old(cTxLock) + 1
        && xTasksWaitingToReceive == old(xTasksWaitingToReceive) && wokenToReceive == old(wokenToReceive))
    {
      if NoneForgotten(State()) && P.CanPost(State(), overwrite) { PostKeeps(State(), overwrite); }
      hide NoneForgotten;
      sent := uxMessagesWaiting < uxLength || overwrite;
      if sent {
        if !(overwrite && uxMessagesWaiting > 0) { uxMessagesWaiting := uxMessagesWaiting + 1; }
        if cTxLock == P.UNLOCKED {
          if xTasksWaitingToReceive != [] { WakeReceiver(); }
        } else {
          cTxLock := cTxLock + 1;
        }
      }
    }

    // xQueueReceiveFromISR
    method ReceiveFromIsr() returns (received: bool)
      modifies this
      ensures State() == old(P.TakeFromIsr(State())) && (received <==> old(uxMessagesWaiting) > 0)
      ensures uxMessagesWaiting == if received then old(uxMessagesWaiting) - 1 else old(uxMessagesWaiting)
      ensures !received ==> State() == old(State())
      ensures old(NoneForgotten(State())) ==> NoneForgotten(State())
      ensures received && old(cRxLock) == P.UNLOCKED ==> (
        && cRxLock == P.UNLOCKED
        && HeadWoken(old(xTasksWaitingToSend), old(wokenToSend), xTasksWaitingToSend, wokenToSend))
      ensures received && old(cRxLock) != P.UNLOCKED ==> (
        && cRxLock == old(cRxLock) + 1
        && xTasksWaitingToSend == old(xTasksWaitingToSend) && wokenToSend == old(wokenToSend))
    {
      if NoneForgotten(State()) && State().items > 0 { TakeKeeps(State()); }
      hide NoneForgotten;
      received := uxMessagesWaiting > 0;
      if received {
        uxMessagesWaiting := uxMessagesWaiting - 1;
        if cRxLock == P.UNLOCKED {
          if xTasksWaitingToSend != [] { WakeSender(); }
        } else {
          cRxLock := cRxLock + 1;
        }
      }
    }
  }
}
