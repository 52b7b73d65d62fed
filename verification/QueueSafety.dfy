// No wake-up is lost on a queue, over every interleaving of tasks and interrupts.
module QueueSafety {
  import opened ListRing
  import opened QueueProtocol

  function Counted(s: Side): int { if s.lock > 0 then s.lock else 0 }

  // Each item (space) a task could be waiting for has a woken task or a lock count that answers for it.
  ghost predicate Answered(s: Side, available: int) {
    s.waiting != [] ==> available <= |s.woken| + Counted(s)
  }

  predicate OnTheWay(p: Pc) {
    p.Asleep? || ((p.UnlockingTx? || p.UnlockingRx? || p.Resuming?) && p.next.Sleep?)
  }

  ghost predicate SideOk(s: System, side: Side, receiving: bool) {
    && NoDup(side.waiting) && side.lock >= UNLOCKED
    && (forall t :: t in side.waiting ==>
         OnTheWay(PcOf(s, t)) && Receives(PcOf(s, t).r) == receiving && t !in side.woken)
    && (forall t :: t in side.woken ==>
         (OnTheWay(PcOf(s, t)) || PcOf(s, t).Entering?) && Receives(PcOf(s, t).r) == receiving)
  }

  predicate Holding(p: Pc) {
    p.Locking? || p.Timing? || p.Testing? || p.Placing? || p.UnlockingTx? || p.UnlockingRx? || p.Resuming?
  }

  predicate TxLocked(p: Pc) { p.Timing? || p.Testing? || p.Placing? || p.UnlockingTx? }
  predicate RxLocked(p: Pc) { TxLocked(p) || p.UnlockingRx? }

  ghost predicate HolderOk(s: System) {
    && (forall t :: Holding(PcOf(s, t)) <==> t in s.holder)
    && (forall t, u :: t in s.holder && u in s.holder ==> t == u)
    && (s.holder == {} ==> s.q.receivers.lock == UNLOCKED && s.q.senders.lock == UNLOCKED)
    && (forall t :: t in s.holder ==>
         (s.q.receivers.lock >= 0 <==> TxLocked(PcOf(s, t))) && (s.q.senders.lock >= 0 <==> RxLocked(PcOf(s, t))))
  }

  // Between finding the queue empty (full) and joining the list, every change has been counted.
  ghost predicate PlacingOk(s: System) {
    forall t :: PcOf(s, t).Placing? ==>
      if Receives(PcOf(s, t).r) then s.q.items <= s.q.receivers.lock else Spaces(s.q) <= s.q.senders.lock
  }

  // Overwriting is for queues of length one, and never waits.
  ghost predicate OverwritesOk(s: System) {
    forall t :: !PcOf(s, t).Outside? && PcOf(s, t).r.Send? && PcOf(s, t).r.overwrite ==>
      PcOf(s, t).Entering? && s.q.length == 1
  }

  ghost predicate Inv(s: System) {
    && s.q.items <= s.q.length
    && SideOk(s, s.q.receivers, true) && SideOk(s, s.q.senders, false)
    && HolderOk(s) && PlacingOk(s)
    && OverwritesOk(s)
    && Answered(s.q.receivers, s.q.items) && Answered(s.q.senders, Spaces(s.q))
  }

  // ----- One side at a time -----

  lemma WakeOneAnswered(s: Side, available: int)
    requires Answered(s, available) && NoDup(s.waiting) && forall t :: t in s.waiting ==> t !in s.woken
    ensures Answered(WakeOne(s), available) && Answered(WakeOne(s), available + 1)
    ensures NoDup(WakeOne(s).waiting)
    ensures forall t :: t in WakeOne(s).waiting <==> t in s.waiting && t != s.waiting[0]
  {
    if s.waiting != [] {
      assert s.waiting[0] in s.waiting;
      assert s.waiting == [s.waiting[0]] + s.waiting[1..];
    }
  }

  // A woken task that re-enters with nothing left, or that takes what it was woken for.
  lemma ReenteredAnswered(s: Side, t: Task, available: int)
    requires Answered(s, available)
    ensures Answered(s.(woken := s.woken - {t}), available - 1)
    ensures available <= 0 ==> Answered(s.(woken := s.woken - {t}), available)
  {
    assert |s.woken - {t}| >= |s.woken| - 1 by {
      if t in s.woken { assert s.woken == (s.woken - {t}) + {t}; } else { assert s.woken - {t} == s.woken; }
    }
  }

  lemma {:induction false} UnlockSideAnswered(s: Side, available: int)
    requires Answered(s, available) && NoDup(s.waiting) && forall t :: t in s.waiting ==> t !in s.woken
    ensures Answered(UnlockSide(s), available) && UnlockSide(s).lock == UNLOCKED
    ensures NoDup(UnlockSide(s).waiting)
    ensures forall t :: t in UnlockSide(s).waiting ==> t in s.waiting && t !in UnlockSide(s).woken
    ensures forall t :: t in UnlockSide(s).woken ==> t in s.woken || t in s.waiting
    decreases s.lock
  {
    if s.lock > 0 && s.waiting != [] {
      assert s.waiting[0] in s.waiting;
      assert s.waiting == [s.waiting[0]] + s.waiting[1..];
      UnlockSideAnswered(WakeOne(s).(lock := s.lock - 1), available);
    }
  }

  // ----- Every step -----

  lemma CallInKeeps(s: System, t: Task, r: Request)
    requires Inv(s) && Enabled(s, CallIn(t, r))
    ensures Inv(Apply(s, CallIn(t, r)))
  {
    var s' := Apply(s, CallIn(t, r));
    assert forall u :: PcOf(s', u) == if u == t then Entering(r) else PcOf(s, u);
  }

  // A task moves on without touching the queue or either list.
  lemma MoveKeeps(s: System, t: Task, p: Pc)
    requires Inv(s) && t in s.holder && Holding(PcOf(s, t)) && Holding(p) && !p.Placing? && p.r == PcOf(s, t).r
    requires t !in s.q.receivers.waiting && t !in s.q.senders.waiting
    requires t !in s.q.receivers.woken && t !in s.q.senders.woken
    requires TxLocked(p) == TxLocked(PcOf(s, t)) && RxLocked(p) == RxLocked(PcOf(s, t))
    ensures Inv(Goto(s, t, p))
  {
    var s' := Goto(s, t, p);
    assert forall u :: PcOf(s', u) == if u == t then p else PcOf(s, u);
  }

  lemma ReenterKeepsSides(s: System, t: Task, r: Request, p: Pc)
    requires SideOk(s, s.q.receivers, true) && SideOk(s, s.q.senders, false) && PcOf(s, t) == Entering(r)
    ensures var q := Reentered(s.q, r, t); var s' := Goto(s.(q := q), t, p);
      SideOk(s', q.receivers, true) && SideOk(s', q.senders, false)
  {
    var s' := Goto(s.(q := Reentered(s.q, r, t)), t, p);
    assert forall u :: PcOf(s', u) == if u == t then p else PcOf(s, u);
  }

  lemma WakeOneSide(s: System, side: Side, receiving: bool)
    requires SideOk(s, side, receiving)
    ensures SideOk(s, WakeOne(side), receiving)
  {
    if side.waiting != [] {
      assert side.waiting[0] in side.waiting;
      assert side.waiting == [side.waiting[0]] + side.waiting[1..];
    }
  }

  // Sides are judged by where the tasks are, not by what else the queue holds.
  lemma SideFrame(s: System, s': System, side: Side, receiving: bool)
    requires SideOk(s, side, receiving) && s'.pc == s.pc
    ensures SideOk(s', side, receiving)
  {
    assert forall t :: PcOf(s', t) == PcOf(s, t);
  }

  lemma EnterSides(s: System, t: Task, noWait: bool)
    requires Inv(s) && Enabled(s, EnterCritical(t, noWait))
    ensures var s' := Apply(s, EnterCritical(t, noWait));
      SideOk(s', s'.q.receivers, true) && SideOk(s', s'.q.senders, false)
  {
    hide HolderOk, PlacingOk, Answered, SideOk, WakeOne;
    var r := PcOf(s, t).r;
    var s' := Apply(s, EnterCritical(t, noWait));
    var q := Reentered(s.q, r, t);
    var s1 := Goto(s.(q := q), t, PcOf(s', t));
    ReenterKeepsSides(s, t, r, PcOf(s', t));
    WakeOneSide(s1, q.receivers, true);
    WakeOneSide(s1, q.senders, false);
    assert s'.pc == s1.pc;
    SideFrame(s1, s', s'.q.receivers, true);
    SideFrame(s1, s', s'.q.senders, false);
  }

  lemma SideApart(s: System, side: Side, receiving: bool)
    requires SideOk(s, side, receiving)
    ensures NoDup(side.waiting) && forall t :: t in side.waiting ==> t !in side.woken
  {
  }

  lemma EnterAnswered(s: System, t: Task, noWait: bool)
    requires Inv(s) && Enabled(s, EnterCritical(t, noWait))
    ensures var s' := Apply(s, EnterCritical(t, noWait));
      Answered(s'.q.receivers, s'.q.items) && Answered(s'.q.senders, Spaces(s'.q))
  {
    hide SideOk, HolderOk, PlacingOk, NoDup, Answered, WakeOne;
    SideApart(s, s.q.receivers, true);
    SideApart(s, s.q.senders, false);
    var r := PcOf(s, t).r;
    var q := Reentered(s.q, r, t);
    ReenteredAnswered(s.q.receivers, t, s.q.items);
    ReenteredAnswered(s.q.senders, t, Spaces(s.q));
    match r {
      case Receive =>
        WakeOneAnswered(q.senders, Spaces(s.q));
      case PeekItem =>
        PeekAnswered(s.q.receivers, t, s.q.items);
      case Send(overwrite) =>
        WakeOneAnswered(q.receivers, s.q.items);
    }
  }

  // A peek leaves the item, so it passes its own wake-up on.
  lemma PeekAnswered(s: Side, t: Task, available: int)
    requires Answered(s, available) && NoDup(s.waiting) && forall u :: u in s.waiting ==> u !in s.woken
    ensures Answered(WakeOne(s.(woken := s.woken - {t})), available)
  {
    ReenteredAnswered(s, t, available);
    WakeOneAnswered(s.(woken := s.woken - {t}), available - 1);
  }

  lemma WakeOneLock(s: Side)
    ensures WakeOne(s).lock == s.lock
  {
  }

  lemma EnterKeeps(s: System, t: Task, noWait: bool)
    requires Inv(s) && Enabled(s, EnterCritical(t, noWait))
    ensures Inv(Apply(s, EnterCritical(t, noWait)))
  {
    hide SideOk, Answered, WakeOne;
    var s' := Apply(s, EnterCritical(t, noWait));
    WakeOneLock(s.q.receivers.(woken := s.q.receivers.woken - {t}));
    WakeOneLock(s.q.receivers);
    WakeOneLock(s.q.senders.(woken := s.q.senders.woken - {t}));
    WakeOneLock(s.q.senders);
    EnterSides(s, t, noWait);
    EnterAnswered(s, t, noWait);
    assert t !in s.holder && s.holder == {};
    assert forall u :: PcOf(s', u) == if u == t then PcOf(s', t) else PcOf(s, u);
  }

  lemma SuspendSchedulerKeeps(s: System, t: Task)
    requires Inv(s) && Enabled(s, SuspendScheduler(t))
    ensures Inv(Apply(s, SuspendScheduler(t)))
  {
    var s' := Apply(s, SuspendScheduler(t));
    assert t !in s.holder && s.holder == {};
    assert forall u :: PcOf(s', u) == if u == t then Locking(PcOf(s, t).r) else PcOf(s, u);
  }

  lemma LockQueueKeeps(s: System, t: Task)
    requires Inv(s) && Enabled(s, LockQueue(t))
    ensures Inv(Apply(s, LockQueue(t)))
  {
    var s' := Apply(s, LockQueue(t));
    assert t in s.holder;
    assert forall u :: PcOf(s', u) == if u == t then Timing(PcOf(s, t).r) else PcOf(s, u);
  }

  lemma TestAgainKeeps(s: System, t: Task)
    requires Inv(s) && Enabled(s, TestAgain(t))
    ensures Inv(Apply(s, TestAgain(t)))
  {
    var s' := Apply(s, TestAgain(t));
    assert t in s.holder;
    assert forall u :: PcOf(s', u) == if u == t then PcOf(s', t) else PcOf(s, u);
  }

  lemma JoinListSides(s: System, t: Task, k: nat)
    requires SideOk(s, s.q.receivers, true) && SideOk(s, s.q.senders, false) && Enabled(s, JoinList(t, k))
    ensures var s' := Apply(s, JoinList(t, k)); SideOk(s', s'.q.receivers, true) && SideOk(s', s'.q.senders, false)
  {
    var s', r := Apply(s, JoinList(t, k)), PcOf(s, t).r;
    assert t !in SideOf(s.q, r).waiting;
    InsertFacts(SideOf(s.q, r).waiting, k, t);
    hide NoDup;
    assert forall u :: PcOf(s', u) == if u == t then UnlockingTx(r, Sleep) else PcOf(s, u);
  }

  // The task joins a list whose items (spaces) are all counted by then.
  lemma JoinListAnswered(s: System, t: Task, k: nat)
    requires Answered(s.q.receivers, s.q.items) && Answered(s.q.senders, Spaces(s.q)) && PlacingOk(s)
    requires Enabled(s, JoinList(t, k))
    ensures var s' := Apply(s, JoinList(t, k));
      Answered(s'.q.receivers, s'.q.items) && Answered(s'.q.senders, Spaces(s'.q))
  {
  }

  lemma JoinListKeeps(s: System, t: Task, k: nat)
    requires Inv(s) && Enabled(s, JoinList(t, k))
    ensures Inv(Apply(s, JoinList(t, k)))
  {
    hide SideOk, Answered;
    var s', r := Apply(s, JoinList(t, k)), PcOf(s, t).r;
    assert t in s.holder;
    assert forall u :: PcOf(s', u) == if u == t then UnlockingTx(r, Sleep) else PcOf(s, u);
    JoinListSides(s, t, k);
    JoinListAnswered(s, t, k);
  }

  lemma UnlockTxKeeps(s: System, t: Task)
    requires Inv(s) && Enabled(s, UnlockTx(t))
    ensures Inv(Apply(s, UnlockTx(t)))
  {
    var s' := Apply(s, UnlockTx(t));
    assert t in s.holder;
    UnlockSideAnswered(s.q.receivers, s.q.items);
    assert forall u :: PcOf(s', u) == if u == t then PcOf(s', t) else PcOf(s, u);
  }

  lemma UnlockRxKeeps(s: System, t: Task)
    requires Inv(s) && Enabled(s, UnlockRx(t))
    ensures Inv(Apply(s, UnlockRx(t)))
  {
    var s' := Apply(s, UnlockRx(t));
    assert t in s.holder;
    UnlockSideAnswered(s.q.senders, Spaces(s.q));
    assert forall u :: PcOf(s', u) == if u == t then PcOf(s', t) else PcOf(s, u);
  }

  lemma ResumeSchedulerKeeps(s: System, t: Task)
    requires Inv(s) && Enabled(s, ResumeScheduler(t))
    ensures Inv(Apply(s, ResumeScheduler(t)))
  {
    var s' := Apply(s, ResumeScheduler(t));
    assert t in s.holder;
    assert forall u :: PcOf(s', u) == if u == t then PcOf(s', t) else PcOf(s, u);
  }

  lemma RunAgainKeeps(s: System, t: Task)
    requires Inv(s) && Enabled(s, RunAgain(t))
    ensures Inv(Apply(s, RunAgain(t)))
  {
    var s' := Apply(s, RunAgain(t));
    assert forall u :: PcOf(s', u) == if u == t then PcOf(s', t) else PcOf(s, u);
  }

  lemma TestExpiredKeeps(s: System, t: Task)
    requires Inv(s) && Enabled(s, TestExpired(t))
    ensures Inv(Apply(s, TestExpired(t)))
  {
    var s' := Apply(s, TestExpired(t));
    assert forall u :: PcOf(s', u) == if u == t then PcOf(s', t) else PcOf(s, u);
  }

  lemma TimeOutSides(s: System, t: Task)
    requires SideOk(s, s.q.receivers, true) && SideOk(s, s.q.senders, false) && Enabled(s, TimeOut(t))
    ensures var s' := Apply(s, TimeOut(t)); SideOk(s', s'.q.receivers, true) && SideOk(s', s'.q.senders, false)
  {
    RemoveFacts(Ring(SideOf(s.q, PcOf(s, t).r).waiting, 0), t);
    hide NoDup, Cut;
    assert forall u :: PcOf(Apply(s, TimeOut(t)), u) == PcOf(s, u);
  }

  lemma TimeOutKeeps(s: System, t: Task)
    requires Inv(s) && Enabled(s, TimeOut(t))
    ensures Inv(Apply(s, TimeOut(t)))
  {
    hide SideOk, Cut;
    TimeOutSides(s, t);
    assert SideOf(s.q, PcOf(s, t).r).waiting != [];
    assert forall u :: PcOf(Apply(s, TimeOut(t)), u) == PcOf(s, u);
  }

  lemma IsrPostSide(s: System, side: Side, receiving: bool, available: int)
    requires SideOk(s, side, receiving) && Answered(side, available)
    ensures SideOk(s, WakeOrCount(side), receiving)
    ensures Answered(WakeOrCount(side), available) && Answered(WakeOrCount(side), available + 1)
    ensures WakeOrCount(side).lock == if side.lock == UNLOCKED then UNLOCKED else side.lock + 1
  {
    WakeOneAnswered(side, available);
    WakeOneSide(s, side, receiving);
  }

  lemma IsrPostKeeps(s: System, overwrite: bool)
    requires Inv(s) && Enabled(s, IsrPost(overwrite))
    ensures Inv(Apply(s, IsrPost(overwrite)))
  {
    hide SideOk, Answered, WakeOrCount;
    var s' := Apply(s, IsrPost(overwrite));
    IsrPostSide(s, s.q.receivers, true, s.q.items);
    SideFrame(s, s', s'.q.receivers, true);
    SideFrame(s, s', s'.q.senders, false);
    FewerAnswered(s.q.senders, Spaces(s.q), Spaces(s'.q));
    assert forall u :: PcOf(s', u) == PcOf(s, u);
  }

  lemma FewerAnswered(s: Side, available: int, fewer: int)
    requires Answered(s, available)
    ensures fewer <= available ==> Answered(s, fewer)
  {
  }

  lemma IsrTakeKeeps(s: System)
    requires Inv(s) && Enabled(s, IsrTake)
    ensures Inv(Apply(s, IsrTake))
  {
    hide SideOk, Answered, WakeOrCount;
    var s' := Apply(s, IsrTake);
    IsrPostSide(s, s.q.senders, false, Spaces(s.q));
    SideFrame(s, s', s'.q.receivers, true);
    SideFrame(s, s', s'.q.senders, false);
    FewerAnswered(s.q.receivers, s.q.items, s'.q.items);
    assert forall u :: PcOf(s', u) == PcOf(s, u);
  }

  lemma CheckTimeKeeps(s: System, t: Task, expired: bool)
    requires Inv(s) && Enabled(s, CheckTime(t, expired))
    ensures Inv(Apply(s, CheckTime(t, expired)))
  {
    assert t in s.holder;
    var r := PcOf(s, t).r;
    MoveKeeps(s, t, if expired then UnlockingTx(r, Expire) else Testing(r));
  }

  lemma ApplyKeeps(s: System, step: Step)
    requires Inv(s) && Enabled(s, step)
    ensures Inv(Apply(s, step))
  {
    hide Inv, Apply;
    match step {
      case CallIn(t, r) => CallInKeeps(s, t, r);
      case EnterCritical(t, noWait) => EnterKeeps(s, t, noWait);
      case SuspendScheduler(t) => SuspendSchedulerKeeps(s, t);
      case LockQueue(t) => LockQueueKeeps(s, t);
      case CheckTime(t, expired) => CheckTimeKeeps(s, t, expired);
      case TestAgain(t) => TestAgainKeeps(s, t);
      case JoinList(t, k) => JoinListKeeps(s, t, k);
      case UnlockTx(t) => UnlockTxKeeps(s, t);
      case UnlockRx(t) => UnlockRxKeeps(s, t);
      case ResumeScheduler(t) => ResumeSchedulerKeeps(s, t);
      case RunAgain(t) => RunAgainKeeps(s, t);
      case TestExpired(t) => TestExpiredKeeps(s, t);
      case TimeOut(t) => TimeOutKeeps(s, t);
      case IsrPost(overwrite) => IsrPostKeeps(s, overwrite);
      case IsrTake => IsrTakeKeeps(s);
    }
  }

  // ----- Every run -----

  // xQueueGenericCreate: an empty queue nobody uses; xQueueCreateCountingSemaphore starts with items.
  function Initial(length: nat, items: nat): System {
    System(Queue(items, length, Side([], {}, UNLOCKED), Side([], {}, UNLOCKED)), map[], {})
  }

  ghost predicate IsRun(run: seq<System>, steps: seq<Step>) {
    && |run| == |steps| + 1
    && forall i :: 0 <= i < |steps| ==> Enabled(run[i], steps[i]) && run[i + 1] == Apply(run[i], steps[i])
  }

  lemma {:induction false} RunKeeps(run: seq<System>, steps: seq<Step>, length: nat, items: nat, n: nat)
    requires IsRun(run, steps) && n < |run| && items <= length && run[0] == Initial(length, items)
    ensures Inv(run[n])
  {
    hide Apply, Enabled, SideOk, HolderOk;
    if n == 0 {
      InitialInv(length, items);
    } else {
      RunKeeps(run, steps, length, items, n - 1);
      ApplyKeeps(run[n - 1], steps[n - 1]);
    }
  }

  lemma InitialInv(length: nat, items: nat)
    requires items <= length
    ensures Inv(Initial(length, items))
  {
  }

  // ----- The account of items -----

  // The step succeeds in adding an item, or in taking one.
  predicate Adds(s: System, step: Step) {
    var sending := (step.EnterCritical? && PcOf(s, step.t).Entering? && PcOf(s, step.t).r.Send?) || step.IsrPost?;
    sending && if Overwriting(s, step) then s.q.items == 0 else s.q.items < s.q.length
  }

  predicate Takes(s: System, step: Step) {
    var taking := (step.EnterCritical? && PcOf(s, step.t).Entering? && PcOf(s, step.t).r.Receive?) || step.IsrTake?;
    taking && s.q.items > 0
  }

  predicate Overwriting(s: System, step: Step) {
    || (step.IsrPost? && step.overwrite)
    || (step.EnterCritical? && PcOf(s, step.t).Entering? && PcOf(s, step.t).r == Send(true))
  }

  lemma StepItems(s: System, step: Step)
    requires Inv(s) && Enabled(s, step)
    ensures Apply(s, step).q.items == s.q.items + (if Adds(s, step) then 1 else 0) - (if Takes(s, step) then 1 else 0)
    ensures Apply(s, step).q.length == s.q.length
  {
    hide Find, Cut;
  }

  function Added(run: seq<System>, steps: seq<Step>, n: nat): nat
    requires n <= |steps| < |run|
  {
    if n == 0 then 0 else Added(run, steps, n - 1) + if Adds(run[n - 1], steps[n - 1]) then 1 else 0
  }

  function Taken(run: seq<System>, steps: seq<Step>, n: nat): nat
    requires n <= |steps| < |run|
  {
    if n == 0 then 0 else Taken(run, steps, n - 1) + if Takes(run[n - 1], steps[n - 1]) then 1 else 0
  }

  // In every run, what tasks and interrupts have added is in the queue or has been taken out of it.
  lemma {:induction false} ItemsBalance(run: seq<System>, steps: seq<Step>, length: nat, items: nat, n: nat)
    requires IsRun(run, steps) && n < |run| && items <= length && run[0] == Initial(length, items)
    ensures run[n].q.items == items + Added(run, steps, n) - Taken(run, steps, n) && run[n].q.length == length
  {
    hide Apply, Enabled, Inv, Adds, Takes;
    if n > 0 {
      ItemsBalance(run, steps, length, items, n - 1);
      RunKeeps(run, steps, length, items, n - 1);
      StepItems(run[n - 1], steps[n - 1]);
    }
  }

  // ----- How calls end -----

  // The call finds what it asks for: an item, or a space, which overwriting does not need.
  predicate Served(s: System, step: Step, t: Task) {
    && step.EnterCritical? && step.t == t && PcOf(s, t).Entering?
    && match PcOf(s, t).r
       case Receive => s.q.items > 0
       case PeekItem => s.q.items > 0
       case Send(overwrite) => s.q.items < s.q.length || overwrite
  }

  // It goes away without: there is nothing for it at this moment and it has no block time, or none left.
  // A sender whose block time is over does not look again.
  predicate Refused(s: System, step: Step, t: Task) {
    || (step.EnterCritical? && step.t == t && step.noWait && PcOf(s, t).Entering? && !Served(s, step, t))
    || (step.TestExpired? && step.t == t && PcOf(s, t).Expired?
        && if Receives(PcOf(s, t).r) then s.q.items == 0 else s.q.items >= s.q.length)
    || (step.ResumeScheduler? && step.t == t && PcOf(s, t).Resuming? && PcOf(s, t).next.Expire?
        && PcOf(s, t).r.Send?)
  }

  // A call ends exactly when it is served or refused so.
  lemma CallEndsExactly(s: System, step: Step, t: Task)
    requires Inv(s) && Enabled(s, step) && !PcOf(s, t).Outside?
    ensures PcOf(Apply(s, step), t).Outside? <==> Served(s, step, t) || Refused(s, step, t)
  {
    hide SideOk, HolderOk, PlacingOk, OverwritesOk, Find, Cut, UnlockSide;
  }

  // ----- How calls wait -----

  // From finding the queue empty (full) to resuming the scheduler, with nobody else in between.
  function BlockingSection(s: System, t: Task, place: nat, expired: bool): System
    requires Inv(s) && s.holder == {} && PcOf(s, t).Leaving?
    requires place <= |SideOf(s.q, PcOf(s, t).r).waiting|
  {
    var s1 := Decided(s, t, place, expired);
    Apply(Apply(Apply(s1, UnlockTx(t)), UnlockRx(t)), ResumeScheduler(t))
  }

  // Up to where the queue is unlocked again.
  function Decided(s: System, t: Task, place: nat, expired: bool): (s': System)
    requires Inv(s) && s.holder == {} && PcOf(s, t).Leaving?
    requires place <= |SideOf(s.q, PcOf(s, t).r).waiting|
    ensures var r := PcOf(s, t).r;
      var side, nothing := SideOf(s.q, r), if r.Send? then s.q.items == s.q.length else s.q.items == 0;
      && s'.holder == {t} && (forall u :: u != t ==> PcOf(s', u) == PcOf(s, u))
      && PcOf(s', t) == UnlockingTx(r, if expired then Expire else if nothing then Sleep else Retry)
      && s'.q == Lock(if !expired && nothing
                      then WithSide(s.q, r, side.(waiting := side.waiting[..place] + [t] + side.waiting[place..]))
                      else s.q)
  {
    assert s.q.receivers.lock == s.q.senders.lock == UNLOCKED;
    hide SideOk, HolderOk, PlacingOk, OverwritesOk;
    var s1 := Apply(Apply(s, SuspendScheduler(t)), LockQueue(t));
    var s2 := Apply(s1, CheckTime(t, expired));
    var s3 := if PcOf(s2, t).Testing? then Apply(s2, TestAgain(t)) else s2;
    if PcOf(s3, t).Placing? then Apply(s3, JoinList(t, place)) else s3
  }

  lemma Unlocks(s: System, t: Task)
    requires s.holder == {t} && PcOf(s, t).UnlockingTx? && s.q.receivers.lock == s.q.senders.lock == 0
    ensures var s' := Apply(Apply(Apply(s, UnlockTx(t)), UnlockRx(t)), ResumeScheduler(t));
      var r := PcOf(s, t).r;
      && s'.holder == {} && (forall u :: u != t ==> PcOf(s', u) == PcOf(s, u))
      && s'.q == s.q.(receivers := s.q.receivers.(lock := UNLOCKED), senders := s.q.senders.(lock := UNLOCKED))
      && PcOf(s', t) == (match PcOf(s, t).next
                         case Sleep => Asleep(r)
                         case Retry => Entering(r)
                         case Expire => if r.Send? then Outside else Expired(r))
  {
  }

  // The task sleeps, on the list, exactly when there is still nothing for it and it has block time left;
  // with something there it tries again, and out of time a receiver looks once more. Nothing else changes.
  lemma WaitsExactly(s: System, t: Task, place: nat, expired: bool)
    requires Inv(s) && s.holder == {} && PcOf(s, t).Leaving? && place <= |SideOf(s.q, PcOf(s, t).r).waiting|
    ensures var s', r := BlockingSection(s, t, place, expired), PcOf(s, t).r;
      var side, nothing := SideOf(s.q, r), if r.Send? then s.q.items == s.q.length else s.q.items == 0;
      && s'.holder == {} && (forall u :: u != t ==> PcOf(s', u) == PcOf(s, u))
      && PcOf(s', t) == (if expired then if r.Send? then Outside else Expired(r)
                         else if nothing then Asleep(r) else Entering(r))
      && s'.q == if !expired && nothing
                 then WithSide(s.q, r, side.(waiting := side.waiting[..place] + [t] + side.waiting[place..]))
                 else s.q
  {
    assert s.q.receivers.lock == s.q.senders.lock == UNLOCKED by { hide SideOk, PlacingOk, OverwritesOk; }
    hide Decided, Inv, SideOk;
    var s1 := Decided(s, t, place, expired);
    Unlocks(s1, t);
  }

  // A sleeper whose time is over leaves the list, and can go on; the others keep their order.
  lemma TimesOutExactly(s: System, t: Task)
    requires Inv(s) && Enabled(s, TimeOut(t))
    ensures var s', r := Apply(s, TimeOut(t)), PcOf(s, t).r;
      && Enabled(s', RunAgain(t)) && PcOf(Apply(s', RunAgain(t)), t) == Entering(r)
      && t !in SideOf(s'.q, r).waiting
      && exists i: nat :: i < |SideOf(s.q, r).waiting| && SideOf(s.q, r).waiting[i] == t
           && SideOf(s'.q, r).waiting == SideOf(s.q, r).waiting[..i] + SideOf(s.q, r).waiting[i + 1..]
  {
    TimeOutSides(s, t);
    var waiting := SideOf(s.q, PcOf(s, t).r).waiting;
    assert NoDup(waiting);
    hide SideOk, HolderOk, PlacingOk, OverwritesOk;
    var i := Find(waiting, t);
    assert Cut(waiting, i) == waiting[..i] + waiting[i + 1..];
  }

  // A task that has been woken for an item (space) and can go on by its own steps.
  predicate CanGoOn(s: System, t: Task) {
    (PcOf(s, t).Asleep? && t !in SideOf(s.q, PcOf(s, t).r).waiting) || PcOf(s, t).Entering?
  }

  lemma WokenCanGoOn(s: System, side: Side, receiving: bool)
    requires Inv(s) && s.holder == {} && side == (if receiving then s.q.receivers else s.q.senders) && side.woken != {}
    ensures exists t :: t in side.woken && CanGoOn(s, t) && Receives(PcOf(s, t).r) == receiving
  {
    var t :| t in side.woken;
    assert !Holding(PcOf(s, t));
    assert CanGoOn(s, t);
  }

  // Whenever the scheduler runs, no task sleeps on an item or a space that nobody was woken for.
  lemma NoLostWakeUp(run: seq<System>, steps: seq<Step>, length: nat, items: nat, n: nat)
    requires IsRun(run, steps) && n < |run| && items <= length && run[0] == Initial(length, items)
    requires run[n].holder == {}
    ensures run[n].q.receivers.waiting != [] ==> run[n].q.items <= |run[n].q.receivers.woken|
    ensures run[n].q.senders.waiting != [] ==> Spaces(run[n].q) <= |run[n].q.senders.woken|
    ensures run[n].q.receivers.waiting != [] && run[n].q.items > 0 ==>
      exists t :: t in run[n].q.receivers.woken && CanGoOn(run[n], t) && Receives(PcOf(run[n], t).r)
    ensures run[n].q.senders.waiting != [] && Spaces(run[n].q) > 0 ==>
      exists t :: t in run[n].q.senders.woken && CanGoOn(run[n], t) && !Receives(PcOf(run[n], t).r)
  {
    hide IsRun, SideOk;
    var s := run[n];
    RunKeeps(run, steps, length, items, n);
    if s.q.receivers.waiting != [] && s.q.items > 0 { WokenCanGoOn(s, s.q.receivers, true); }
    if s.q.senders.waiting != [] && Spaces(s.q) > 0 { WokenCanGoOn(s, s.q.senders, false); }
  }

  predicate Blocked(s: System, t: Task) { PcOf(s, t).Asleep? && t in SideOf(s.q, PcOf(s, t).r).waiting }

  // A queue at rest, with every task outside or asleep on a list, has not both items and waiting
  // receivers, nor both spaces and waiting senders.
  lemma NothingLeftBehind(run: seq<System>, steps: seq<Step>, length: nat, items: nat, n: nat)
    requires IsRun(run, steps) && n < |run| && items <= length && run[0] == Initial(length, items)
    requires forall t :: PcOf(run[n], t).Outside? || Blocked(run[n], t)
    ensures run[n].q.items == 0 || run[n].q.receivers.waiting == []
    ensures Spaces(run[n].q) == 0 || run[n].q.senders.waiting == []
  {
    hide IsRun, SideOk;
    var s := run[n];
    RunKeeps(run, steps, length, items, n);
    assert s.holder == {} by {
      forall t ensures t !in s.holder { assert !Holding(PcOf(s, t)); }
    }
    NoLostWakeUp(run, steps, length, items, n);
  }
}
