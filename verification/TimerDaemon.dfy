// The timer service task: expiry, list switching and commands, with each timer's account kept in true time.
module TimerDaemon {
  import opened TickTime
  import opened TimerLists

  // ----- The account of one timer -----

  // The true time of the k-th expiry of a timer started at true time c.
  function ExpiryTime(c: nat, k: nat, period: Tick): nat { c + k * period }

  lemma NextExpiry(c: nat, k: nat, period: Tick)
    ensures ExpiryTime(c, k + 1, period) == ExpiryTime(c, k, period) + period && ExpiryTime(c, 0, period) == c
  {
  }

  // After k callbacks exactly one thing is outstanding: the expiry number k + 1 on a list, or a
  // start command relative to expiry number k. A one-shot timer owes nothing after its callback.
  // No callback is made before its expiry.
  ghost predicate Owes(c: nat, k: nat, period: Tick, autoReload: bool, due: Due, time: nat) {
    && ExpiryTime(c, k, period) <= time
    && (!autoReload ==> k == if due.Idle? then 1 else 0)
    && match due
       case Idle => !autoReload
       case Listed(expiry) => expiry == ExpiryTime(c, k + 1, period)
       case Queued(value) => value == ExpiryTime(c, k, period)
  }

  // A timer on a list that expires owes, if it reloads, its next expiry or a restart from this one.
  lemma ExpiredOwes(c: nat, k: nat, period: Tick, autoReload: bool, expiry: nat, after: Due, time: nat)
    requires Owes(c, k, period, autoReload, Listed(expiry), time) && expiry <= time
    requires if autoReload then after == Listed(expiry + period) || after == Queued(expiry) else after == Idle
    ensures Owes(c, k + 1, period, autoReload, after, time)
  {
    hide ExpiryTime;
    NextExpiry(c, k, period);
    NextExpiry(c, k + 1, period);
  }

  // What is known of every timer: its callbacks so far, and when it was started if it was.
  datatype Accounts = Accounts(period: map<TimerId, Tick>, autoReload: set<TimerId>, started: map<TimerId, nat>,
                               callbacks: map<TimerId, nat>, due: map<TimerId, Due>)

  ghost predicate Covers(a: Accounts) {
    a.period.Keys == a.due.Keys == a.callbacks.Keys && forall t :: t in a.period ==> a.period[t] > 0
  }

  ghost predicate OwesNext(a: Accounts, t: TimerId, time: nat)
    requires Covers(a) && t in a.due
  {
    if t in a.started then Owes(a.started[t], a.callbacks[t], a.period[t], t in a.autoReload, a.due[t], time)
    else a.due[t].Idle? && a.callbacks[t] == 0
  }

  // Timers in hand are being processed; every other timer's account is in order.
  ghost predicate Settled(a: Accounts, hand: set<TimerId>, time: nat) {
    && Covers(a) && (forall t :: t in hand ==> t in a.due && a.due[t].Idle?)
    && forall t :: t in a.due && t !in hand ==> OwesNext(a, t, time)
  }

  lemma AccountOf(a: Accounts, hand: set<TimerId>, time: nat, t: TimerId)
    requires Settled(a, hand, time) && t in a.due && !a.due[t].Idle?
    ensures t !in hand && t in a.started && OwesNext(a, t, time)
    ensures t in a.period && t in a.callbacks && a.period[t] > 0
    ensures Owes(a.started[t], a.callbacks[t], a.period[t], t in a.autoReload, a.due[t], time)
  {
  }

  // Only timer t's account changes.
  ghost predicate OnlyFor(a: Accounts, after: Accounts, t: TimerId) {
    && after.period == a.period && after.autoReload == a.autoReload && after.due.Keys == a.due.Keys
    && after.callbacks.Keys == a.callbacks.Keys
    && (forall u :: u != t ==> (u in a.started <==> u in after.started))
    && (forall u :: u != t && u in a.started ==> after.started[u] == a.started[u])
    && (forall u :: u != t && u in a.due ==> after.due[u] == a.due[u])
    && (forall u :: u != t && u in a.callbacks ==> after.callbacks[u] == a.callbacks[u])
  }

  lemma SettledButFor(a: Accounts, after: Accounts, hand: set<TimerId>, time: nat, t: TimerId)
    requires Settled(a, hand, time) && t in a.due && t !in hand && OnlyFor(a, after, t)
    requires Covers(after) && OwesNext(after, t, time)
    ensures Settled(after, hand, time)
  {
    forall u | u in after.due && u !in hand ensures OwesNext(after, u, time) {
      if u != t { assert OwesNext(a, u, time); }
    }
  }

  // The callback of t is called and something new, or nothing, is outstanding for it.
  function Fired(a: Accounts, t: TimerId, due: Due): Accounts
    requires t in a.callbacks
  {
    a.(callbacks := a.callbacks[t := a.callbacks[t] + 1], due := a.due[t := due])
  }

  lemma FiredSettled(a: Accounts, hand: set<TimerId>, time: nat, t: TimerId, after: Due)
    requires Settled(a, hand, time) && t in a.due && a.due[t].Listed? && a.due[t].expiry <= time
    requires if t !in a.autoReload then after == Idle
             else t in a.period && (after == Listed(a.due[t].expiry + a.period[t]) || after == Queued(a.due[t].expiry))
    ensures t in a.callbacks && Settled(Fired(a, t, after), hand, time)
  {
    hide Settled, Owes;
    AccountOf(a, hand, time, t);
    HandIn(a, hand, time);
    ExpiredOwes(a.started[t], a.callbacks[t], a.period[t], t in a.autoReload, a.due[t].expiry, after, time);
    SettledButFor(a, Fired(a, t, after), hand, time, t);
  }

  // The account of a timer that is started at true time now.
  function Started(a: Accounts, now: nat, t: TimerId): Accounts {
    a.(started := a.started[t := now], callbacks := a.callbacks[t := 0], due := a.due[t := Queued(now)])
  }

  lemma StartedSettled(a: Accounts, now: nat, t: TimerId)
    requires Settled(a, {}, now) && t in a.due
    ensures Settled(Started(a, now, t), {}, now)
  {
    HandIn(a, {}, now);
    hide Settled, ExpiryTime;
    NextExpiry(now, 0, a.period[t]);
    SettledButFor(a, Started(a, now, t), {}, now, t);
  }

  lemma PeriodsOk(a: Accounts, hand: set<TimerId>, time: nat)
    requires Settled(a, hand, time)
    ensures a.due.Keys == a.callbacks.Keys == a.period.Keys && forall t :: t in a.period ==> a.period[t] > 0
    ensures forall t :: t in hand ==> t in a.due && a.due[t].Idle?
  {
  }

  lemma HandIn(a: Accounts, hand: set<TimerId>, time: nat)
    requires Settled(a, hand, time)
    ensures Covers(a) && forall t :: t in hand ==> t in a.due && a.due[t].Idle?
  {
  }

  lemma InHand(a: Accounts, time: nat, t: TimerId)
    requires Settled(a, {}, time) && t in a.due
    ensures Settled(a.(due := a.due[t := Idle]), {t}, time)
  {
    var after := a.(due := a.due[t := Idle]);
    forall u | u in after.due && u !in {t} ensures OwesNext(after, u, time) { assert OwesNext(a, u, time); }
  }

  // A start command relative to true time from has been carried out: the timer was filed, or, its
  // expiry being past, its callback called.
  lemma CommandOwes(c: nat, k: nat, period: Tick, autoReload: bool, from: nat, expired: bool, after: Due, time: nat)
    requires Owes(c, k, period, autoReload, Queued(from), time) && (expired ==> from + period <= time)
    requires after == if !expired then Listed(from + period) else if autoReload then Queued(from + period) else Idle
    ensures Owes(c, if expired then k + 1 else k, period, autoReload, after, time)
  {
    hide ExpiryTime;
    NextExpiry(c, k, period);
    NextExpiry(c, k + 1, period);
  }

  // The timer in hand goes back with its callbacks and what is outstanding for it.
  function PutBack(a: Accounts, t: TimerId, calls: nat, due: Due): Accounts {
    a.(callbacks := a.callbacks[t := calls], due := a.due[t := due])
  }

  lemma PutBackSettled(a: Accounts, time: nat, t: TimerId, calls: nat, due: Due)
    requires Settled(a, {t}, time) && t in a.started && t in a.period
    requires Owes(a.started[t], calls, a.period[t], t in a.autoReload, due, time)
    ensures Settled(PutBack(a, t, calls, due), {}, time)
  {
    hide Owes;
    var after := PutBack(a, t, calls, due);
    forall u | u in after.due ensures OwesNext(after, u, time) { if u != t { assert OwesNext(a, u, time); } }
  }

  // Between two expiries the number of callbacks is the whole number of periods gone by.
  lemma CallbacksAreExact(c: nat, k: nat, period: Tick, now: nat)
    requires period > 0
    ensures ExpiryTime(c, k, period) <= now < ExpiryTime(c, k + 1, period) <==> c <= now && k == (now - c) / period
  {
    if c <= now {
      var q := (now - c) / period;
      assert now - c == q * period + (now - c) % period;
      if k < q { Monotone(k + 1, q, period); }
      if q < k { Monotone(q + 1, k, period); }
    }
  }

  lemma Monotone(i: nat, j: nat, period: Tick)
    requires i <= j
    ensures i * period <= j * period
  {
    assert j * period == i * period + (j - i) * period;
  }

  // At true time x every timer is less than a counter period late.
  ghost predicate Punctual(due: map<TimerId, Due>, x: nat) {
    forall t :: t in due && !due[t].Idle? ==> x < Since(due[t]) + TICK_RANGE
  }

  function Since(d: Due): nat
    requires !d.Idle?
  {
    if d.Listed? then d.expiry else d.value
  }

  ghost predicate NoLater(due: map<TimerId, Due>, after: map<TimerId, Due>) {
    forall x: nat :: Punctual(due, x) ==> Punctual(after, x)
  }

  function Total(elapsed: seq<nat>): nat { if elapsed == [] then 0 else elapsed[0] + Total(elapsed[1..]) }

  lemma OneNoLater(due: map<TimerId, Due>, t: TimerId, d: Due)
    requires t in due && !due[t].Idle? && (d.Idle? || Since(d) >= Since(due[t]))
    ensures NoLater(due, due[t := d])
  {
  }

  // ----- What is left to do -----

  // How many steps a timer may still need at true time n: one for each restart command and each expiry
  // that is due by then.
  function Left(d: Due, n: nat): nat {
    match d
    case Idle => 0
    case Listed(expiry) => if expiry <= n then 2 * (n - expiry) + 2 else 0
    case Queued(value) => if value <= n then 2 * (n - value) + 1 else 0
  }

  ghost function Work(due: map<TimerId, Due>, n: nat): nat
    decreases |due|
  {
    if due == map[] then 0 else
    var t :| t in due;
    assert |due - {t}| < |due|;
    Left(due[t], n) + Work(due - {t}, n)
  }

  lemma {:induction false} WorkWithout(due: map<TimerId, Due>, t: TimerId, n: nat)
    requires t in due
    ensures Work(due, n) == Left(due[t], n) + Work(due - {t}, n)
    decreases |due|
  {
    hide Left;
    var u :| u in due && Work(due, n) == Left(due[u], n) + Work(due - {u}, n);
    if u != t {
      WorkWithout(due - {u}, t, n);
      WorkWithout(due - {t}, u, n);
      assert due - {u} - {t} == due - {t} - {u};
    }
  }

  // No timer has more left to do.
  ghost predicate Forward(due: map<TimerId, Due>, after: map<TimerId, Due>, n: nat) {
    after.Keys == due.Keys && forall t :: t in due ==> Left(after[t], n) <= Left(due[t], n)
  }

  lemma {:induction false} ForwardWork(due: map<TimerId, Due>, after: map<TimerId, Due>, n: nat)
    requires Forward(due, after, n)
    ensures Work(after, n) <= Work(due, n)
    decreases |due|
  {
    hide Left, Work;
    if due == map[] {
      assert after == due;
    } else {
      var u :| u in due;
      WorkWithout(due, u, n);
      WorkWithout(after, u, n);
      assert (after - {u}).Keys == (due - {u}).Keys;
      ForwardWork(due - {u}, after - {u}, n);
    }
  }

  lemma LessWork(due: map<TimerId, Due>, after: map<TimerId, Due>, t: TimerId, n: nat)
    requires Forward(due, after, n) && t in due && Left(after[t], n) < Left(due[t], n)
    ensures Work(after, n) < Work(due, n)
  {
    hide Left, Work;
    WorkWithout(due, t, n);
    WorkWithout(after, t, n);
    assert (after - {t}).Keys == (due - {t}).Keys;
    ForwardWork(due - {t}, after - {t}, n);
  }

  // What becomes of a timer that expires at true time e, handled by true time n.
  function Reloaded(autoReload: bool, period: Tick, e: nat, n: nat): Due {
    if !autoReload then Idle else if e + period <= n then Queued(e) else Listed(e + period)
  }

  // What becomes of one whose start command is relative to true time from.
  function Restarted(autoReload: bool, period: Tick, from: nat, n: nat): Due {
    if from + period > n then Listed(from + period) else if autoReload then Queued(from + period) else Idle
  }

  // The timer that expired goes on.
  lemma ExpiryForward(was: map<TimerId, Due>, t: TimerId, autoReload: bool, period: Tick, n: nat)
    requires t in was && was[t].Listed? && was[t].expiry <= n && period > 0
    ensures var d := Reloaded(autoReload, period, was[t].expiry, n);
      NoLater(was, was[t := d]) && Forward(was, was[t := d], n) && Left(d, n) < Left(was[t], n)
  {
    var d := Reloaded(autoReload, period, was[t].expiry, n);
    OneNoLater(was, t, d);
    OneForward(was, t, d, period, n);
  }

  // The command in hand is carried out: its timer has less left to do.
  lemma CommandForward(was: map<TimerId, Due>, mid: map<TimerId, Due>, t: TimerId, autoReload: bool, period: Tick,
                       n: nat)
    requires t in was && was[t].Queued? && was[t].value <= n && period > 0 && Forward(was[t := Idle], mid, n)
    ensures var after := mid[t := Restarted(autoReload, period, was[t].value, n)];
      Forward(was, after, n) && Work(after, n) < Work(was, n)
  {
    var after := mid[t := Restarted(autoReload, period, was[t].value, n)];
    assert Left(after[t], n) < Left(was[t], n);
    forall u | u in was ensures Left(after[u], n) <= Left(was[u], n) {
      if u != t { assert Left(mid[u], n) <= Left(was[t := Idle][u], n); }
    }
    hide Left, Work, Restarted;
    LessWork(was, after, t, n);
  }

  lemma ForwardTrans(a: map<TimerId, Due>, b: map<TimerId, Due>, c: map<TimerId, Due>, n: nat)
    requires Forward(a, b, n) && Forward(b, c, n)
    ensures Forward(a, c, n)
  {
    hide Left;
  }

  lemma OneForward(due: map<TimerId, Due>, t: TimerId, d: Due, period: Tick, n: nat)
    requires t in due && !due[t].Idle? && Since(due[t]) <= n && period > 0
    requires d == Idle || d == Listed(Since(due[t]) + period)
          || (due[t].Listed? && d == Queued(due[t].expiry)) || (due[t].Queued? && d == Queued(due[t].value + period))
    ensures Forward(due, due[t := d], n) && Left(d, n) < Left(due[t], n)
  {
  }

  lemma Unmoved(due: map<TimerId, Due>, calls: map<TimerId, nat>, n: nat)
    ensures NoLater(due, due) && Forward(due, due, n) && CalledOn(due, calls, due, calls)
  {
  }

  // Timers are called or left alone, and those with something else outstanding have been called.
  ghost predicate CalledOn(due: map<TimerId, Due>, calls: map<TimerId, nat>,
                           due': map<TimerId, Due>, calls': map<TimerId, nat>)
  {
    && due'.Keys == due.Keys && calls'.Keys == calls.Keys
    && forall t :: t in due && t in calls ==>
         calls'[t] >= calls[t] && (due'[t] != due[t] ==> calls'[t] > calls[t])
  }

  lemma OneCalled(due: map<TimerId, Due>, calls: map<TimerId, nat>, t: TimerId, d: Due)
    requires t in due && t in calls
    ensures CalledOn(due, calls, due[t := d], calls[t := calls[t] + 1])
  {
  }

  lemma CalledOnTrans(due: map<TimerId, Due>, calls: map<TimerId, nat>, due1: map<TimerId, Due>,
                      calls1: map<TimerId, nat>, due2: map<TimerId, Due>, calls2: map<TimerId, nat>)
    requires CalledOn(due, calls, due1, calls1) && CalledOn(due1, calls1, due2, calls2)
    ensures CalledOn(due, calls, due2, calls2)
  {
  }

  lemma EpochOrder(a: nat, b: nat)
    ensures Epoch(a) < Epoch(b) ==> a < b
    ensures Epoch(a) == Epoch(b) ==> (Wrap(a) <= Wrap(b) <==> a <= b)
  {
    SplitTime(a);
    SplitTime(b);
  }

  class Daemon {
    const period: map<TimerId, Tick>       // xTimerPeriodInTicks of each timer
    const autoReload: set<TimerId>         // those with uxAutoReload
    const queueLength: nat                 // configTIMER_QUEUE_LENGTH
    var pxCurrentTimerList: seq<Entry>
    var pxOverflowTimerList: seq<Entry>
    var xTimerQueue: seq<Entry>
    var xLastTime: Tick
    var time: nat                          // true time: xTickCount is its wrapped value
    ghost var callbacks: map<TimerId, nat> // how often each callback has been called since its timer was started
    ghost var due: map<TimerId, Due>
    ghost var last: nat                    // the true time of the last reading
    ghost var started: map<TimerId, nat>   // when each started timer was started

    ghost function Lists(): TimerLists.Books
      reads this
    {
      TimerLists.Books(pxCurrentTimerList, pxOverflowTimerList, xTimerQueue, due, last)
    }

    ghost function Books(): Accounts
      reads this
    {
      Accounts(period, autoReload, started, callbacks, due)
    }

    // The queue has a place for each timer.
    ghost predicate Placed(hand: set<TimerId>)
      reads this
    {
      Settled(Books(), hand, time) && Filed(Lists()) && |due.Keys| <= queueLength && last <= time
    }

    ghost predicate ValidBut(hand: set<TimerId>)
      reads this
    {
      Placed(hand) && xLastTime == Wrap(last)
    }

    ghost predicate Valid()
      reads this
    {
      ValidBut({})
    }

    constructor (periods: map<TimerId, Tick>, reloading: set<TimerId>, length: nat)
      requires (forall t :: t in periods ==> periods[t] > 0) && |periods.Keys| <= length
      ensures Valid() && period == periods && autoReload == reloading && started == map[]
    {
      period, autoReload, queueLength := periods, reloading, length;
      pxCurrentTimerList, pxOverflowTimerList, xTimerQueue := [], [], [];
      xLastTime, time, last := 0, 0, 0;
      callbacks := map t | t in periods :: 0;
      due := map t | t in periods :: Idle;
      started := map[];
    }

    // Time passes.
    method Elapse(ticks: nat)
      requires Valid()
      modifies this`time
      ensures Valid() && time == old(time) + ticks
    {
      time := time + ticks;
    }

    // xTimerGenericCommand with a start command
    method SendStart(t: TimerId, value: Tick) returns (sent: bool)
      modifies this`xTimerQueue
      ensures sent == (old(|xTimerQueue|) < queueLength)
      ensures xTimerQueue == if sent then old(xTimerQueue) + [Entry(value, t)] else old(xTimerQueue)
    {
      sent := |xTimerQueue| < queueLength;
      if sent { xTimerQueue := xTimerQueue + [Entry(value, t)]; }
    }

    // The call of a timer's function.
    method Callback(t: TimerId)
      requires t in callbacks
      modifies this`callbacks
      ensures callbacks == old(callbacks)[t := old(callbacks[t]) + 1]
    {
      callbacks := callbacks[t := callbacks[t] + 1];
    }

    // A timer in hand has no command, so there is room for one.
    lemma Room(t: TimerId)
      requires Filed(Lists()) && t in due && due[t].Idle? && |due.Keys| <= queueLength
      ensures |xTimerQueue| < queueLength
    {
      forall e | e in xTimerQueue ensures e.timer in due.Keys - {t} {}
      RoomToCommand(xTimerQueue, due.Keys - {t});
    }

    // xTimerStart, for a timer that is not active: one never started, or a one-shot timer that is over.
    // The command always fits, and the account of the timer begins anew at this time.
    method Start(t: TimerId) returns (sent: bool)
      requires Valid() && t in period && (t in due ==> due[t].Idle?)
      modifies this
      ensures Valid() && sent && started == old(started)[t := old(time)] && time == old(time)
      ensures callbacks == old(callbacks)[t := 0] && due == old(due)[t := Queued(old(time))]
    {
      hide Filed, ExpiryTime, Wrap, Settled, Covers, OwesNext;
      ghost var was := Books();
      PeriodsOk(was, {}, time);
      Room(t);
      CommandingFiled(Lists(), t, time);
      StartedSettled(was, time, t);
      sent := SendStart(t, Wrap(time));
      due := due[t := Queued(time)];
      started := started[t := time];
      callbacks := callbacks[t := 0];
      assert Books() == Started(was, time, t);
    }

    // The daemon's own restart commands: the queue is never full, so the assertion on sending one holds.
    method SendRestart(t: TimerId, value: Tick, ghost from: nat)
      requires Filed(Lists()) && |due.Keys| <= queueLength && t in due && due[t].Idle? && value == Wrap(from)
      modifies this`xTimerQueue, this`due
      ensures Filed(Lists()) && due == old(due)[t := Queued(from)]
    {
      hide Filed, Wrap;
      Room(t);
      CommandingFiled(Lists(), t, from);
      var xResult := SendStart(t, value);
      assert xResult;
      due := due[t := Queued(from)];
    }

    // ----- Switching the lists -----

    // The reload of a timer that expired in an epoch that is over.
    method ReloadInEpoch(t: TimerId, xNextExpireTime: Tick, ghost expiry: nat)
      requires Filed(Lists()) && |due.Keys| <= queueLength && t in due && due[t].Idle? && t in period && period[t] > 0
      requires Wrap(expiry) == xNextExpireTime && Epoch(expiry) == Epoch(last)
      modifies this`pxCurrentTimerList, this`xTimerQueue, this`due
      ensures Filed(Lists()) && t in due && due == old(due)[t := due[t]]
      ensures (due[t] == Listed(expiry + period[t]) || due[t] == Queued(expiry))
      ensures Remaining(pxCurrentTimerList) < old(Remaining(pxCurrentTimerList)) + TICK_RANGE - xNextExpireTime
    {
      hide Filed, InsertEntry, Epoch, Wrap, Remaining;
      var xReloadTime := TickAdd(xNextExpireTime, period[t]);
      SumWraps(expiry, period[t]);
      if xReloadTime > xNextExpireTime {
        ListingFiled(Lists(), t, expiry + period[t]);
        InsertRemaining(pxCurrentTimerList, Entry(xReloadTime, t));
        pxCurrentTimerList := InsertEntry(pxCurrentTimerList, Entry(xReloadTime, t));
        due := due[t := Listed(expiry + period[t])];
      } else {
        SendRestart(t, xNextExpireTime, expiry);
      }
    }

    // The timer at the head of the current list is taken off it.
    method TakeHead() returns (t: TimerId, xNextExpireTime: Tick)
      requires Filed(Lists()) && pxCurrentTimerList != []
      modifies this`pxCurrentTimerList, this`due
      ensures Filed(Lists()) && t in old(due) && due == old(due)[t := Idle] && old(due)[t].Listed?
      ensures Wrap(old(due)[t].expiry) == xNextExpireTime && Epoch(old(due)[t].expiry) == Epoch(last)
      ensures Entry(xNextExpireTime, t) == old(pxCurrentTimerList[0])
      ensures Remaining(pxCurrentTimerList) + TICK_RANGE - xNextExpireTime == old(Remaining(pxCurrentTimerList))
    {
      hide Filed, Epoch, Wrap;
      HeadIsFiled(Lists());
      HeadTakenFiled(Lists());
      xNextExpireTime := pxCurrentTimerList[0].value;
      t := pxCurrentTimerList[0].timer;
      pxCurrentTimerList := pxCurrentTimerList[1..];
      due := due[t := Idle];
    }

    // The timer has been called and what is outstanding for it is on the books.
    lemma FiredHere(was: Accounts, hand: set<TimerId>, t: TimerId)
      requires Settled(was, hand, time) && t in was.due && was.due[t].Listed? && was.due[t].expiry <= time
      requires was.period == period && was.autoReload == autoReload && was.started == started
      requires t in was.callbacks && callbacks == was.callbacks[t := was.callbacks[t] + 1]
      requires t in due && due == was.due[t := due[t]]
      requires if t !in autoReload then due[t] == Idle
               else t in period && (|| due[t] == Listed(was.due[t].expiry + period[t])
                                    || due[t] == Queued(was.due[t].expiry))
      ensures Settled(Books(), hand, time)
    {
      hide Settled;
      FiredSettled(was, hand, time, t, due[t]);
      assert Books() == Fired(was, t, due[t]);
    }

    // What happens to a timer that expires while the lists are being switched.
    method DrainHead(ghost hand: set<TimerId>)
      requires Placed(hand) && pxCurrentTimerList != [] && Epoch(time) == Epoch(last) + 1
      modifies this`pxCurrentTimerList, this`xTimerQueue, this`callbacks, this`due
      ensures Placed(hand) && Remaining(pxCurrentTimerList) < old(Remaining(pxCurrentTimerList))
      ensures forall t :: t in hand ==> t in callbacks && t in old(callbacks) && callbacks[t] == old(callbacks[t])
      ensures NoLater(old(due), due) && Forward(old(due), due, time)
      ensures CalledOn(old(due), old(callbacks), due, callbacks)
    {
      hide Filed, Epoch, Wrap, Settled, Owes, Remaining, Covers, NoLater, Forward, CalledOn, Left;
      ghost var was := Books();
      PeriodsOk(was, hand, time);
      var t, xNextExpireTime := TakeHead();
      ghost var expiry := was.due[t].expiry;
      EpochOrder(expiry, time);
      Callback(t);
      if t in autoReload { ReloadInEpoch(t, xNextExpireTime, expiry); }
      FiredHere(was, hand, t);
      OneNoLater(was.due, t, due[t]);
      OneForward(was.due, t, due[t], period[t], time);
      OneCalled(was.due, was.callbacks, t, due[t]);
    }

    // prvSwitchTimerLists
    method SwitchTimerLists(ghost hand: set<TimerId>)
      requires Placed(hand) && Epoch(time) == Epoch(last) + 1
      modifies this`pxCurrentTimerList, this`pxOverflowTimerList, this`xTimerQueue, this`callbacks, this`due, this`last
      ensures Placed(hand) && last == time && NoLater(old(due), due) && Forward(old(due), due, time)
      ensures CalledOn(old(due), old(callbacks), due, callbacks)
      ensures forall t :: t in hand ==> t in callbacks && t in old(callbacks) && callbacks[t] == old(callbacks[t])
    {
      hide Filed, Settled, Epoch, Forward, CalledOn, NoLater;
      HandIn(Books(), hand, time);
      Unmoved(due, callbacks, time);
      while pxCurrentTimerList != []
        invariant Placed(hand) && last == old(last) && NoLater(old(due), due) && Forward(old(due), due, time)
        invariant CalledOn(old(due), old(callbacks), due, callbacks)
        invariant forall t :: t in hand ==> t in callbacks && t in old(callbacks) && callbacks[t] == old(callbacks[t])
        decreases Remaining(pxCurrentTimerList)
      {
        ghost var was := Books();
        DrainHead(hand);
        NoLaterTrans(old(due), was.due, due, time);
        ForwardTrans(old(due), was.due, due, time);
        CalledOnTrans(old(due), old(callbacks), was.due, was.callbacks, due, callbacks);
      }
      TurnFiled(Lists(), time);
      pxCurrentTimerList, pxOverflowTimerList := pxOverflowTimerList, pxCurrentTimerList;
      last := time;
    }

    // prvSampleTimeNow, called within a counter period of the last reading
    method SampleTimeNow(ghost hand: set<TimerId>) returns (xTimeNow: Tick, switched: bool)
      requires ValidBut(hand) && time < last + TICK_RANGE
      modifies this`pxCurrentTimerList, this`pxOverflowTimerList, this`xTimerQueue, this`callbacks, this`due,
        this`last, this`xLastTime
      ensures ValidBut(hand) && last == time && xTimeNow == Wrap(time) == xLastTime
      ensures NoLater(old(due), due) && Forward(old(due), due, time)
      ensures switched <==> Epoch(time) != Epoch(old(last))
      ensures !switched ==>
        && pxCurrentTimerList == old(pxCurrentTimerList) && pxOverflowTimerList == old(pxOverflowTimerList)
        && xTimerQueue == old(xTimerQueue) && due == old(due) && callbacks == old(callbacks)
      ensures CalledOn(old(due), old(callbacks), due, callbacks)
      ensures forall t :: t in hand ==> t in callbacks && t in old(callbacks) && callbacks[t] == old(callbacks[t])
    {
      hide Filed, Settled, Epoch, Wrap, Forward, CalledOn, NoLater;
      HandIn(Books(), hand, time);
      Unmoved(due, callbacks, time);
      WrapSeen(last, time);
      xTimeNow := Wrap(time);
      switched := xTimeNow < xLastTime;
      if switched {
        SwitchTimerLists(hand);
      } else {
        LaterFiled(Lists(), time);
        last := time;
      }
      xLastTime := xTimeNow;
    }

    lemma HeadIsFiled(b: TimerLists.Books)
      requires Filed(b) && b.current != []
      ensures b.current[0].timer in b.due && b.due[b.current[0].timer].Listed?
      ensures Wrap(b.due[b.current[0].timer].expiry) == b.current[0].value
      ensures Epoch(b.due[b.current[0].timer].expiry) == Epoch(b.last)
    {
      assert b.current[0] in b.current;
    }

    // ----- Expiry -----

    // prvInsertTimerInActiveList, for a command relative to true time from that is handled at true time
    // now: a timer that has expired by now is left to the caller, and any other is filed in order on the
    // list of the epoch it expires in.
    method InsertTimerInActiveList(t: TimerId, xNextExpiryTime: Tick, xTimeNow: Tick, xCommandTime: Tick,
                                   ghost from: nat, ghost now: nat)
      returns (processNow: bool)
      requires t in period && period[t] > 0 && from <= now < from + TICK_RANGE
      requires xNextExpiryTime == TickAdd(xCommandTime, period[t])
      requires xTimeNow == Wrap(now) && xCommandTime == Wrap(from)
      modifies this`pxCurrentTimerList, this`pxOverflowTimerList
      ensures processNow <==> from + period[t] <= now
      ensures !processNow && Epoch(from + period[t]) == Epoch(now) ==>
        pxCurrentTimerList == InsertEntry(old(pxCurrentTimerList), Entry(Wrap(from + period[t]), t))
      ensures !processNow && Epoch(from + period[t]) != Epoch(now) ==>
        pxOverflowTimerList == InsertEntry(old(pxOverflowTimerList), Entry(Wrap(from + period[t]), t))
      ensures processNow || Epoch(from + period[t]) != Epoch(now) ==> pxCurrentTimerList == old(pxCurrentTimerList)
      ensures processNow || Epoch(from + period[t]) == Epoch(now) ==> pxOverflowTimerList == old(pxOverflowTimerList)
      ensures !processNow ==> Epoch(now) <= Epoch(from + period[t]) <= Epoch(now) + 1
    {
      ClassifyExactly(from, now, period[t]);
      hide Epoch, Wrap, TickAdd, InsertEntry;
      processNow := false;
      if xNextExpiryTime <= xTimeNow {
        if TickSub(xTimeNow, xCommandTime) >= period[t] {
          processNow := true;
        } else {
          pxOverflowTimerList := InsertEntry(pxOverflowTimerList, Entry(xNextExpiryTime, t));
        }
      } else if xTimeNow < xCommandTime && xNextExpiryTime >= xCommandTime {
        processNow := true;
      } else {
        pxCurrentTimerList := InsertEntry(pxCurrentTimerList, Entry(xNextExpiryTime, t));
      }
    }

    // A timer in hand is filed for the expiry that follows true time from, unless that is past.
    method FileFrom(t: TimerId, xTimeNow: Tick, from: Tick, ghost trueFrom: nat) returns (processNow: bool)
      requires xTimeNow == Wrap(last) && Filed(Lists()) && t in due && due[t].Idle? && t in period && period[t] > 0
      requires from == Wrap(trueFrom) && trueFrom <= last < trueFrom + TICK_RANGE
      modifies this`pxCurrentTimerList, this`pxOverflowTimerList, this`due
      ensures Filed(Lists()) && processNow == (trueFrom + period[t] <= last)
      ensures due == if processNow then old(due) else old(due)[t := Listed(trueFrom + period[t])]
    {
      hide Filed, InsertEntry, Epoch, Wrap, Classify, TickAdd;
      ClassifyExactly(trueFrom, last, period[t]);
      ghost var was := Lists();
      processNow := InsertTimerInActiveList(t, TickAdd(from, period[t]), xTimeNow, from, trueFrom, last);
      if !processNow {
        ListingFiled(was, t, trueFrom + period[t]);
        due := due[t := Listed(trueFrom + period[t])];
      }
    }

    // The reload of a timer that has just expired: filed for its next expiry, or restarted if that is past.
    method Reload(t: TimerId, xTimeNow: Tick, xNextExpireTime: Tick, ghost expiry: nat)
      requires Filed(Lists()) && |due.Keys| <= queueLength && t in due && due[t].Idle? && t in period && period[t] > 0
      requires xTimeNow == Wrap(last) && xNextExpireTime == Wrap(expiry) && expiry <= last < expiry + TICK_RANGE
      modifies this`pxCurrentTimerList, this`pxOverflowTimerList, this`xTimerQueue, this`due
      ensures Filed(Lists()) && due == old(due)[t := Reloaded(true, period[t], expiry, last)]
    {
      hide Filed, Wrap;
      var processNow := FileFrom(t, xTimeNow, xNextExpireTime, expiry);
      if processNow {
        SendRestart(t, xNextExpireTime, expiry);
      }
    }

    // prvProcessExpiredTimer, for the head of the current list: it is due, its callback is called once, and
    // it goes on to its next expiry, or to a restart command if that is past as well.
    method ProcessExpiredTimer(xTimeNow: Tick) returns (ghost t: TimerId)
      requires Valid() && xTimeNow == xLastTime
      requires pxCurrentTimerList != [] && pxCurrentTimerList[0].value <= xTimeNow
      modifies this`pxCurrentTimerList, this`pxOverflowTimerList, this`xTimerQueue, this`callbacks, this`due
      ensures Valid() && t == old(pxCurrentTimerList[0]).timer && Fires(old(Books()), Books(), t, last)
      ensures NoLater(old(due), due) && Forward(old(due), due, last) && Left(due[t], last) < Left(old(due)[t], last)
    {
      hide Filed, Epoch, Wrap, Settled, Owes, OwesNext, Covers, Remaining, ExpiryTime, NoLater, Forward, Left;
      ghost var was := Books();
      PeriodsOk(was, {}, time);
      var timer, xNextExpireTime := TakeHead();
      t := timer;
      ghost var expiry := was.due[t].expiry;
      EpochOrder(expiry, last);
      NearEnough(expiry, last);
      if timer in autoReload { Reload(timer, xTimeNow, xNextExpireTime, expiry); }
      Callback(timer);
      FiredHere(was, {}, t);
      ExpiryForward(was.due, t, t in autoReload, period[t], last);
    }

    // Timer t was due by true time n; it alone has been called, once, and reloaded if it is to be.
    ghost predicate Fires(was: Accounts, now: Accounts, t: TimerId, n: nat)
      reads this
    {
      && t in was.due && was.due[t].Listed? && was.due[t].expiry <= n && t in period && t in was.callbacks
      && now.callbacks == was.callbacks[t := was.callbacks[t] + 1]
      && now.due == was.due[t := Reloaded(t in autoReload, period[t], was.due[t].expiry, n)]
    }

    lemma NearEnough(a: nat, b: nat)
      requires Epoch(a) == Epoch(b)
      ensures b < a + TICK_RANGE
    {
      SplitTime(a);
      SplitTime(b);
    }

    // prvProcessTimerOrBlockTask. The daemon blocks only when nothing on the current list has
    // expired, for exactly the time to the first expiry or, with none, to the next wrap.
    method ProcessTimerOrBlock() returns (blocked: bool, ticks: Tick, forever: bool)
      requires Valid() && time < last + TICK_RANGE
      modifies this
      ensures Valid() && last == time == old(time) && started == old(started)
      ensures blocked <==> Epoch(time) == Epoch(old(last)) && NoneExpired(old(pxCurrentTimerList), time)
      ensures blocked ==> Lists() == old(Lists()).(last := time) && callbacks == old(callbacks)
      ensures !blocked && Epoch(time) == Epoch(old(last)) ==>
        Fires(old(Books()), Books(), old(pxCurrentTimerList)[0].timer, time)
      ensures !blocked && Epoch(time) != Epoch(old(last)) ==> CalledOn(old(due), old(callbacks), due, callbacks)
      ensures Epoch(time) != Epoch(old(last)) ==> OldEpochCalled(old(Books()), Books(), time)
      ensures NoLater(old(due), due) && Forward(old(due), due, time)
      ensures !blocked && Epoch(time) == Epoch(old(last)) ==> Work(due, time) < old(Work(due, time))
      ensures blocked ==> forall t :: t in due && due[t].Listed? ==> due[t].expiry > time
      ensures blocked && ticks == 0 ==> Wrap(time) == 0
      ensures blocked && pxCurrentTimerList != [] ==> var t := pxCurrentTimerList[0].timer;
        t in due && due[t].Listed? && time + ticks == due[t].expiry && !forever
      ensures blocked && pxCurrentTimerList == [] ==>
        (time + ticks) % TICK_RANGE == 0 && (forever <==> pxOverflowTimerList == [])
    {
      hide Filed, Epoch, Wrap, Settled, Owes, Covers, NoLater, Forward, Left, Work, CalledOn, OldEpochCalled;
      ghost var was := Books();
      var xListWasEmpty := pxCurrentTimerList == [];
      var xNextExpireTime := if xListWasEmpty then 0 else pxCurrentTimerList[0].value;
      var xTimeNow, switched := SampleTimeNow({});
      blocked, ticks, forever := false, 0, false;
      if !switched {
        if !xListWasEmpty && xNextExpireTime <= xTimeNow {
          ghost var t := ProcessExpiredTimer(xTimeNow);
          LessWork(was.due, due, t, time);
        } else {
          NothingExpired(Lists());
          BlockTime(Lists());
          forever := xListWasEmpty && pxOverflowTimerList == [];
          ticks := TickSub(xNextExpireTime, xTimeNow);
          blocked := true;
        }
      } else {
        SwitchCalls(was, time);
      }
    }

    // The list, in order of expiry, holds nothing that has expired by true time n of its epoch.
    predicate NoneExpired(list: seq<Entry>, n: nat) { list != [] ==> list[0].value > Wrap(n) }

    // Each timer that was to expire in an epoch that is over has been called.
    ghost predicate OldEpochCalled(was: Accounts, now: Accounts, n: nat) {
      forall t :: t in was.due && was.due[t].Listed? && Epoch(was.due[t].expiry) < Epoch(n) ==>
        t in was.callbacks && t in now.callbacks && now.callbacks[t] > was.callbacks[t]
    }

    lemma SwitchCalls(was: Accounts, n: nat)
      requires Valid() && last == n && CalledOn(was.due, was.callbacks, due, callbacks) && Settled(was, {}, n)
      ensures OldEpochCalled(was, Books(), n)
    {
      PeriodsOk(was, {}, n);
      hide Epoch, Settled;
      forall t | t in was.due && was.due[t].Listed? && Epoch(was.due[t].expiry) < Epoch(n)
        ensures t in callbacks && t in was.callbacks && callbacks[t] > was.callbacks[t]
      {
        assert Findable(Lists(), t);
      }
    }

    lemma NothingExpired(b: TimerLists.Books)
      requires Filed(b) && (b.current != [] ==> b.current[0].value > Wrap(b.last))
      ensures forall t :: t in b.due && b.due[t].Listed? ==> b.due[t].expiry > b.last
    {
      forall t | t in b.due && b.due[t].Listed? ensures b.due[t].expiry > b.last {
        assert Findable(b, t);
        hide Wrap, Epoch;
        EpochOrder(b.due[t].expiry, b.last);
        EpochOrder(b.last, b.due[t].expiry);
        if Epoch(b.due[t].expiry) == Epoch(b.last) {
          var e :| e in b.current && e.timer == t;
          var i :| 0 <= i < |b.current| && b.current[i] == e;
        }
      }
    }

    lemma BlockTime(b: TimerLists.Books)
      requires Filed(b) && (b.current != [] ==> b.current[0].value > Wrap(b.last))
      ensures b.current != [] ==> var t := b.current[0].timer;
        t in b.due && b.due[t].Listed? && b.last + TickSub(b.current[0].value, Wrap(b.last)) == b.due[t].expiry
      ensures (b.last + TickSub(0, Wrap(b.last))) % TICK_RANGE == 0
      ensures TickSub(0, Wrap(b.last)) == 0 ==> Wrap(b.last) == 0
    {
      if b.current != [] {
        HeadIsFiled(b);
        SplitTime(b.last);
        SplitTime(b.due[b.current[0].timer].expiry);
      }
    }

    // ----- Commands -----

    // The oldest command is taken off the queue.
    method TakeCommand() returns (t: TimerId, value: Tick)
      requires Filed(Lists()) && xTimerQueue != []
      modifies this`xTimerQueue, this`due
      ensures Filed(Lists()) && t in old(due) && due == old(due)[t := Idle] && old(due)[t].Queued?
      ensures Wrap(old(due)[t].value) == value && t == old(xTimerQueue[0]).timer
    {
      CommandIsFiled(Lists());
      CommandTakenFiled(Lists());
      hide Filed, Wrap;
      value := xTimerQueue[0].value;
      t := xTimerQueue[0].timer;
      xTimerQueue := xTimerQueue[1..];
      due := due[t := Idle];
    }

    lemma CommandIsFiled(b: TimerLists.Books)
      requires Filed(b) && b.commands != []
      ensures b.commands[0].timer in b.due && b.due[b.commands[0].timer].Queued?
      ensures Wrap(b.due[b.commands[0].timer].value) == b.commands[0].value
    {
      assert b.commands[0] in b.commands;
    }

    // The start command itself: file the timer or, if it has expired by now, call its callback.
    method Restart(t: TimerId, value: Tick, xTimeNow: Tick, ghost from: nat) returns (expired: bool)
      requires Filed(Lists()) && |due.Keys| <= queueLength && t in due
      requires due[t].Idle? && t in period && period[t] > 0 && t in callbacks
      requires xTimeNow == Wrap(last) && value == Wrap(from) && from <= last < from + TICK_RANGE
      modifies this`pxCurrentTimerList, this`pxOverflowTimerList, this`xTimerQueue, this`callbacks, this`due
      ensures Filed(Lists()) && expired == (from + period[t] <= last)
      ensures callbacks == old(callbacks)[t := if expired then old(callbacks[t]) + 1 else old(callbacks[t])]
      ensures due == old(due)[t := if !expired then Listed(from + period[t])
                                   else if t in autoReload then Queued(from + period[t]) else Idle]
    {
      hide Filed, Wrap;
      expired := FileFrom(t, xTimeNow, value, from);
      if expired {
        Callback(t);
        if t in autoReload {
          SumWraps(from, period[t]);
          SendRestart(t, TickAdd(value, period[t]), from + period[t]);
        }
      }
    }

    // The first half of one round of prvProcessReceivedCommands: receive a command, then read the
    // time. The timer is on no list, so there is nothing to remove it from.
    method BeginCommand() returns (t: TimerId, value: Tick, xTimeNow: Tick, ghost from: nat)
      requires Valid() && xTimerQueue != [] && time < last + TICK_RANGE
      modifies this`pxCurrentTimerList, this`pxOverflowTimerList, this`xTimerQueue, this`callbacks, this`due,
        this`last, this`xLastTime
      ensures ValidBut({t}) && last == time && xTimeNow == Wrap(time) && value == Wrap(from)
      ensures t in old(due) && old(due)[t] == Queued(from) && NoLater(old(due)[t := Idle], due)
      ensures t == old(xTimerQueue[0]).timer && Forward(old(due)[t := Idle], due, time)
      ensures t in old(callbacks) && t in callbacks && callbacks[t] == old(callbacks)[t]
      ensures t in due && t in started && t in period && t in callbacks && period[t] > 0
      ensures Owes(started[t], callbacks[t], period[t], t in autoReload, Queued(from), time)
    {
      hide Filed, Epoch, Wrap, Settled, Owes, Covers, NoLater, Forward, CalledOn;
      ghost var was := Books();
      PeriodsOk(was, {}, time);
      t, value := TakeCommand();
      from := was.due[t].value;
      AccountOf(was, {}, time, t);
      InHand(was, time, t);
      var switched;
      xTimeNow, switched := SampleTimeNow({t});
      PeriodsOk(Books(), {t}, time);
    }

    // One round of prvProcessReceivedCommands: the oldest command is carried out.
    method ProcessCommand()
      requires Valid() && xTimerQueue != [] && time < last + TICK_RANGE && Punctual(due, time)
      modifies this`pxCurrentTimerList, this`pxOverflowTimerList, this`xTimerQueue, this`callbacks, this`due,
        this`last, this`xLastTime
      ensures Valid() && last == time && NoLater(old(due), due)
      ensures Forward(old(due), due, time) && Work(due, time) < old(Work(due, time))
      ensures CarriedOut(old(Books()), Books(), old(xTimerQueue[0]).timer, time)
    {
      hide Filed, Epoch, Wrap, Settled, Owes, Covers, NoLater, Work, Forward, Left;
      ghost var was := due;
      var t, value, xTimeNow, from := BeginCommand();
      ghost var mid := Books();
      PeriodsOk(mid, {t}, time);
      QueuedByNow(started[t], callbacks[t], period[t], t in autoReload, from, time);
      var expired := Restart(t, value, xTimeNow, from);
      CommandOwes(started[t], mid.callbacks[t], period[t], t in autoReload, from, expired, due[t], time);
      PutBackSettled(mid, time, t, callbacks[t], due[t]);
      assert Books() == PutBack(mid, t, callbacks[t], due[t]);
      StillPunctual(was, mid.due, t, due[t]);
      CommandForward(was, mid.due, t, t in autoReload, period[t], time);
    }

    // The start command of timer t, relative to the true time given with it, was carried out by true time n.
    ghost predicate CarriedOut(was: Accounts, now: Accounts, t: TimerId, n: nat)
      reads this
    {
      && t in was.due && was.due[t].Queued? && t in period && t in was.callbacks && t in now.callbacks && t in now.due
      && var from := was.due[t].value;
      && now.due[t] == Restarted(t in autoReload, period[t], from, n)
      && now.callbacks[t] == was.callbacks[t] + if from + period[t] <= n then 1 else 0
    }

    // prvProcessReceivedCommands: commands are handled until none is left. Time passes before the first
    // rounds, as given, and none after them.
    method ProcessReceivedCommands(elapsed: seq<nat>)
      requires Valid() && time + Total(elapsed) < last + TICK_RANGE && Punctual(due, time + Total(elapsed))
      modifies this`pxCurrentTimerList, this`pxOverflowTimerList, this`xTimerQueue, this`callbacks, this`due,
        this`last, this`xLastTime, this`time
      ensures Valid() && NoLater(old(due), due) && old(time) <= time <= old(time) + Total(elapsed)
      ensures xTimerQueue == [] && (old(last) == old(time) && elapsed == [] ==> last == time)
      ensures elapsed == [] ==> time == old(time) && Forward(old(due), due, time)
      ensures elapsed == [] && old(xTimerQueue) != [] ==> Work(due, time) < old(Work(due, time))
    {
      hide Placed, NoLater, Punctual, Forward, Work;
      var i := 0;
      ghost var handled, end := 0, time + Total(elapsed);
      assert elapsed[0..] == elapsed;
      NoLaterSelf(due);
      ForwardSelf(due, time);
      while xTimerQueue != []
        invariant 0 <= i <= |elapsed| && Valid() && NoLater(old(due), due)
        invariant old(time) <= time && time + Total(elapsed[i..]) == end < last + TICK_RANGE && Punctual(due, end)
        invariant elapsed == [] ==> time == old(time) && Forward(old(due), due, time)
        invariant elapsed == [] ==> Work(due, time) + handled <= old(Work(due, time))
        invariant if handled == 0 then xTimerQueue == old(xTimerQueue) && last == old(last) else last == time
        decreases |elapsed| - i, Work(due, time)
      {
        ghost var was := due;
        if i < |elapsed| {
          assert elapsed[i..][1..] == elapsed[i + 1..];
          Elapse(elapsed[i]);
          i := i + 1;
        }
        LastNotAhead();
        EarlierPunctual(due, time, end);
        ProcessCommand();
        handled := handled + 1;
        NoLaterTrans(old(due), was, due, end);
        if elapsed == [] { ForwardTrans(old(due), was, due, time); }
      }
    }

    lemma ForwardSelf(d: map<TimerId, Due>, n: nat)
      ensures Forward(d, d, n)
    {
    }

    lemma EarlierPunctual(d: map<TimerId, Due>, x: nat, y: nat)
      requires Punctual(d, y) && x <= y
      ensures Punctual(d, x)
    {
    }

    lemma LastNotAhead()
      requires Valid()
      ensures last <= time
    {
    }

    lemma NoLaterSelf(a: map<TimerId, Due>)
      ensures NoLater(a, a)
    {
    }

    lemma NoLaterTrans(a: map<TimerId, Due>, b: map<TimerId, Due>, c: map<TimerId, Due>, x: nat)
      requires NoLater(a, b) && NoLater(b, c)
      ensures NoLater(a, c) && (Punctual(b, x) ==> Punctual(c, x))
    {
    }

    lemma StillPunctual(was: map<TimerId, Due>, mid: map<TimerId, Due>, t: TimerId, d: Due)
      requires t in was && was[t].Queued? && NoLater(was[t := Idle], mid)
      requires t in mid && (d.Idle? || Since(d) >= was[t].value)
      ensures NoLater(was, mid[t := d])
    {
      forall x: nat | Punctual(was, x) ensures Punctual(mid[t := d], x) { assert Punctual(was[t := Idle], x); }
    }

    lemma QueuedByNow(c: nat, k: nat, period: Tick, autoReload: bool, from: nat, time: nat)
      requires Owes(c, k, period, autoReload, Queued(from), time)
      ensures from <= time
    {
    }

    // prvTimerTask, from one time it is given the processor to the next time it blocks: its rounds come to
    // an end, with no command waiting and nothing expired.
    method TimerTask() returns (ticks: Tick, forever: bool)
      requires Valid() && time < last + TICK_RANGE && Punctual(due, time)
      modifies this
      ensures Valid() && CaughtUp() && last == time == old(time) && started == old(started)
      ensures forall t :: t in started && t in due && t in period && t in callbacks ==>
        callbacks[t] == CallsBy(t in autoReload, started[t], period[t], time)
    {
      hide Filed, Epoch, Wrap, Settled, Owes, Covers, NoLater, Forward, Work, Punctual, CalledOn;
      while true
        invariant Valid() && time == old(time) && time < last + TICK_RANGE && Punctual(due, time)
        invariant started == old(started)
        decreases if last == time then 0 else 1, Work(due, time)
      {
        ghost var was := due;
        var blocked;
        blocked, ticks, forever := ProcessTimerOrBlock();
        if blocked && xTimerQueue == [] { break; }
        ghost var mid := due;
        NoLaterTrans(was, was, mid, time);
        ForwardWork(was, mid, time);
        ProcessReceivedCommands([]);
        NoLaterTrans(mid, mid, due, time);
        ForwardWork(mid, due, time);
      }
      AllExact();
    }

    // Every timer that was started has been called as often as it should by now.
    lemma AllExact()
      requires Valid() && CaughtUp() && last == time
      ensures forall t :: t in started && t in due && t in period && t in callbacks ==>
        callbacks[t] == CallsBy(t in autoReload, started[t], period[t], time)
    {
      PeriodsOk(Books(), {}, time);
      hide Valid, CaughtUp;
      forall t | t in started && t in due && t in period && t in callbacks
        ensures callbacks[t] == CallsBy(t in autoReload, started[t], period[t], time)
      {
        if t in autoReload { CaughtUpExactly(t); } else { OneShotExactly(t); }
      }
    }

    // How often a timer that was started at true time c is called by true time n.
    function CallsBy(reloading: bool, c: nat, p: Tick, n: nat): int {
      if p == 0 then 0 else if reloading then (n - c) / p else if c + p <= n then 1 else 0
    }

    // ----- What the accounts come to -----

    // No command waits and nothing on the current list has expired.
    ghost predicate CaughtUp()
      reads this
    {
      xTimerQueue == [] && (pxCurrentTimerList != [] ==> pxCurrentTimerList[0].value > xLastTime)
    }

    // Once the daemon has caught up at true time n, every reloading timer started at c has had
    // exactly the whole number of periods in n - c as callbacks, and its next expiry is on a list;
    // across wraps and late processing it has neither drifted, nor skipped, nor fired twice.
    lemma CaughtUpExactly(t: TimerId)
      requires Valid() && CaughtUp() && t in started && t in autoReload && t in period && t in callbacks && t in due
      requires last == time
      ensures started[t] <= time && period[t] > 0 && callbacks[t] == (time - started[t]) / period[t]
      ensures due[t] == Listed(ExpiryTime(started[t], callbacks[t] + 1, period[t]))
    {
      assert OwesNext(Books(), t, time);
      assert Findable(Lists(), t);
      NothingExpired(Lists());
      CallbacksAreExact(started[t], callbacks[t], period[t], time);
    }

    // A one-shot timer has been called once if its period is over by then, and not at all otherwise.
    lemma OneShotExactly(t: TimerId)
      requires Valid() && CaughtUp() && t in started && t !in autoReload && t in period && t in callbacks
      requires last == time
      ensures started[t] <= time && callbacks[t] == if started[t] + period[t] <= time then 1 else 0
    {
      assert OwesNext(Books(), t, time);
      assert Findable(Lists(), t);
      NothingExpired(Lists());
      NextExpiry(started[t], 0, period[t]);
    }
  }
}
