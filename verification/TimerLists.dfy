// Active timers on two lists of wrapped expiry times, against true time.
module TimerLists {
  import opened TickTime
  import opened ListRing

  type TimerId = nat

  // An entry of a timer list, sorted by expiry; or a start command, with the time it is relative to.
  datatype Entry = Entry(value: Tick, timer: TimerId)

  datatype Verdict = Now | Current | Overflow

  // The branches of prvInsertTimerInActiveList.
  function Classify(nextExpiry: Tick, timeNow: Tick, commandTime: Tick, period: Tick): Verdict {
    if nextExpiry <= timeNow then
      if TickSub(timeNow, commandTime) >= period then Now else Overflow
    else if timeNow < commandTime && nextExpiry >= commandTime then Now
    else Current
  }

  lemma SplitTime(t: nat)
    ensures t == Epoch(t) * TICK_RANGE + Wrap(t)
  {
  }

  lemma SameSplit(t: nat, e: nat, w: Tick)
    requires t == e * TICK_RANGE + w
    ensures Epoch(t) == e && Wrap(t) == w
  {
  }

  // For a command given at true time c and handled at true time n, the timer is processed at once
  // exactly when it has expired by then, and otherwise filed by the epoch it expires in.
  lemma ClassifyExactly(c: nat, n: nat, period: Tick)
    requires c <= n < c + TICK_RANGE && period > 0
    ensures var v := Classify(TickAdd(Wrap(c), period), Wrap(n), Wrap(c), period);
      && (v == Now <==> c + period <= n)
      && (v == Current <==> c + period > n && Epoch(c + period) == Epoch(n))
      && (v == Overflow <==> c + period > n && Epoch(c + period) == Epoch(n) + 1)
    ensures TickAdd(Wrap(c), period) == Wrap(c + period)
    ensures c + period > n ==> Epoch(n) <= Epoch(c + period) <= Epoch(n) + 1
  {
    SplitTime(c);
    SplitTime(n);
    SplitTime(c + period);
    SumWraps(c, period);
    SumWraps(c, n - c);
    assert TickSub(Wrap(n), Wrap(c)) == n - c by { DifferenceWraps(c, n); }
  }

  lemma SumWraps(c: nat, d: nat)
    requires d < TICK_RANGE
    ensures TickAdd(Wrap(c), d) == Wrap(c + d)
    ensures if Wrap(c) + d < TICK_RANGE then Epoch(c + d) == Epoch(c) && Wrap(c + d) == Wrap(c) + d
            else Epoch(c + d) == Epoch(c) + 1 && Wrap(c + d) == Wrap(c) + d - TICK_RANGE
  {
    SplitTime(c);
    if Wrap(c) + d < TICK_RANGE { SameSplit(c + d, Epoch(c), Wrap(c) + d); }
    else { SameSplit(c + d, Epoch(c) + 1, Wrap(c) + d - TICK_RANGE); }
  }

  lemma DifferenceWraps(c: nat, n: nat)
    requires c <= n < c + TICK_RANGE
    ensures TickSub(Wrap(n), Wrap(c)) == n - c
  {
    SumWraps(c, n - c);
  }

  // A new period counts from now, so it never needs processing at once.
  lemma NewPeriodIsAhead(n: nat, period: Tick)
    requires period > 0
    ensures Classify(TickAdd(Wrap(n), period), Wrap(n), Wrap(n), period) != Now
  {
    ClassifyExactly(n, n, period);
  }

  // A smaller reading means exactly that the counter has wrapped since the last one.
  lemma WrapSeen(last: nat, now: nat)
    requires last <= now < last + TICK_RANGE
    ensures Wrap(now) < Wrap(last) <==> Epoch(now) == Epoch(last) + 1
    ensures Wrap(now) >= Wrap(last) <==> Epoch(now) == Epoch(last)
  {
    SumWraps(last, now - last);
  }

  // ----- Lists -----

  function Values(list: seq<Entry>): (v: seq<Tick>)
    ensures |v| == |list| && forall i :: 0 <= i < |list| ==> v[i] == list[i].value
  {
    seq(|list|, i requires 0 <= i < |list| => list[i].value)
  }

  // vListInsert
  function InsertEntry(list: seq<Entry>, e: Entry): seq<Entry> {
    var k := InsertPos(Values(list), e.value);
    list[..k] + [e] + list[k..]
  }

  predicate Ordered(list: seq<Entry>) { forall i, j :: 0 <= i < j < |list| ==> list[i].value <= list[j].value }

  predicate Unique(list: seq<Entry>) { forall i, j :: 0 <= i < j < |list| ==> list[i].timer != list[j].timer }

  predicate Has(list: seq<Entry>, t: TimerId) { exists e :: e in list && e.timer == t }

  lemma PutAt(list: seq<Entry>, k: nat, e: Entry)
    requires k <= |list|
    ensures forall x :: x in list[..k] + [e] + list[k..] <==> x == e || x in list
    ensures Unique(list) && !Has(list, e.timer) ==> Unique(list[..k] + [e] + list[k..])
  {
    var m := list[..k] + [e] + list[k..];
    forall x | x in list ensures x in m {
      var i :| 0 <= i < |list| && list[i] == x;
      assert m[if i < k then i else i + 1] == x;
    }
    assert m[k] == e;
    assert forall i :: 0 <= i < |list| ==> list[i] in list;
  }

  lemma PutInOrder(list: seq<Entry>, k: nat, e: Entry)
    requires Ordered(list) && k <= |list|
    requires forall i :: 0 <= i < k ==> list[i].value <= e.value
    requires k < |list| ==> e.value < list[k].value
    ensures Ordered(list[..k] + [e] + list[k..])
  {
    if k < |list| { assert forall i :: k <= i < |list| ==> list[k].value <= list[i].value; }
  }

  lemma InsertEntryFacts(list: seq<Entry>, e: Entry)
    requires Ordered(list) && Unique(list) && !Has(list, e.timer)
    ensures Ordered(InsertEntry(list, e)) && Unique(InsertEntry(list, e))
    ensures forall x :: x in InsertEntry(list, e) <==> x == e || x in list
  {
    hide Ordered, Unique, Has;
    var k := InsertPos(Values(list), e.value);
    PutAt(list, k, e);
    assert k < |list| ==> Values(list)[k] == list[k].value;
    assert forall i :: 0 <= i < k ==> Values(list)[i] == list[i].value;
    PutInOrder(list, k, e);
  }

  // What bounds the draining of a list: how far its values are from wrapping.
  function Remaining(list: seq<Entry>): nat {
    if list == [] then 0 else TICK_RANGE - list[0].value + Remaining(list[1..])
  }

  lemma {:induction false} RemainingSplit(list: seq<Entry>, k: nat, e: Entry)
    requires k <= |list|
    ensures Remaining(list[..k] + [e] + list[k..]) == Remaining(list) + TICK_RANGE - e.value
  {
    var m := list[..k] + [e] + list[k..];
    if k == 0 {
      assert m[1..] == list;
    } else {
      assert m[1..] == list[1..][..k - 1] + [e] + list[1..][k - 1..];
      RemainingSplit(list[1..], k - 1, e);
    }
  }

  // So a timer that expires and is put back with a later value brings its list closer to empty.
  lemma InsertRemaining(list: seq<Entry>, e: Entry)
    ensures Remaining(InsertEntry(list, e)) == Remaining(list) + TICK_RANGE - e.value
  {
    RemainingSplit(list, InsertPos(Values(list), e.value), e);
  }

  // ----- Filing -----

  // What is outstanding for a timer, in true time: an expiry on a list, or a start command.
  datatype Due = Idle | Listed(expiry: nat) | Queued(value: nat)

  datatype Books = Books(current: seq<Entry>, overflow: seq<Entry>, commands: seq<Entry>,
                         due: map<TimerId, Due>, last: nat)

  ghost predicate FiledIn(list: seq<Entry>, due: map<TimerId, Due>, epoch: nat) {
    forall e :: e in list ==>
      && e.timer in due && due[e.timer].Listed?
      && Wrap(due[e.timer].expiry) == e.value && Epoch(due[e.timer].expiry) == epoch
  }

  ghost predicate Commanded(list: seq<Entry>, due: map<TimerId, Due>) {
    forall e :: e in list ==> e.timer in due && due[e.timer].Queued? && Wrap(due[e.timer].value) == e.value
  }

  ghost predicate Findable(b: Books, t: TimerId)
    requires t in b.due
  {
    match b.due[t]
    case Idle => true
    case Listed(expiry) =>
      || (Epoch(expiry) == Epoch(b.last) && Has(b.current, t))
      || (Epoch(expiry) == Epoch(b.last) + 1 && Has(b.overflow, t))
    case Queued(_) => Has(b.commands, t)
  }

  // Each timer with something outstanding is in one place: the current list if it expires in the
  // epoch of the last reading, the overflow list if in the next, or the command queue.
  ghost predicate Filed(b: Books) {
    && FiledIn(b.current, b.due, Epoch(b.last)) && FiledIn(b.overflow, b.due, Epoch(b.last) + 1)
    && Commanded(b.commands, b.due)
    && Ordered(b.current) && Ordered(b.overflow)
    && Unique(b.current) && Unique(b.overflow) && Unique(b.commands)
    && forall t :: t in b.due ==> Findable(b, t)
  }

  lemma ElsewhereKept(b: Books, after: Books, t: TimerId)
    requires Filed(b) && after.due.Keys == b.due.Keys && Epoch(after.last) == Epoch(b.last)
    requires forall u :: u in b.due && u != t ==> after.due[u] == b.due[u]
    requires forall e: Entry :: e.timer != t ==> (e in b.current <==> e in after.current)
    requires forall e: Entry :: e.timer != t ==> (e in b.overflow <==> e in after.overflow)
    requires forall e: Entry :: e.timer != t ==> (e in b.commands <==> e in after.commands)
    ensures forall u :: u in after.due && u != t ==> Findable(after, u)
  {
    forall u | u in after.due && u != t ensures Findable(after, u) { assert Findable(b, u); }
  }

  lemma HeadOut(list: seq<Entry>)
    requires list != [] && Unique(list)
    ensures Unique(list[1..]) && !Has(list[1..], list[0].timer) && (Ordered(list) ==> Ordered(list[1..]))
    ensures forall e: Entry :: e.timer != list[0].timer ==> (e in list[1..] <==> e in list)
    ensures forall e :: e in list[1..] ==> e in list && e.timer != list[0].timer
  {
    assert list == [list[0]] + list[1..];
    forall e | e in list[1..] ensures e in list && e.timer != list[0].timer {
      var i :| 0 <= i < |list| - 1 && list[1..][i] == e;
      assert list[i + 1] == e;
    }
  }

  // The head of the current list is taken in hand.
  function HeadTaken(b: Books): Books
    requires b.current != []
  {
    b.(current := b.current[1..], due := b.due[b.current[0].timer := Idle])
  }

  lemma HeadTakenFiled(b: Books)
    requires Filed(b) && b.current != []
    ensures b.current[0].timer in b.due && Filed(HeadTaken(b)) && HeadTaken(b).due.Keys == b.due.Keys
  {
    var t := b.current[0].timer;
    assert b.current[0] in b.current;
    HeadOut(b.current);
    ElsewhereKept(b, HeadTaken(b), t);
  }

  // The oldest command is taken in hand.
  function CommandTaken(b: Books): Books
    requires b.commands != []
  {
    b.(commands := b.commands[1..], due := b.due[b.commands[0].timer := Idle])
  }

  lemma CommandTakenFiled(b: Books)
    requires Filed(b) && b.commands != []
    ensures b.commands[0].timer in b.due && Filed(CommandTaken(b)) && CommandTaken(b).due.Keys == b.due.Keys
  {
    hide Ordered, Unique, Has;
    var t := b.commands[0].timer;
    assert b.commands[0] in b.commands;
    HeadOut(b.commands);
    ElsewhereKept(b, CommandTaken(b), t);
  }

  // A timer in hand is on no list and has no command.
  lemma InHandNowhere(b: Books, t: TimerId)
    requires Filed(b) && (t in b.due ==> b.due[t].Idle?)
    ensures !Has(b.current, t) && !Has(b.overflow, t) && !Has(b.commands, t)
  {
  }

  // The timer in hand is filed under its true expiry.
  function Listing(b: Books, t: TimerId, expiry: nat): Books {
    var e := Entry(Wrap(expiry), t);
    if Epoch(expiry) == Epoch(b.last) then b.(current := InsertEntry(b.current, e), due := b.due[t := Listed(expiry)])
    else b.(overflow := InsertEntry(b.overflow, e), due := b.due[t := Listed(expiry)])
  }

  lemma ListingFiled(b: Books, t: TimerId, expiry: nat)
    requires Filed(b) && t in b.due && b.due[t].Idle? && Epoch(b.last) <= Epoch(expiry) <= Epoch(b.last) + 1
    ensures Filed(Listing(b, t, expiry)) && Listing(b, t, expiry).due.Keys == b.due.Keys
  {
    hide Ordered, Unique, InsertEntry;
    InHandNowhere(b, t);
    var e, after := Entry(Wrap(expiry), t), Listing(b, t, expiry);
    if Epoch(expiry) == Epoch(b.last) { InsertEntryFacts(b.current, e); } else { InsertEntryFacts(b.overflow, e); }
    ElsewhereKept(b, after, t);
  }

  // A start command is sent for the timer in hand.
  function Commanding(b: Books, t: TimerId, value: nat): Books {
    b.(commands := b.commands + [Entry(Wrap(value), t)], due := b.due[t := Queued(value)])
  }

  lemma CommandingFiled(b: Books, t: TimerId, value: nat)
    requires Filed(b) && t in b.due && b.due[t].Idle?
    ensures Filed(Commanding(b, t, value)) && Commanding(b, t, value).due.Keys == b.due.Keys
  {
    InHandNowhere(b, t);
    ElsewhereKept(b, Commanding(b, t, value), t);
  }

  // There is at most one command for each timer, so a queue with a place for each never fills.
  lemma {:induction false} RoomToCommand(commands: seq<Entry>, timers: set<TimerId>)
    requires Unique(commands) && forall e :: e in commands ==> e.timer in timers
    ensures |commands| <= |timers|
    decreases |commands|
  {
    if commands != [] {
      HeadOut(commands);
      assert commands[0] in commands;
      RoomToCommand(commands[1..], timers - {commands[0].timer});
    }
  }

  // The lists change places once the current one has been drained.
  lemma TurnFiled(b: Books, now: nat)
    requires Filed(b) && b.current == [] && Epoch(now) == Epoch(b.last) + 1
    ensures Filed(b.(current := b.overflow, overflow := [], last := now))
  {
    var after := b.(current := b.overflow, overflow := [], last := now);
    forall u | u in after.due ensures Findable(after, u) { assert Findable(b, u); }
  }

  lemma LaterFiled(b: Books, now: nat)
    requires Filed(b) && Epoch(now) == Epoch(b.last)
    ensures Filed(b.(last := now))
  {
    var after := b.(last := now);
    forall u | u in after.due ensures Findable(after, u) { assert Findable(b, u); }
  }
}
