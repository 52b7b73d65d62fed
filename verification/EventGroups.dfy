// Event groups: the tasks that wait for bits, and what setting bits does to them.
module EventGroups {
  import opened ListRing

  type Bits = bv32
  type Task = nat

  const CLEAR_ON_EXIT: Bits := 0x0100_0000       // eventCLEAR_EVENTS_ON_EXIT_BIT
  const UNBLOCKED_BY_SET: Bits := 0x0200_0000    // eventUNBLOCKED_DUE_TO_BIT_SET
  const WAIT_FOR_ALL: Bits := 0x0400_0000        // eventWAIT_FOR_ALL_BITS
  const CONTROL_BYTES: Bits := 0xFF00_0000       // eventEVENT_BITS_CONTROL_BYTES
  const VALUE_IN_USE: Bits := 0x8000_0000        // taskEVENT_LIST_ITEM_VALUE_IN_USE

  // ----- Words of bits -----

  function Or(x: Bits, y: Bits): Bits { x | y }
  function Without(x: Bits, mask: Bits): Bits { x & !mask }

  // Some, all of the bits of b are in x.
  predicate Meets(x: Bits, b: Bits) { x & b != 0 }
  predicate Covers(x: Bits, b: Bits) { x & b == b }

  lemma OrMeets(x: Bits, y: Bits, b: Bits)
    ensures Meets(Or(x, y), b) <==> Meets(x, b) || Meets(y, b)
  {
    assert (x | y) & b == (x & b) | (y & b);
  }

  lemma CoverOr(x: Bits, y: Bits, b: Bits)
    requires x & b == b
    ensures (x | y) & b == b && (y | x) & b == b
  {
  }

  lemma OrCovers(x: Bits, y: Bits, b: Bits)
    requires Covers(x, b) || Covers(y, b)
    ensures Covers(Or(x, y), b)
  {
    if x & b == b { CoverOr(x, y, b); } else { CoverOr(y, x, b); }
  }

  lemma OrZero(x: Bits, b: Bits)
    ensures !Meets(0, b) && Or(0, x) == x && Or(x, 0) == x
  {
  }

  lemma FewerMeet(x: Bits, mask: Bits, b: Bits)
    ensures Meets(Without(x, mask), b) ==> Meets(x, b)
  {
    assert x & !mask & b == (x & b) & !mask;
    if x & b == 0 { assert (0 as Bits) & !mask == 0; }
  }

  lemma FewerCover(x: Bits, mask: Bits, b: Bits)
    ensures Covers(Without(x, mask), b) ==> Covers(x, b)
  {
  }

  lemma WithoutCovered(x: Bits, mask: Bits, b: Bits)
    requires Covers(mask, b)
    ensures !Meets(Without(x, mask), b)
  {
  }

  // ----- Single bits -----

  function And(x: Bits, y: Bits): Bits { x & y }
  function Half(x: Bits): Bits { x >> 1 }
  predicate Odd(x: Bits) { x & 1 == 1 }

  function Shifted(x: Bits, i: nat): Bits { if i == 0 then x else Shifted(Half(x), i - 1) }

  // Bit i of x is set.
  predicate HasBit(x: Bits, i: nat) { Odd(Shifted(x, i)) }

  lemma {:induction false} NoBits(i: nat)
    ensures !HasBit(0, i)
  {
    assert Half(0) == 0;
    if i > 0 { NoBits(i - 1); }
  }

  lemma OddAnd(x: Bits, y: Bits)
    ensures Odd(And(x, y)) <==> Odd(x) && Odd(y)
  {
  }

  lemma OddOr(x: Bits, y: Bits)
    ensures Odd(Or(x, y)) <==> Odd(x) || Odd(y)
  {
  }

  lemma OddWithout(x: Bits, y: Bits)
    ensures Odd(Without(x, y)) <==> Odd(x) && !Odd(y)
  {
  }

  lemma HalfAnd(x: Bits, y: Bits)
    ensures Half(And(x, y)) == And(Half(x), Half(y))
  {
  }

  lemma HalfOr(x: Bits, y: Bits)
    ensures Half(Or(x, y)) == Or(Half(x), Half(y))
  {
  }

  lemma HalfWithout(x: Bits, y: Bits)
    ensures Half(Without(x, y)) == Without(Half(x), Half(y))
  {
  }

  lemma {:induction false} BitsOf(x: Bits, y: Bits, i: nat)
    ensures HasBit(And(x, y), i) <==> HasBit(x, i) && HasBit(y, i)
    ensures HasBit(Or(x, y), i) <==> HasBit(x, i) || HasBit(y, i)
    ensures HasBit(Without(x, y), i) <==> HasBit(x, i) && !HasBit(y, i)
    decreases i
  {
    hide Odd, Half, And, Or, Without;
    if i == 0 {
      OddAnd(x, y);
      OddOr(x, y);
      OddWithout(x, y);
    } else {
      HalfAnd(x, y);
      HalfOr(x, y);
      HalfWithout(x, y);
      BitsOf(Half(x), Half(y), i - 1);
    }
  }

  lemma {:induction false} SomeBit(x: Bits) returns (i: nat)
    requires x != 0
    ensures HasBit(x, i)
    decreases x
  {
    i := 0;
    if !Odd(x) {
      Halves(x);
      var more := SomeBit(Half(x));
      i := more + 1;
    }
  }

  lemma Halves(x: Bits)
    requires x != 0
    ensures Half(x) < x && (!Odd(x) ==> Half(x) != 0)
  {
  }

  // Two words share a bit exactly when some single bit is set in both.
  lemma MeetsByBits(x: Bits, b: Bits)
    ensures Meets(x, b) <==> exists i: nat :: HasBit(x, i) && HasBit(b, i)
  {
    hide HasBit;
    assert Meets(x, b) <==> And(x, b) != 0;
    if Meets(x, b) {
      var i := SomeBit(And(x, b));
      BitsOf(x, b, i);
    }
    forall i: nat | HasBit(x, i) && HasBit(b, i) ensures Meets(x, b) {
      BitsOf(x, b, i);
      NoBits(i);
    }
  }

  // A word covers another exactly when it has each of its bits.
  lemma CoversByBits(x: Bits, b: Bits)
    ensures Covers(x, b) <==> forall i: nat :: HasBit(b, i) ==> HasBit(x, i)
  {
    LeftOver(x, b);
    hide HasBit, Covers, Without;
    if !Covers(x, b) {
      var i := SomeBit(Without(b, x));
      BitsOf(b, x, i);
    } else {
      forall i: nat | HasBit(b, i) ensures HasBit(x, i) {
        BitsOf(b, x, i);
        NoBits(i);
      }
    }
  }

  lemma LeftOver(x: Bits, b: Bits)
    ensures Covers(x, b) <==> Without(b, x) == 0
  {
    if x & b == b { NothingLeft(x, b); }
    if b & !x == 0 { AllTaken(x, b); }
  }

  lemma NothingLeft(x: Bits, b: Bits)
    requires x & b == b
    ensures b & !x == 0
  {
  }

  lemma AllTaken(x: Bits, b: Bits)
    requires b & !x == 0
    ensures x & b == b
  {
  }

  // ----- Waits -----

  // What a task waits for.
  datatype Wait = Wait(bits: Bits, clearOnExit: bool, waitForAll: bool)

  predicate Legal(w: Wait) { w.bits != 0 && !Meets(w.bits, CONTROL_BYTES) }

  // prvTestWaitCondition
  predicate Met(current: Bits, w: Wait) {
    if w.waitForAll then Covers(current, w.bits) else Meets(current, w.bits)
  }

  // What a wait is for, bit by bit: each of its bits, or any one of them.
  ghost predicate Satisfied(current: Bits, w: Wait) {
    if w.waitForAll then forall i: nat :: HasBit(w.bits, i) ==> HasBit(current, i)
    else exists i: nat :: HasBit(current, i) && HasBit(w.bits, i)
  }

  // prvTestWaitCondition answers that question.
  lemma MetExactly(current: Bits, w: Wait)
    ensures Met(current, w) <==> Satisfied(current, w)
  {
    hide Meets, Covers;
    if w.waitForAll { CoversByBits(current, w.bits); } else { MeetsByBits(current, w.bits); }
  }

  // The event list item of a waiting task holds its wait as one word.
  function ItemValue(w: Wait): Bits {
    w.bits | (if w.clearOnExit then CLEAR_ON_EXIT else 0) | (if w.waitForAll then WAIT_FOR_ALL else 0) | VALUE_IN_USE
  }

  function WaitOf(value: Bits): Wait {
    Wait(value & !CONTROL_BYTES, value & CLEAR_ON_EXIT != 0, value & WAIT_FOR_ALL != 0)
  }

  lemma ItemValueRoundTrip(w: Wait)
    requires Legal(w)
    ensures WaitOf(ItemValue(w)) == w && !Meets(ItemValue(w), UNBLOCKED_BY_SET)
  {
    WordParts(w.bits, if w.clearOnExit then CLEAR_ON_EXIT else 0, if w.waitForAll then WAIT_FOR_ALL else 0);
  }

  lemma WordParts(b: Bits, c: Bits, a: Bits)
    requires b & CONTROL_BYTES == 0 && (c == CLEAR_ON_EXIT || c == 0) && (a == WAIT_FOR_ALL || a == 0)
    ensures var v := b | c | a | VALUE_IN_USE;
      v & !CONTROL_BYTES == b && v & CLEAR_ON_EXIT == c && v & WAIT_FOR_ALL == a && v & UNBLOCKED_BY_SET == 0
  {
  }

  datatype Waiter = Waiter(task: Task, value: Bits)

  datatype Group = Group(bits: Bits, waiting: seq<Waiter>)

  // ----- Setting bits -----

  // The waiters, in order, whose wait is met or not met.
  function Matched(waiting: seq<Waiter>, bits: Bits): seq<Waiter> {
    if waiting == [] then []
    else (if Met(bits, WaitOf(waiting[0].value)) then [waiting[0]] else []) + Matched(waiting[1..], bits)
  }

  function Unmatched(waiting: seq<Waiter>, bits: Bits): seq<Waiter> {
    if waiting == [] then []
    else (if Met(bits, WaitOf(waiting[0].value)) then [] else [waiting[0]]) + Unmatched(waiting[1..], bits)
  }

  // What one woken task asks to have cleared.
  function Clears(w: Waiter): Bits { if WaitOf(w.value).clearOnExit then WaitOf(w.value).bits else 0 }

  function ClearMask(woken: seq<Waiter>): Bits {
    if woken == [] then 0 else Or(Clears(woken[0]), ClearMask(woken[1..]))
  }

  // The group after bits are set.
  function AfterSet(g: Group, added: Bits): Group {
    var now := Or(g.bits, added);
    Group(Without(now, ClearMask(Matched(g.waiting, now))), Unmatched(g.waiting, now))
  }

  // What the item of each woken task is set to.
  function WokenValue(now: Bits): Bits { now | UNBLOCKED_BY_SET | VALUE_IN_USE }

  // What a woken task returns: its item value without the control bits.
  lemma WokenValueFacts(now: Bits)
    requires !Meets(now, CONTROL_BYTES)
    ensures Meets(WokenValue(now), UNBLOCKED_BY_SET) && Without(WokenValue(now), CONTROL_BYTES) == now
  {
  }

  lemma {:induction false} WhoMatches(waiting: seq<Waiter>, bits: Bits)
    ensures forall w :: w in Matched(waiting, bits) <==> w in waiting && Met(bits, WaitOf(w.value))
    ensures forall w :: w in Unmatched(waiting, bits) <==> w in waiting && !Met(bits, WaitOf(w.value))
    ensures multiset(Matched(waiting, bits)) + multiset(Unmatched(waiting, bits)) == multiset(waiting)
  {
    if waiting != [] {
      hide Met, WaitOf;
      assert waiting == [waiting[0]] + waiting[1..];
      WhoMatches(waiting[1..], bits);
    }
  }

  // Task w of the waiters was woken and asked to have bit i cleared.
  predicate Asks(w: Waiter, i: nat) { WaitOf(w.value).clearOnExit && HasBit(WaitOf(w.value).bits, i) }

  lemma AsksItself(w: Waiter, i: nat)
    ensures HasBit(Clears(w), i) <==> Asks(w, i)
  {
    hide HasBit, WaitOf;
    NoBits(i);
  }

  // The bits cleared are those that a woken task asked to have cleared.
  lemma {:induction false} WhatIsCleared(woken: seq<Waiter>, i: nat)
    ensures HasBit(ClearMask(woken), i) <==> exists w :: w in woken && Asks(w, i)
  {
    hide Clears, HasBit, Or, Asks;
    if woken == [] {
      NoBits(i);
    } else {
      assert woken == [woken[0]] + woken[1..];
      WhatIsCleared(woken[1..], i);
      AsksItself(woken[0], i);
      BitsOf(Clears(woken[0]), ClearMask(woken[1..]), i);
    }
  }

  // Setting bits wakes precisely the waiters whose wait is satisfied by the old bits together with the
  // new, leaves the rest waiting, and then clears precisely what the woken asked to have cleared.
  lemma SetBitsExactly(g: Group, added: Bits, i: nat)
    ensures var now, after := Or(g.bits, added), AfterSet(g, added);
      && (HasBit(now, i) <==> HasBit(g.bits, i) || HasBit(added, i))
      && (forall w :: w in Matched(g.waiting, now) <==> w in g.waiting && Satisfied(now, WaitOf(w.value)))
      && (forall w :: w in after.waiting <==> w in g.waiting && !Satisfied(now, WaitOf(w.value)))
      && (HasBit(after.bits, i) <==>
            HasBit(now, i) && !exists w :: w in g.waiting && Satisfied(now, WaitOf(w.value)) && Asks(w, i))
  {
    hide WaitOf, Met, Satisfied, HasBit, Asks, Or, Without, Matched, Unmatched, ClearMask;
    var now := Or(g.bits, added);
    BitsOf(g.bits, added, i);
    WhoMatches(g.waiting, now);
    WhatIsCleared(Matched(g.waiting, now), i);
    BitsOf(now, ClearMask(Matched(g.waiting, now)), i);
    forall w: Wait ensures Met(now, w) <==> Satisfied(now, w) { MetExactly(now, w); }
  }

  // Fewer bits meet no more waits.
  lemma FewerBits(now: Bits, mask: Bits, w: Wait)
    requires !Met(now, w)
    ensures !Met(Without(now, mask), w)
  {
    hide Meets, Covers, Without;
    FewerMeet(now, mask, w.bits);
    FewerCover(now, mask, w.bits);
  }

  // ----- Calls -----

  // A call either returns at once or puts its task on the list.
  datatype Outcome = Return(value: Bits) | Sleep

  // xEventGroupWaitBits up to where the scheduler resumes. block: xTicksToWait is not zero.
  function WaitBits(g: Group, t: Task, w: Wait, block: bool): (Group, Outcome) {
    if Met(g.bits, w) then (g.(bits := if w.clearOnExit then Without(g.bits, w.bits) else g.bits), Return(g.bits))
    else if !block then (g, Return(g.bits))
    else (g.(waiting := g.waiting + [Waiter(t, ItemValue(w))]), Sleep)
  }

  function Rendezvous(mask: Bits): Wait { Wait(mask, true, true) }

  // xEventGroupSync up to where the scheduler resumes.
  function Sync(g: Group, t: Task, added: Bits, mask: Bits, block: bool): (Group, Outcome) {
    var now, after := Or(g.bits, added), AfterSet(g, added);
    if Covers(now, mask) then (after.(bits := Without(after.bits, mask)), Return(now))
    else if block then (after.(waiting := after.waiting + [Waiter(t, ItemValue(Rendezvous(mask)))]), Sleep)
    else (after, Return(after.bits))
  }

  // The end of both calls once the task runs again: a task woken by set bits returns the value it was
  // given; one that timed out looks at the bits once more.
  function Resume(g: Group, w: Wait, item: Bits): (Group, Bits) {
    if Meets(item, UNBLOCKED_BY_SET) then (g, Without(item, CONTROL_BYTES))
    else
      var bits := if Met(g.bits, w) && w.clearOnExit then Without(g.bits, w.bits) else g.bits;
      (g.(bits := bits), Without(g.bits, CONTROL_BYTES))
  }

  // ----- Runs -----

  // calls: what each task on the list, or taken off it and not yet run, is waiting for;
  // items: the event list item of each task taken off the list that has not yet run.
  datatype System = System(g: Group, calls: map<Task, Wait>, items: map<Task, Bits>)

  datatype Step =
    | DoSet(added: Bits)
    | DoClear(mask: Bits)
    | DoWait(t: Task, w: Wait, block: bool)
    | DoSync(t: Task, added: Bits, mask: Bits, block: bool)
    | TimeOut(t: Task, place: nat)
    | RunAgain(t: Task)

  predicate Enabled(s: System, step: Step) {
    match step
    case DoSet(added) => !Meets(added, CONTROL_BYTES)
    case DoClear(mask) => !Meets(mask, CONTROL_BYTES)
    case DoWait(t, w, _) => t !in s.calls && Legal(w)
    case DoSync(t, added, mask, _) => t !in s.calls && !Meets(added, CONTROL_BYTES) && Legal(Rendezvous(mask))
    case TimeOut(t, place) => place < |s.g.waiting| && s.g.waiting[place].task == t
    case RunAgain(t) => t in s.items && t in s.calls
  }

  function TasksOf(woken: seq<Waiter>): set<Task> { set w | w in woken :: w.task }

  function GiveEach<V>(items: map<Task, V>, woken: seq<Waiter>, v: V): map<Task, V> {
    items + map t | t in TasksOf(woken) :: v
  }

  // Each woken task's item is given the bits that woke it.
  function Wake(items: map<Task, Bits>, woken: seq<Waiter>, now: Bits): map<Task, Bits> {
    GiveEach(items, woken, WokenValue(now))
  }

  function Apply(s: System, step: Step): System
    requires Enabled(s, step)
  {
    match step
    case DoSet(added) =>
      var now := Or(s.g.bits, added);
      s.(g := AfterSet(s.g, added), items := Wake(s.items, Matched(s.g.waiting, now), now))
    case DoClear(mask) => s.(g := s.g.(bits := Without(s.g.bits, mask)))
    case DoWait(t, w, block) =>
      var (after, outcome) := WaitBits(s.g, t, w, block);
      s.(g := after, calls := if outcome.Sleep? then s.calls[t := w] else s.calls)
    case DoSync(t, added, mask, block) =>
      var now := Or(s.g.bits, added);
      var (after, outcome) := Sync(s.g, t, added, mask, block);
      s.(g := after, calls := if outcome.Sleep? then s.calls[t := Rendezvous(mask)] else s.calls,
         items := Wake(s.items, Matched(s.g.waiting, now), now))
    case TimeOut(t, place) =>
      s.(g := s.g.(waiting := Cut(s.g.waiting, place)), items := s.items[t := s.g.waiting[place].value])
    case RunAgain(t) => s.(g := Resume(s.g, s.calls[t], s.items[t]).0, calls := s.calls - {t}, items := s.items - {t})
  }

  // What task t's call returns when it runs again.
  function Returned(s: System, t: Task): Bits
    requires t in s.calls && t in s.items
  {
    Resume(s.g, s.calls[t], s.items[t]).1
  }
}
