// Tasks that meet with xEventGroupSync, again and again, on one set of bits.
module SyncBarrier {
  import opened EventGroups
  import E = EventSafety

  // The union of some words.
  function OrAll(share: seq<Bits>): Bits { if share == [] then 0 else Or(share[0], OrAll(share[1..])) }

  // Each task sets bits of its own, and together they are the bits waited for.
  ghost predicate Shares(share: seq<Bits>, mask: Bits) {
    && Legal(Rendezvous(mask)) && mask == OrAll(share)
    && (forall i :: 0 <= i < |share| ==> share[i] != 0 && !Meets(share[i], CONTROL_BYTES))
    && (forall i, j :: 0 <= i < |share| && 0 <= j < |share| && i != j ==> !Meets(share[i], share[j]))
  }

  lemma CoversPart(x: Bits, a: Bits, b: Bits)
    requires x & (a | b) == a | b
    ensures x & a == a && x & b == b
  {
  }

  lemma CoversSum(x: Bits, a: Bits, b: Bits)
    ensures x & (a | b) == (x & a) | (x & b)
  {
  }

  lemma CoversBoth(x: Bits, a: Bits, b: Bits)
    ensures Covers(x, Or(a, b)) <==> Covers(x, a) && Covers(x, b)
  {
    if x & (a | b) == a | b { CoversPart(x, a, b); } else { CoversSum(x, a, b); }
  }

  lemma CoversZero(x: Bits)
    ensures Covers(x, 0)
  {
  }

  lemma CoveredMeets(x: Bits, b: Bits)
    requires Covers(x, b) && b != 0
    ensures Meets(x, b)
  {
  }

  lemma WithoutNothing(x: Bits)
    ensures Without(x, 0) == x
  {
  }

  lemma {:induction false} CoversAll(x: Bits, share: seq<Bits>)
    ensures Covers(x, OrAll(share)) <==> forall i :: 0 <= i < |share| ==> Covers(x, share[i])
  {
    hide Covers, Or;
    if share == [] {
      CoversZero(x);
    } else {
      CoversAll(x, share[1..]);
      CoversBoth(x, share[0], OrAll(share[1..]));
      if Covers(x, OrAll(share)) {
        forall i | 0 <= i < |share| ensures Covers(x, share[i]) { assert i > 0 ==> share[1..][i - 1] == share[i]; }
      }
    }
  }

  lemma CoversItself(x: Bits)
    ensures Covers(x, x)
  {
  }

  lemma MaskCoversShare(share: seq<Bits>, mask: Bits, i: nat)
    requires Shares(share, mask) && i < |share|
    ensures Covers(mask, share[i])
  {
    hide Covers, Meets, Legal;
    CoversItself(mask);
    CoversAll(mask, share);
  }

  // ----- The barrier -----

  // arrived and returned count each task's calls begun and ended; last is what its last call returned;
  // rounds counts the times all had arrived.
  datatype Barrier = Barrier(s: System, arrived: seq<nat>, returned: seq<nat>, last: seq<Bits>, rounds: nat)

  datatype Move = Arrive(i: nat) | Leave(i: nat)

  predicate Possible(b: Barrier, share: seq<Bits>, mask: Bits, move: Move) {
    && |b.arrived| == |b.returned| == |b.last| == |share| && move.i < |share|
    && match move
       case Arrive(i) => b.arrived[i] == b.returned[i] && Enabled(b.s, DoSync(i, share[i], mask, true))
       case Leave(i) => Enabled(b.s, RunAgain(i))
  }

  function Take(b: Barrier, share: seq<Bits>, mask: Bits, move: Move): Barrier
    requires Possible(b, share, mask, move)
  {
    var i := move.i;
    match move
    case Arrive(i) =>
      var outcome := Sync(b.s.g, i, share[i], mask, true).1;
      var after := b.(s := Apply(b.s, DoSync(i, share[i], mask, true)), arrived := b.arrived[i := b.arrived[i] + 1]);
      if outcome.Sleep? then after
      else
        after.(returned := b.returned[i := b.returned[i] + 1], last := b.last[i := outcome.value],
               rounds := b.rounds + 1)
    case Leave(i) =>
      b.(s := Apply(b.s, RunAgain(i)), returned := b.returned[i := b.returned[i] + 1],
         last := b.last[i := Returned(b.s, i)])
  }

  // A task is outside, waiting for the others, or released and not yet gone.
  ghost predicate Outside(b: Barrier, share: seq<Bits>, i: nat)
    requires |b.arrived| == |b.returned| == |share| && i < |share|
  {
    b.arrived[i] == b.rounds == b.returned[i] && i !in b.s.calls && !Meets(b.s.g.bits, share[i])
  }

  ghost predicate Waiting(b: Barrier, share: seq<Bits>, i: nat)
    requires |b.arrived| == |b.returned| == |share| && i < |share|
  {
    && b.arrived[i] == b.rounds + 1 && b.returned[i] == b.rounds && i !in b.s.items && i in b.s.calls
    && Covers(b.s.g.bits, share[i])
  }

  ghost predicate Released(b: Barrier, share: seq<Bits>, mask: Bits, i: nat)
    requires |b.arrived| == |b.returned| == |share| && i < |share|
  {
    && b.arrived[i] == b.rounds == b.returned[i] + 1 && i in b.s.items && i in b.s.calls
    && Meets(b.s.items[i], UNBLOCKED_BY_SET) && Covers(Without(b.s.items[i], CONTROL_BYTES), mask)
    && !Meets(b.s.g.bits, share[i])
  }

  ghost predicate Inv(b: Barrier, share: seq<Bits>, mask: Bits) {
    && E.Inv(b.s) && |b.arrived| == |b.returned| == |b.last| == |share|
    && (forall t :: t in b.s.calls ==> t < |share| && b.s.calls[t] == Rendezvous(mask))
    && (forall i :: 0 <= i < |share| ==> Outside(b, share, i) || Waiting(b, share, i) || Released(b, share, mask, i))
    && (forall i :: 0 <= i < |share| && b.returned[i] > 0 ==> Covers(b.last[i], mask))
  }

  lemma StandingOf(b: Barrier, share: seq<Bits>, mask: Bits, i: nat)
    requires Inv(b, share, mask) && i < |share|
    ensures Outside(b, share, i) || Waiting(b, share, i) || Released(b, share, mask, i)
  {
  }

  // What the bits are once i has set its own.
  lemma BitsAfter(b: Barrier, share: seq<Bits>, mask: Bits, i: nat, j: nat)
    requires Inv(b, share, mask) && Shares(share, mask) && i < |share| && j < |share| && Outside(b, share, i)
    ensures var now := Or(b.s.g.bits, share[i]);
      if j == i || Waiting(b, share, j) then Covers(now, share[j]) else !Meets(now, share[j])
  {
    hide Covers, Meets, Or, Without, E.Inv;
    StandingOf(b, share, mask, j);
    OrMeets(b.s.g.bits, share[i], share[j]);
    CoversItself(share[i]);
    if j == i || Waiting(b, share, j) { OrCovers(b.s.g.bits, share[i], share[j]); }
  }

  // The last to arrive finds every other task waiting.
  lemma OpensWhenAllArrive(b: Barrier, share: seq<Bits>, mask: Bits, i: nat)
    requires Inv(b, share, mask) && Shares(share, mask) && i < |share| && Outside(b, share, i)
    ensures Covers(Or(b.s.g.bits, share[i]), mask) <==> forall j :: 0 <= j < |share| && j != i ==> Waiting(b, share, j)
    ensures Covers(Or(b.s.g.bits, share[i]), mask) <==> forall k: nat :: HasBit(mask, k) ==>
      HasBit(b.s.g.bits, k) || HasBit(share[i], k)
  {
    hide Covers, Meets, Or, Without, HasBit, E.Inv, Waiting;
    var now := Or(b.s.g.bits, share[i]);
    CoversByBits(now, mask);
    forall k: nat ensures HasBit(now, k) <==> HasBit(b.s.g.bits, k) || HasBit(share[i], k) {
      BitsOf(b.s.g.bits, share[i], k);
    }
    CoversAll(now, share);
    forall j | 0 <= j < |share| ensures Covers(now, share[j]) <==> j == i || Waiting(b, share, j) {
      BitsAfter(b, share, mask, i, j);
      if Covers(now, share[j]) { CoveredMeets(now, share[j]); }
    }
  }

  // Every task on the list waits for the same bits, so all of them are met or none.
  lemma AllOrNone(b: Barrier, share: seq<Bits>, mask: Bits, now: Bits)
    requires Inv(b, share, mask)
    ensures Covers(now, mask) ==> forall w :: w in b.s.g.waiting ==> w in Matched(b.s.g.waiting, now)
    ensures !Covers(now, mask) ==> Matched(b.s.g.waiting, now) == []
  {
    hide Covers, Meets, Or, Without, Outside, Waiting, Released, WaitOf, ItemValue, Legal;
    WhoMatches(b.s.g.waiting, now);
    forall w | w in b.s.g.waiting ensures WaitOf(w.value) == Rendezvous(mask) {
      assert E.WaiterOk(b.s, w);
      E.WaitIs(b.s, w);
    }
    ListRing.EmptyOrMember(Matched(b.s.g.waiting, now));
  }

  lemma OnTheList(b: Barrier, share: seq<Bits>, mask: Bits, j: nat)
    requires Inv(b, share, mask) && j in b.s.calls && j !in b.s.items
    ensures exists w :: w in b.s.g.waiting && w.task == j
  {
  }

  lemma ItemsAreCalls(b: Barrier, share: seq<Bits>, mask: Bits)
    requires Inv(b, share, mask)
    ensures forall t :: t in b.s.items ==> t in b.s.calls
    ensures !Meets(b.s.g.bits, CONTROL_BYTES)
  {
    forall t | t in b.s.items ensures t in b.s.calls { assert E.ItemOk(b.s, t); }
  }

  // The last task arrives: it returns at once, and all the others are released with the same value.
  lemma LastArrives(b: Barrier, share: seq<Bits>, mask: Bits, i: nat)
    requires Inv(b, share, mask) && Shares(share, mask) && Possible(b, share, mask, Arrive(i)) && Outside(b, share, i)
    requires Covers(Or(b.s.g.bits, share[i]), mask)
    ensures Inv(Take(b, share, mask, Arrive(i)), share, mask)
  {
    hide Covers, Meets, Or, Without, E.Inv, WaitOf, ItemValue, Legal, WokenValue, Shares, Matched, Unmatched,
      ClearMask, Met;
    var now, after := Or(b.s.g.bits, share[i]), Take(b, share, mask, Arrive(i));
    E.ApplyKeeps(b.s, DoSync(i, share[i], mask, true));
    OpensWhenAllArrive(b, share, mask, i);
    AllOrNone(b, share, mask, now);
    ItemsAreCalls(b, share, mask);
    OrMeets(b.s.g.bits, share[i], CONTROL_BYTES);
    WokenValueFacts(now);
    forall j | 0 <= j < |share|
      ensures Outside(after, share, j) || Waiting(after, share, j) || Released(after, share, mask, j)
    {
      MaskCoversShare(share, mask, j);
      WithoutCovered(AfterSet(b.s.g, share[i]).bits, mask, share[j]);
      if j != i {
        assert Waiting(b, share, j);
        OnTheList(b, share, mask, j);
        assert after.s.items[j] == WokenValue(now);
      }
    }
  }

  // Another task arrives: nobody is released, and it waits.
  lemma OtherArrives(b: Barrier, share: seq<Bits>, mask: Bits, i: nat)
    requires Inv(b, share, mask) && Shares(share, mask) && Possible(b, share, mask, Arrive(i)) && Outside(b, share, i)
    requires !Covers(Or(b.s.g.bits, share[i]), mask)
    ensures Inv(Take(b, share, mask, Arrive(i)), share, mask)
  {
    hide Covers, Meets, Or, Without, E.Inv, WaitOf, ItemValue, Legal, WokenValue, Shares, Matched, Unmatched, Met;
    var now, after := Or(b.s.g.bits, share[i]), Take(b, share, mask, Arrive(i));
    E.ApplyKeeps(b.s, DoSync(i, share[i], mask, true));
    AllOrNone(b, share, mask, now);
    ItemsAreCalls(b, share, mask);
    WithoutNothing(now);
    assert after.s.g.bits == now && after.s.items == b.s.items;
    forall j | 0 <= j < |share|
      ensures Outside(after, share, j) || Waiting(after, share, j) || Released(after, share, mask, j)
    {
      BitsAfter(b, share, mask, i, j);
      StandingOf(b, share, mask, j);
    }
  }

  lemma LeaveKeeps(b: Barrier, share: seq<Bits>, mask: Bits, i: nat)
    requires Inv(b, share, mask) && Possible(b, share, mask, Leave(i))
    ensures Inv(Take(b, share, mask, Leave(i)), share, mask)
  {
    hide Covers, Meets, Or, Without, E.Inv, Legal, Met;
    E.ApplyKeeps(b.s, RunAgain(i));
    var after := Take(b, share, mask, Leave(i));
    StandingOf(b, share, mask, i);
    forall j | 0 <= j < |share|
      ensures Outside(after, share, j) || Waiting(after, share, j) || Released(after, share, mask, j)
    {
      StandingOf(b, share, mask, j);
    }
  }

  lemma MoveKeeps(b: Barrier, share: seq<Bits>, mask: Bits, move: Move)
    requires Inv(b, share, mask) && Shares(share, mask) && Possible(b, share, mask, move)
    ensures Inv(Take(b, share, mask, move), share, mask)
  {
    hide Inv, Shares, Covers, Or, Take, Released;
    match move
    case Arrive(i) =>
      StandingOf(b, share, mask, i);
      NotReleased(b, share, mask, i);
      if Covers(Or(b.s.g.bits, share[i]), mask) { LastArrives(b, share, mask, i); }
      else { OtherArrives(b, share, mask, i); }
    case Leave(i) => LeaveKeeps(b, share, mask, i);
  }

  lemma NotReleased(b: Barrier, share: seq<Bits>, mask: Bits, i: nat)
    requires |b.arrived| == |b.returned| == |share| && i < |share| && b.arrived[i] == b.returned[i]
    ensures !Released(b, share, mask, i) && !Waiting(b, share, i)
  {
  }

  // ----- Runs -----

  ghost predicate Start(b: Barrier, share: seq<Bits>) {
    && |b.arrived| == |b.returned| == |b.last| == |share| && b.rounds == 0 && b.s.calls == map[] && b.s.items == map[]
    && b.s.g.waiting == [] && !Meets(b.s.g.bits, CONTROL_BYTES)
    && forall i :: 0 <= i < |share| ==> b.arrived[i] == b.returned[i] == 0 && !Meets(b.s.g.bits, share[i])
  }

  ghost predicate IsRun(run: seq<Barrier>, moves: seq<Move>, share: seq<Bits>, mask: Bits) {
    && |run| == |moves| + 1 && Start(run[0], share)
    && forall i :: 0 <= i < |moves| ==>
         Possible(run[i], share, mask, moves[i]) && run[i + 1] == Take(run[i], share, mask, moves[i])
  }

  lemma {:induction false} RunKeeps(run: seq<Barrier>, moves: seq<Move>, share: seq<Bits>, mask: Bits, n: nat)
    requires IsRun(run, moves, share, mask) && Shares(share, mask) && n < |run|
    ensures Inv(run[n], share, mask)
  {
    if n == 0 {
      hide Meets, Covers, Or, Shares;
    } else {
      hide Inv, Shares, Take, Possible, Start;
      RunKeeps(run, moves, share, mask, n - 1);
      MoveKeeps(run[n - 1], share, mask, moves[n - 1]);
    }
  }

  // In every run, no task returns from its k-th rendezvous before every task has arrived for it, no
  // task gets further than one rendezvous ahead of another, and each value returned has all the bits.
  lemma ReusableBarrier(run: seq<Barrier>, moves: seq<Move>, share: seq<Bits>, mask: Bits, n: nat, i: nat, j: nat)
    requires IsRun(run, moves, share, mask) && Shares(share, mask) && n < |run| && i < |share| && j < |share|
    ensures |run[n].arrived| == |run[n].returned| == |run[n].last| == |share|
    ensures run[n].returned[i] <= run[n].arrived[j]
    ensures run[n].returned[i] <= run[n].arrived[i] <= run[n].returned[i] + 1
    ensures run[n].arrived[i] <= run[n].arrived[j] + 1
    ensures run[n].returned[i] > 0 ==> forall k: nat :: HasBit(mask, k) ==> HasBit(run[n].last[i], k)
  {
    hide IsRun, Shares, Covers, Meets, HasBit;
    RunKeeps(run, moves, share, mask, n);
    CoversByBits(run[n].last[i], mask);
    StandingOf(run[n], share, mask, i);
    StandingOf(run[n], share, mask, j);
  }

  // And it never stops: they cannot all be waiting at once.
  lemma NobodyStuck(run: seq<Barrier>, moves: seq<Move>, share: seq<Bits>, mask: Bits, n: nat)
    requires IsRun(run, moves, share, mask) && Shares(share, mask) && n < |run|
    ensures |run[n].arrived| == |run[n].returned| == |share|
    ensures exists i :: 0 <= i < |share| && (Outside(run[n], share, i) || Released(run[n], share, mask, i))
  {
    hide IsRun, Meets, Covers, Or, E.Inv;
    RunKeeps(run, moves, share, mask, n);
    SomeoneNotWaiting(run[n], share, mask);
    var i :| 0 <= i < |share| && !Waiting(run[n], share, i);
    StandingOf(run[n], share, mask, i);
  }

  lemma SomeoneNotWaiting(b: Barrier, share: seq<Bits>, mask: Bits)
    requires Inv(b, share, mask) && Shares(share, mask)
    ensures exists i :: 0 <= i < |share| && !Waiting(b, share, i)
  {
    hide Covers, Meets, Or;
    CoversAll(b.s.g.bits, share);
    forall w | w in b.s.g.waiting ensures !Covers(b.s.g.bits, mask) { assert E.WaiterOk(b.s, w); }
    ListRing.EmptyOrMember(b.s.g.waiting);
    forall i | 0 <= i < |share| && Waiting(b, share, i) ensures b.s.g.waiting != [] { OnTheList(b, share, mask, i); }
    if Covers(b.s.g.bits, mask) {
      assert share != [];
      assert !Waiting(b, share, 0);
    } else {
      var i :| 0 <= i < |share| && !Covers(b.s.g.bits, share[i]);
      assert !Waiting(b, share, i);
    }
  }
}
