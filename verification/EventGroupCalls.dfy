// The event group calls, updating the group and the waiting tasks' items in place.
module EventGroupCalls {
  import G = EventGroups

  type Bits = G.Bits
  type Task = G.Task

  lemma OrThree(x: Bits, y: Bits, z: Bits)
    ensures G.Or(G.Or(x, y), z) == G.Or(x, G.Or(y, z))
  {
  }

  // What taking one woken task off the list adds to the bits to clear, and to the items.
  lemma ClearsOne(clear: Bits, item: G.Waiter, more: seq<G.Waiter>)
    ensures G.Or(clear, G.ClearMask([item] + more))
         == G.Or(if G.WaitOf(item.value).clearOnExit then G.Or(clear, G.WaitOf(item.value).bits) else clear,
                 G.ClearMask(more))
  {
    hide G.Or, G.WaitOf;
    assert ([item] + more)[1..] == more;
    OrThree(clear, G.Clears(item), G.ClearMask(more));
    G.OrZero(clear, 0);
  }

  lemma TasksOfOne(item: G.Waiter, more: seq<G.Waiter>)
    ensures G.TasksOf([item] + more) == {item.task} + G.TasksOf(more)
  {
    assert item in [item] + more && forall w :: w in more ==> w in [item] + more;
  }

  lemma GivesOne<V>(items: map<Task, V>, item: G.Waiter, more: seq<G.Waiter>, v: V)
    ensures G.GiveEach(items, [item] + more, v) == G.GiveEach(items[item.task := v], more, v)
  {
    TasksOfOne(item, more);
    hide G.TasksOf;
    assert G.GiveEach(items, [item] + more, v).Keys == G.GiveEach(items[item.task := v], more, v).Keys;
  }

  lemma WakesOne(items: map<Task, Bits>, item: G.Waiter, more: seq<G.Waiter>, now: Bits)
    ensures G.Wake(items, [item] + more, now) == G.Wake(items[item.task := G.WokenValue(now)], more, now)
  {
    hide G.WokenValue, G.GiveEach;
    GivesOne(items, item, more, G.WokenValue(now));
  }

  lemma MatchesFirst(item: G.Waiter, rest: seq<G.Waiter>, now: Bits)
    ensures G.Matched([item] + rest, now)
         == (if G.Met(now, G.WaitOf(item.value)) then [item] else []) + G.Matched(rest, now)
    ensures G.Unmatched([item] + rest, now)
         == (if G.Met(now, G.WaitOf(item.value)) then [] else [item]) + G.Unmatched(rest, now)
  {
    hide G.Met, G.WaitOf;
    assert ([item] + rest)[1..] == rest;
  }

  lemma NoneLeft(now: Bits, clear: Bits, items: map<Task, Bits>)
    ensures G.Matched([], now) == G.Unmatched([], now) == [] && G.Or(clear, G.ClearMask([])) == clear
    ensures G.Wake(items, [], now) == items
  {
    G.OrZero(clear, 0);
  }

  // ----- What every call keeps -----

  // No task is on the list with its wait met.
  ghost predicate NoneMet(g: G.Group) { forall w :: w in g.waiting ==> !G.Satisfied(g.bits, G.WaitOf(w.value)) }

  lemma FewerNoneMet(g: G.Group, mask: Bits)
    requires NoneMet(g)
    ensures NoneMet(g.(bits := G.Without(g.bits, mask)))
  {
    hide G.Met, G.WaitOf, G.Without, G.Satisfied;
    forall w | w in g.waiting ensures !G.Satisfied(G.Without(g.bits, mask), G.WaitOf(w.value)) {
      G.MetExactly(g.bits, G.WaitOf(w.value));
      G.FewerBits(g.bits, mask, G.WaitOf(w.value));
      G.MetExactly(G.Without(g.bits, mask), G.WaitOf(w.value));
    }
  }

  lemma SetNoneMet(g: G.Group, added: Bits)
    ensures NoneMet(G.AfterSet(g, added))
  {
    hide G.Met, G.Satisfied, G.WaitOf, G.Without, G.Or, G.ClearMask, G.Unmatched, G.Matched;
    var now := G.Or(g.bits, added);
    G.WhoMatches(g.waiting, now);
    forall w | w in G.AfterSet(g, added).waiting ensures !G.Satisfied(G.AfterSet(g, added).bits, G.WaitOf(w.value)) {
      G.FewerBits(now, G.ClearMask(G.Matched(g.waiting, now)), G.WaitOf(w.value));
      G.MetExactly(G.AfterSet(g, added).bits, G.WaitOf(w.value));
    }
  }

  lemma JoinNoneMet(g: G.Group, t: Task, w: G.Wait)
    requires NoneMet(g) && G.Legal(w) && !G.Satisfied(g.bits, w)
    ensures NoneMet(g.(waiting := g.waiting + [G.Waiter(t, G.ItemValue(w))])) && G.WaitOf(G.ItemValue(w)) == w
  {
    hide G.Satisfied, G.WaitOf, G.ItemValue, G.Legal;
    G.ItemValueRoundTrip(w);
  }

  lemma UnmetAfterSet(g: G.Group, added: Bits, w: G.Wait)
    requires !G.Satisfied(G.Or(g.bits, added), w)
    ensures !G.Satisfied(G.AfterSet(g, added).bits, w)
  {
    hide G.Met, G.Satisfied, G.Without, G.Or, G.ClearMask, G.Matched, G.Unmatched;
    G.MetExactly(G.Or(g.bits, added), w);
    G.MetExactly(G.AfterSet(g, added).bits, w);
    G.FewerBits(G.Or(g.bits, added), G.ClearMask(G.Matched(g.waiting, G.Or(g.bits, added))), w);
  }

  // The bits of the mask are clear, and no other bit has changed.
  ghost predicate Cleared(before: Bits, after: Bits, mask: Bits) {
    forall i: nat :: G.HasBit(after, i) <==> G.HasBit(before, i) && !G.HasBit(mask, i)
  }

  lemma WithoutClears(before: Bits, mask: Bits)
    ensures Cleared(before, G.Without(before, mask), mask)
  {
    hide G.HasBit, G.Without;
    forall i: nat ensures G.HasBit(G.Without(before, mask), i) <==> G.HasBit(before, i) && !G.HasBit(mask, i) {
      G.BitsOf(before, mask, i);
    }
  }

  // Before and after bits are set: the waiters satisfied by old and new bits together are off the list,
  // their items hold those bits, and what they asked for is cleared.
  ghost predicate SetGives(g: G.Group, after: G.Group, items: map<Task, Bits>, items': map<Task, Bits>, added: Bits) {
    var now := G.Or(g.bits, added);
    && (forall i: nat :: G.HasBit(now, i) <==> G.HasBit(g.bits, i) || G.HasBit(added, i))
    && (forall w :: w in after.waiting <==> w in g.waiting && !G.Satisfied(now, G.WaitOf(w.value)))
    && (forall w :: w in g.waiting && G.Satisfied(now, G.WaitOf(w.value)) ==>
          w.task in items' && items'[w.task] == G.WokenValue(now))
    && (forall t :: t in items' && !WokenBy(g, now, t) ==> t in items && items'[t] == items[t])
    && (forall t :: t in items ==> t in items')
    && (forall i: nat :: G.HasBit(after.bits, i) <==> G.HasBit(now, i) && !ClearedBy(g, now, i))
  }

  ghost predicate WokenBy(g: G.Group, now: Bits, t: Task) {
    exists w :: w in g.waiting && G.Satisfied(now, G.WaitOf(w.value)) && w.task == t
  }

  ghost predicate ClearedBy(g: G.Group, now: Bits, i: nat) {
    exists w :: w in g.waiting && G.Satisfied(now, G.WaitOf(w.value)) && G.Asks(w, i)
  }

  lemma SetDoes(g: G.Group, items: map<Task, Bits>, added: Bits)
    ensures var now := G.Or(g.bits, added);
      SetGives(g, G.AfterSet(g, added), items, G.Wake(items, G.Matched(g.waiting, now), now), added)
  {
    hide G.HasBit, G.Asks, G.WaitOf, G.Satisfied, G.Or, G.AfterSet, G.WokenValue, G.Matched;
    forall i: nat
      ensures G.HasBit(G.Or(g.bits, added), i) <==> G.HasBit(g.bits, i) || G.HasBit(added, i)
      ensures G.HasBit(G.AfterSet(g, added).bits, i) <==>
        G.HasBit(G.Or(g.bits, added), i) && !ClearedBy(g, G.Or(g.bits, added), i)
    {
      G.SetBitsExactly(g, added, i);
    }
    G.SetBitsExactly(g, added, 0);
  }

  class EventGroup {
    var uxEventBits: Bits
    var xTasksWaitingForBits: seq<G.Waiter>
    var items: map<Task, Bits>       // the event list item values of tasks taken off the list

    ghost function State(): G.Group
      reads this
    {
      G.Group(uxEventBits, xTasksWaitingForBits)
    }

    // xEventGroupCreate
    constructor ()
      ensures State() == G.Group(0, []) && items == map[]
    {
      uxEventBits, xTasksWaitingForBits, items := 0, [], map[];
    }

    // xEventGroupSetBits
    method SetBits(uxBitsToSet: Bits)
      modifies this
      ensures State() == G.AfterSet(old(State()), uxBitsToSet)
      ensures var now := G.Or(old(uxEventBits), uxBitsToSet);
        items == G.Wake(old(items), G.Matched(old(xTasksWaitingForBits), now), now)
      ensures SetGives(old(State()), State(), old(items), items, uxBitsToSet) && NoneMet(State())
    {
      SetNoneMet(State(), uxBitsToSet);
      SetDoes(State(), items, uxBitsToSet);
      hide NoneMet, SetGives, G.Or, G.Without, G.Met, G.WaitOf, G.WokenValue, G.Matched, G.Unmatched, G.ClearMask,
        G.Wake;
      uxEventBits := G.Or(uxEventBits, uxBitsToSet);
      var uxBitsToClear: Bits, i := 0, 0;
      ghost var now, was := uxEventBits, xTasksWaitingForBits;
      G.OrZero(G.ClearMask(G.Matched(was, now)), 0);
      assert was[0..] == was;
      while i < |xTasksWaitingForBits|
        invariant i <= |xTasksWaitingForBits| && uxEventBits == now
        invariant xTasksWaitingForBits[..i] + G.Unmatched(xTasksWaitingForBits[i..], now) == G.Unmatched(was, now)
        invariant G.Or(uxBitsToClear, G.ClearMask(G.Matched(xTasksWaitingForBits[i..], now)))
               == G.ClearMask(G.Matched(was, now))
        invariant G.Wake(items, G.Matched(xTasksWaitingForBits[i..], now), now)
               == old(G.Wake(items, G.Matched(was, now), now))
        decreases |xTasksWaitingForBits| - i
      {
        var item := xTasksWaitingForBits[i];
        ghost var rest := xTasksWaitingForBits[i + 1..];
        assert xTasksWaitingForBits[i..] == [item] + rest;
        var w := G.WaitOf(item.value);
        MatchesFirst(item, rest, now);
        if G.Met(uxEventBits, w) {
          ClearsOne(uxBitsToClear, item, G.Matched(rest, now));
          WakesOne(items, item, G.Matched(rest, now), now);
          if w.clearOnExit { uxBitsToClear := G.Or(uxBitsToClear, w.bits); }
          items := items[item.task := G.WokenValue(uxEventBits)];
          xTasksWaitingForBits := xTasksWaitingForBits[..i] + xTasksWaitingForBits[i + 1..];
          assert xTasksWaitingForBits[i..] == rest;
        } else {
          assert xTasksWaitingForBits[..i + 1] == xTasksWaitingForBits[..i] + [item];
          assert [] + G.Matched(rest, now) == G.Matched(rest, now);
          i := i + 1;
        }
      }
      assert xTasksWaitingForBits[i..] == [];
      NoneLeft(now, uxBitsToClear, items);
      uxEventBits := G.Without(uxEventBits, uxBitsToClear);
    }

    // xEventGroupClearBits
    method ClearBits(uxBitsToClear: Bits) returns (value: Bits)
      modifies this`uxEventBits
      ensures value == old(uxEventBits) && State() == old(State()).(bits := G.Without(old(uxEventBits), uxBitsToClear))
      ensures Cleared(value, uxEventBits, uxBitsToClear) && (old(NoneMet(State())) ==> NoneMet(State()))
    {
      if NoneMet(State()) { FewerNoneMet(State(), uxBitsToClear); }
      WithoutClears(uxEventBits, uxBitsToClear);
      hide NoneMet, Cleared, G.Without;
      value := uxEventBits;
      uxEventBits := G.Without(uxEventBits, uxBitsToClear);
    }

    // xEventGroupWaitBits, up to where the scheduler resumes
    method WaitBits(current: Task, w: G.Wait, block: bool) returns (outcome: G.Outcome)
      requires G.Legal(w)
      modifies this
      ensures (State(), outcome) == G.WaitBits(old(State()), current, w, block) && items == old(items)
      ensures old(NoneMet(State())) ==> NoneMet(State())
      ensures outcome.Sleep? <==> block && !old(G.Satisfied(uxEventBits, w))
      ensures outcome.Return? ==> outcome.value == old(uxEventBits) && xTasksWaitingForBits == old(xTasksWaitingForBits)
      ensures outcome.Return? && G.Satisfied(outcome.value, w) && w.clearOnExit ==>
        Cleared(outcome.value, uxEventBits, w.bits)
      ensures outcome.Return? && !(G.Satisfied(outcome.value, w) && w.clearOnExit) ==> uxEventBits == outcome.value
      ensures outcome.Sleep? ==> exists item: G.Waiter ::
        item.task == current && G.WaitOf(item.value) == w && xTasksWaitingForBits == old(xTasksWaitingForBits) + [item]
    {
      if NoneMet(State()) { FewerNoneMet(State(), w.bits); }
      WithoutClears(uxEventBits, w.bits);
      G.ItemValueRoundTrip(w);
      G.MetExactly(uxEventBits, w);
      if NoneMet(State()) && !G.Met(uxEventBits, w) { JoinNoneMet(State(), current, w); }
      hide NoneMet, Cleared, G.Without, G.Met, G.Satisfied, G.ItemValue, G.WaitOf, G.Legal;
      var currentBits := uxEventBits;
      if G.Met(currentBits, w) {
        outcome := G.Return(currentBits);
        if w.clearOnExit { uxEventBits := G.Without(uxEventBits, w.bits); }
      } else if !block {
        outcome := G.Return(currentBits);
      } else {
        xTasksWaitingForBits := xTasksWaitingForBits + [G.Waiter(current, G.ItemValue(w))];
        outcome := G.Sleep;
      }
    }

    // xEventGroupSync, up to where the scheduler resumes
    method Sync(current: Task, uxBitsToSet: Bits, uxBitsToWaitFor: Bits, block: bool) returns (outcome: G.Outcome)
      requires G.Legal(G.Rendezvous(uxBitsToWaitFor))
      modifies this
      ensures NoneMet(State())
      ensures SetGives(old(State()), G.AfterSet(old(State()), uxBitsToSet), old(items), items, uxBitsToSet)
      ensures var mid, met := G.AfterSet(old(State()), uxBitsToSet),
                              old(G.Satisfied(G.Or(uxEventBits, uxBitsToSet), G.Rendezvous(uxBitsToWaitFor)));
        && (outcome.Sleep? <==> block && !met)
        && (met ==> outcome == G.Return(old(G.Or(uxEventBits, uxBitsToSet)))
                    && Cleared(mid.bits, uxEventBits, uxBitsToWaitFor) && xTasksWaitingForBits == mid.waiting)
        && (!met && !block ==> outcome == G.Return(uxEventBits) && State() == mid)
        && (!met && block ==> uxEventBits == mid.bits)
      ensures outcome.Sleep? ==> exists item: G.Waiter ::
        item.task == current && G.WaitOf(item.value) == G.Rendezvous(uxBitsToWaitFor)
        && xTasksWaitingForBits == G.AfterSet(old(State()), uxBitsToSet).waiting + [item]
      ensures (State(), outcome) == G.Sync(old(State()), current, uxBitsToSet, uxBitsToWaitFor, block)
      ensures var now := G.Or(old(uxEventBits), uxBitsToSet);
        items == G.Wake(old(items), G.Matched(old(xTasksWaitingForBits), now), now)
    {
      ghost var was, w := State(), G.Rendezvous(uxBitsToWaitFor);
      ghost var after := G.AfterSet(was, uxBitsToSet);
      SetNoneMet(was, uxBitsToSet);
      SetDoes(was, items, uxBitsToSet);
      FewerNoneMet(after, uxBitsToWaitFor);
      WithoutClears(after.bits, uxBitsToWaitFor);
      G.ItemValueRoundTrip(w);
      G.MetExactly(G.Or(was.bits, uxBitsToSet), w);
      if !G.Met(G.Or(was.bits, uxBitsToSet), w) {
        UnmetAfterSet(was, uxBitsToSet, w);
        JoinNoneMet(after, current, w);
      }
      hide NoneMet, SetGives, Cleared, G.Satisfied, G.AfterSet, G.Or, G.Without, G.Covers, G.Wake, G.ItemValue,
        G.WaitOf, G.Matched, G.Unmatched, G.ClearMask, G.Legal, G.Meets;
      var uxOriginalBitValue := uxEventBits;
      SetBits(uxBitsToSet);
      if G.Covers(G.Or(uxOriginalBitValue, uxBitsToSet), uxBitsToWaitFor) {
        outcome := G.Return(G.Or(uxOriginalBitValue, uxBitsToSet));
        uxEventBits := G.Without(uxEventBits, uxBitsToWaitFor);
      } else if block {
        xTasksWaitingForBits := xTasksWaitingForBits + [G.Waiter(current, G.ItemValue(G.Rendezvous(uxBitsToWaitFor)))];
        outcome := G.Sleep;
      } else {
        outcome := G.Return(uxEventBits);
      }
    }

    // The end of both calls, once the task runs again
    method Finish(current: Task, w: G.Wait) returns (value: Bits)
      requires current in items
      modifies this
      ensures (State(), value) == G.Resume(old(State()), w, old(items)[current]) && items == old(items) - {current}
      ensures old(NoneMet(State())) ==> NoneMet(State())
      ensures forall now: Bits :: !G.Meets(now, G.CONTROL_BYTES) && old(items)[current] == G.WokenValue(now) ==>
        value == now && State() == old(State())
      ensures !G.Meets(old(items)[current], G.UNBLOCKED_BY_SET) ==>
        value == G.Without(old(uxEventBits), G.CONTROL_BYTES)
      ensures !G.Meets(old(items)[current], G.UNBLOCKED_BY_SET) && old(G.Satisfied(uxEventBits, w)) && w.clearOnExit ==>
        Cleared(old(uxEventBits), uxEventBits, w.bits)
      ensures !(old(G.Satisfied(uxEventBits, w)) && w.clearOnExit) ==> uxEventBits == old(uxEventBits)
      ensures xTasksWaitingForBits == old(xTasksWaitingForBits)
    {
      G.MetExactly(uxEventBits, w);
      if NoneMet(State()) { FewerNoneMet(State(), w.bits); }
      WithoutClears(uxEventBits, w.bits);
      forall now: Bits | !G.Meets(now, G.CONTROL_BYTES) && items[current] == G.WokenValue(now)
        ensures G.Meets(items[current], G.UNBLOCKED_BY_SET) && G.Without(items[current], G.CONTROL_BYTES) == now
      {
        G.WokenValueFacts(now);
      }
      hide NoneMet, Cleared, G.Without, G.Meets, G.Met, G.Satisfied, G.WokenValue;
      value := items[current];
      items := items - {current};
      if !G.Meets(value, G.UNBLOCKED_BY_SET) {
        value := uxEventBits;
        if G.Met(value, w) {
          if w.clearOnExit { uxEventBits := G.Without(uxEventBits, w.bits); }
        }
      }
      value := G.Without(value, G.CONTROL_BYTES);
    }
  }
}
