// No task is left on an event group's list with its wait met.
module EventSafety {
  import opened EventGroups

  ghost predicate WaiterOk(s: System, w: Waiter) {
    && w.task in s.calls && w.task !in s.items && Legal(s.calls[w.task])
    && w.value == ItemValue(s.calls[w.task]) && !Met(s.g.bits, s.calls[w.task])
  }

  // The item of a task that set bits woke holds a value that meets its wait.
  ghost predicate ItemOk(s: System, t: Task) {
    && t in s.items && t in s.calls && Legal(s.calls[t])
    && (Meets(s.items[t], UNBLOCKED_BY_SET) ==> Met(Without(s.items[t], CONTROL_BYTES), s.calls[t]))
  }

  ghost predicate OncePerTask(waiting: seq<Waiter>) {
    forall i, j :: 0 <= i < j < |waiting| ==> waiting[i].task != waiting[j].task
  }

  ghost predicate Inv(s: System) {
    && !Meets(s.g.bits, CONTROL_BYTES)
    && OncePerTask(s.g.waiting)
    && (forall w :: w in s.g.waiting ==> WaiterOk(s, w))
    && (forall t :: t in s.items ==> ItemOk(s, t))
    && (forall t :: t in s.calls ==> t in s.items || exists w :: w in s.g.waiting && w.task == t)
  }

  lemma {:induction false} UnmatchedOnce(waiting: seq<Waiter>, bits: Bits)
    requires OncePerTask(waiting)
    ensures OncePerTask(Unmatched(waiting, bits))
  {
    hide Met, WaitOf;
    if waiting != [] {
      UnmatchedOnce(waiting[1..], bits);
      WhoMatches(waiting[1..], bits);
    }
  }

  lemma SameTaskSameWaiter(waiting: seq<Waiter>, v: Waiter, w: Waiter)
    requires OncePerTask(waiting) && v in waiting && w in waiting && v.task == w.task
    ensures v == w
  {
  }

  lemma WaitIs(s: System, w: Waiter)
    requires WaiterOk(s, w)
    ensures WaitOf(w.value) == s.calls[w.task] && !Meets(w.value, UNBLOCKED_BY_SET)
  {
    hide ItemValue, WaitOf, Met, Legal;
    ItemValueRoundTrip(s.calls[w.task]);
  }

  lemma SetKeeps(s: System, added: Bits)
    requires Inv(s) && !Meets(added, CONTROL_BYTES)
    ensures Inv(Apply(s, DoSet(added)))
  {
    hide ItemValue, WaitOf, Met, Legal, Meets, Without, Or, OncePerTask, Matched, Unmatched, ClearMask, WokenValue;
    var now, after := Or(s.g.bits, added), Apply(s, DoSet(added));
    var mask := ClearMask(Matched(s.g.waiting, now));
    OrMeets(s.g.bits, added, CONTROL_BYTES);
    FewerMeet(now, mask, CONTROL_BYTES);
    WhoMatches(s.g.waiting, now);
    UnmatchedOnce(s.g.waiting, now);
    forall w | w in s.g.waiting ensures WaitOf(w.value) == s.calls[w.task] { WaitIs(s, w); }
    forall w | w in after.g.waiting ensures WaiterOk(after, w) {
      FewerBits(now, mask, s.calls[w.task]);
      forall v | v in Matched(s.g.waiting, now) ensures v.task != w.task {
        if v.task == w.task { SameTaskSameWaiter(s.g.waiting, v, w); }
      }
    }
    WokenValueFacts(now);
    forall t | t in after.items ensures ItemOk(after, t) {
      if w :| w in Matched(s.g.waiting, now) && w.task == t {
        assert WaiterOk(s, w);
      } else {
        assert ItemOk(s, t);
      }
    }
    forall t | t in after.calls && t !in after.items ensures exists w :: w in after.g.waiting && w.task == t {
      var w :| w in s.g.waiting && w.task == t;
      assert w in after.g.waiting;
    }
  }

  lemma ClearKeeps(s: System, mask: Bits)
    requires Inv(s) && !Meets(mask, CONTROL_BYTES)
    ensures Inv(Apply(s, DoClear(mask)))
  {
    hide ItemValue, WaitOf, Met, Legal, Meets, Without, OncePerTask;
    FewerKeeps(s, mask);
  }

  // Clearing bits, by whatever call, leaves the invariant.
  lemma FewerKeeps(s: System, mask: Bits)
    requires Inv(s)
    ensures Inv(s.(g := s.g.(bits := Without(s.g.bits, mask))))
  {
    hide ItemValue, WaitOf, Met, Legal, Meets, Without, OncePerTask;
    var after := s.(g := s.g.(bits := Without(s.g.bits, mask)));
    FewerMeet(s.g.bits, mask, CONTROL_BYTES);
    forall w | w in s.g.waiting ensures WaiterOk(after, w) { FewerBits(s.g.bits, mask, s.calls[w.task]); }
    forall t | t in s.items ensures ItemOk(after, t) { assert ItemOk(s, t); }
  }

  // A task whose wait is not met joins the list.
  lemma JoinKeeps(s: System, t: Task, w: Wait)
    requires Inv(s) && t !in s.calls && Legal(w) && !Met(s.g.bits, w)
    ensures Inv(s.(g := s.g.(waiting := s.g.waiting + [Waiter(t, ItemValue(w))]), calls := s.calls[t := w]))
  {
    hide ItemValue, WaitOf, Met, Legal, Meets, Without;
    var after := s.(g := s.g.(waiting := s.g.waiting + [Waiter(t, ItemValue(w))]), calls := s.calls[t := w]);
    assert forall v :: v in s.g.waiting ==> v in after.g.waiting && WaiterOk(s, v);
    assert t in s.items ==> ItemOk(s, t);
    assert forall i :: 0 <= i < |s.g.waiting| ==> s.g.waiting[i] in s.g.waiting;
    forall v | v in after.g.waiting ensures WaiterOk(after, v) { if v in s.g.waiting { assert WaiterOk(s, v); } }
    forall u | u in after.items ensures ItemOk(after, u) { assert ItemOk(s, u); }
    assert Waiter(t, ItemValue(w)) in after.g.waiting;
  }

  lemma WaitKeeps(s: System, t: Task, w: Wait, block: bool)
    requires Inv(s) && Enabled(s, DoWait(t, w, block))
    ensures Inv(Apply(s, DoWait(t, w, block)))
  {
    hide Inv, ItemValue, Met, Legal, Without;
    if Met(s.g.bits, w) {
      FewerKeeps(s, w.bits);
    } else if block {
      JoinKeeps(s, t, w);
    }
  }

  lemma SyncKeeps(s: System, t: Task, added: Bits, mask: Bits, block: bool)
    requires Inv(s) && Enabled(s, DoSync(t, added, mask, block))
    ensures Inv(Apply(s, DoSync(t, added, mask, block)))
  {
    hide Inv, ItemValue, Legal, Meets, Covers, Without, Or, Matched, Unmatched, ClearMask, WokenValue;
    SetKeeps(s, added);
    var mid, now := Apply(s, DoSet(added)), Or(s.g.bits, added);
    FewerCover(now, ClearMask(Matched(s.g.waiting, now)), mask);
    if Covers(now, mask) {
      FewerKeeps(mid, mask);
    } else if block {
      JoinKeeps(mid, t, Rendezvous(mask));
    }
  }

  lemma TimeOutKeeps(s: System, t: Task, place: nat)
    requires Inv(s) && Enabled(s, TimeOut(t, place))
    ensures Inv(Apply(s, TimeOut(t, place)))
  {
    hide ItemValue, WaitOf, Met, Legal, Meets, Without;
    var after, w := Apply(s, TimeOut(t, place)), s.g.waiting[place];
    WaitIs(s, w);
    forall v | v in s.g.waiting && v != w ensures v in after.g.waiting {
      var i :| 0 <= i < |s.g.waiting| && s.g.waiting[i] == v;
      assert after.g.waiting[if i < place then i else i - 1] == v;
    }
    forall v | v in after.g.waiting ensures WaiterOk(after, v) { assert WaiterOk(s, v); }
    forall u | u in after.items ensures ItemOk(after, u) { if u != t { assert ItemOk(s, u); } }
  }

  lemma RunAgainKeeps(s: System, t: Task)
    requires Inv(s) && Enabled(s, RunAgain(t))
    ensures Inv(Apply(s, RunAgain(t)))
  {
    hide ItemValue, WaitOf, Met, Legal, Meets, Without, OncePerTask;
    var gone := s.(calls := s.calls - {t}, items := s.items - {t});
    forall w | w in s.g.waiting ensures WaiterOk(gone, w) { assert WaiterOk(s, w); }
    forall u | u in gone.items ensures ItemOk(gone, u) { assert ItemOk(s, u); }
    FewerKeeps(gone, s.calls[t].bits);
  }

  lemma ApplyKeeps(s: System, step: Step)
    requires Inv(s) && Enabled(s, step)
    ensures Inv(Apply(s, step))
  {
    hide Inv;
    match step
    case DoSet(added) => SetKeeps(s, added);
    case DoClear(mask) => ClearKeeps(s, mask);
    case DoWait(t, w, block) => WaitKeeps(s, t, w, block);
    case DoSync(t, added, mask, block) => SyncKeeps(s, t, added, mask, block);
    case TimeOut(t, place) => TimeOutKeeps(s, t, place);
    case RunAgain(t) => RunAgainKeeps(s, t);
  }

  // ----- Runs -----

  const CREATED := System(Group(0, []), map[], map[])

  ghost predicate IsRun(run: seq<System>, steps: seq<Step>) {
    && |run| == |steps| + 1 && run[0] == CREATED
    && forall i :: 0 <= i < |steps| ==> Enabled(run[i], steps[i]) && run[i + 1] == Apply(run[i], steps[i])
  }

  lemma {:induction false} RunKeeps(run: seq<System>, steps: seq<Step>, n: nat)
    requires IsRun(run, steps) && n < |run|
    ensures Inv(run[n])
  {
    if n == 0 {
      OrZero(0, CONTROL_BYTES);
    } else {
      hide Inv, Enabled, Apply;
      RunKeeps(run, steps, n - 1);
      ApplyKeeps(run[n - 1], steps[n - 1]);
    }
  }

  // No task is left on the list with its condition met, and every blocked task is on the list or
  // about to run again.
  lemma NoneLeftWaiting(run: seq<System>, steps: seq<Step>, n: nat)
    requires IsRun(run, steps) && n < |run|
    ensures forall w :: w in run[n].g.waiting ==>
      w.task in run[n].calls && !Satisfied(run[n].g.bits, run[n].calls[w.task])
    ensures forall t :: t in run[n].calls ==> t in run[n].items || exists w :: w in run[n].g.waiting && w.task == t
  {
    hide IsRun, Met, Satisfied, Meets, Legal, ItemValue, Without;
    RunKeeps(run, steps, n);
    forall w | w in run[n].g.waiting
      ensures w.task in run[n].calls && !Satisfied(run[n].g.bits, run[n].calls[w.task])
    {
      assert WaiterOk(run[n], w);
      MetExactly(run[n].g.bits, run[n].calls[w.task]);
    }
  }

  // What sets bit i: a call that sets bits.
  predicate SetsBit(step: Step, i: nat) { (step.DoSet? || step.DoSync?) && HasBit(step.added, i) }

  // What clears it: a call that clears bits; a task woken by this step that asks for it; and a call that
  // clears on exit and returns, at once or after a time-out, with its wait satisfied.
  ghost predicate ClearsBit(s: System, step: Step, i: nat)
    requires Enabled(s, step)
  {
    match step
    case DoSet(added) => WokenAsks(s.g, Or(s.g.bits, added), i)
    case DoClear(mask) => HasBit(mask, i)
    case DoWait(t, w, block) => Satisfied(s.g.bits, w) && w.clearOnExit && HasBit(w.bits, i)
    case DoSync(t, added, mask, block) =>
      || WokenAsks(s.g, Or(s.g.bits, added), i)
      || (Satisfied(Or(s.g.bits, added), Rendezvous(mask)) && HasBit(mask, i))
    case TimeOut(t, place) => false
    case RunAgain(t) =>
      !Meets(s.items[t], UNBLOCKED_BY_SET) && Satisfied(s.g.bits, s.calls[t]) && s.calls[t].clearOnExit
        && HasBit(s.calls[t].bits, i)
  }

  ghost predicate WokenAsks(g: Group, now: Bits, i: nat) {
    exists w :: w in g.waiting && Satisfied(now, WaitOf(w.value)) && Asks(w, i)
  }

  lemma RendezvousMet(now: Bits, mask: Bits)
    ensures Satisfied(now, Rendezvous(mask)) <==> Covers(now, mask)
  {
    hide Satisfied, Covers;
    MetExactly(now, Rendezvous(mask));
  }

  // Every step sets and clears exactly those bits.
  lemma BitsChangeExactly(s: System, step: Step, i: nat)
    requires Enabled(s, step)
    ensures HasBit(Apply(s, step).g.bits, i) <==>
      (HasBit(s.g.bits, i) || SetsBit(step, i)) && !ClearsBit(s, step, i)
  {
    hide HasBit, Met, Satisfied, Covers, Without, Or, WaitOf, Matched, Unmatched, ClearMask, Asks, ItemValue, Legal,
      Meets;
    match step {
      case DoSet(added) => SetBitsExactly(s.g, added, i);
      case DoClear(mask) => BitsOf(s.g.bits, mask, i);
      case DoWait(t, w, block) =>
        MetExactly(s.g.bits, w);
        BitsOf(s.g.bits, w.bits, i);
      case DoSync(t, added, mask, block) =>
        SetBitsExactly(s.g, added, i);
        RendezvousMet(Or(s.g.bits, added), mask);
        BitsOf(AfterSet(s.g, added).bits, mask, i);
      case TimeOut(t, place) =>
      case RunAgain(t) =>
        MetExactly(s.g.bits, s.calls[t]);
        BitsOf(s.g.bits, s.calls[t].bits, i);
    }
  }

  // A task that set bits woke returns a value that meets what it waited for, whatever has happened to
  // the bits between its waking and its running.
  lemma WokenWithItsBits(run: seq<System>, steps: seq<Step>, n: nat, t: Task)
    requires IsRun(run, steps) && n < |run| && t in run[n].items && t in run[n].calls
    requires Meets(run[n].items[t], UNBLOCKED_BY_SET)
    ensures Satisfied(Returned(run[n], t), run[n].calls[t])
  {
    hide IsRun, Met, Satisfied, Meets, Legal, ItemValue, Without;
    RunKeeps(run, steps, n);
    assert ItemOk(run[n], t);
    MetExactly(Returned(run[n], t), run[n].calls[t]);
  }
}
