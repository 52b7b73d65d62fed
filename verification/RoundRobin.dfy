// Round robin among tasks of one priority: how soon a ready task is chosen while others come and go.
module RoundRobin {
  import opened ListRing

  // How many selections from the list until x is chosen, if the list is left alone.
  function Place<T(==)>(r: Ring<T>, x: T): (k: int)
    requires x in r.items
  {
    var p := Find(r.items, x) + 1;
    if p > r.index then p - r.index else |r.items| - r.index + p
  }

  // pxIndex is at x: x was chosen last, or those chosen after it have left the list.
  predicate PointsAt<T(==)>(r: Ring<T>, x: T) { 0 < r.index <= |r.items| && r.items[r.index - 1] == x }

  lemma FindIs<T>(s: seq<T>, x: T, k: nat)
    requires NoDup(s) && k < |s| && s[k] == x
    ensures Find(s, x) == k
  {
  }

  // Each selection brings x one place closer, and chooses it exactly when it is next.
  lemma SelectionAdvances<T>(r: Ring<T>, x: T)
    requires RingWf(r) && x in r.items
    ensures 1 <= Place(r, x) <= |r.items|
    ensures RingWf(Advance(r)) && x in Advance(r).items && (PointsAt(Advance(r), x) <==> Place(r, x) == 1)
    ensures Place(r, x) > 1 ==> Place(Advance(r), x) == Place(r, x) - 1
    ensures PointsAt(r, x) ==> Place(r, x) == |r.items|
  {
    var k := Find(r.items, x);
  }

  // Another task leaving spares x one selection exactly when it would have been chosen before x.
  lemma RemovalShortensExactly<T>(r: Ring<T>, x: T, y: T)
    requires RingWf(r) && x in r.items && y in r.items && y != x
    ensures x in Remove(r, y).items
    ensures Place(Remove(r, y), x) == Place(r, x) - (if Place(r, y) < Place(r, x) then 1 else 0)
  {
    RemoveFacts(r, y);
    var p, k := Find(r.items, x), Find(r.items, y);
    var p' := if p > k then p - 1 else p;
    assert Remove(r, y).items[p'] == x by { hide RingWf; }
    FindIs(Remove(r, y).items, x, p');
  }

  // Another task arriving makes x wait for one more selection exactly when pxIndex is at x.
  lemma ArrivalDelaysExactly<T>(r: Ring<T>, x: T, y: T)
    requires RingWf(r) && x in r.items && y !in r.items
    ensures x in InsertEnd(r, y).items
    ensures Place(InsertEnd(r, y), x) == Place(r, x) + (if PointsAt(r, x) then 1 else 0)
  {
    InsertEndFacts(r, y);
    var p := Find(r.items, x);
    var p' := if 0 < r.index && p >= r.index - 1 then p + 1 else p;
    assert InsertEnd(r, y).items[p'] == x by { hide RingWf; }
    FindIs(InsertEnd(r, y).items, x, p');
    assert PointsAt(r, x) <==> r.index == p + 1;
  }

  // A task that arrives is chosen after every other, save the one pxIndex is at.
  lemma ArrivalGoesLast<T>(r: Ring<T>, y: T)
    requires RingWf(r) && y !in r.items
    ensures y in InsertEnd(r, y).items
    ensures Place(InsertEnd(r, y), y) == |r.items| + (if r.index == 0 then 1 else 0)
  {
    InsertEndFacts(r, y);
    var p := if r.index == 0 then |r.items| else r.index - 1;
    assert InsertEnd(r, y).items[p] == y;
    FindIs(InsertEnd(r, y).items, y, p);
  }

  // ----- Runs -----

  datatype Step<T> = Select | Leave(y: T) | Arrive(y: T)

  predicate Possible<T(==)>(r: Ring<T>, x: T, step: Step<T>) {
    match step
    case Select => true
    case Leave(y) => y in r.items && y != x
    case Arrive(y) => y !in r.items
  }

  function After<T(==)>(r: Ring<T>, step: Step<T>): Ring<T> {
    match step
    case Select => Advance(r)
    case Leave(y) => Remove(r, y)
    case Arrive(y) => InsertEnd(r, y)
  }

  ghost predicate IsRun<T>(r: Ring<T>, x: T, steps: seq<Step<T>>)
    decreases |steps|
  {
    steps == [] || (Possible(r, x, steps[0]) && IsRun(After(r, steps[0]), x, steps[1..]))
  }

  function Selections<T>(steps: seq<Step<T>>): nat {
    if steps == [] then 0 else (if steps[0].Select? then 1 else 0) + Selections(steps[1..])
  }

  predicate Overtaken<T(==)>(r: Ring<T>, x: T, step: Step<T>) { step.Arrive? && PointsAt(r, x) }

  // A task leaves that would have been chosen before x.
  predicate Shortened<T(==)>(r: Ring<T>, x: T, step: Step<T>)
    requires x in r.items && Possible(r, x, step)
  {
    step.Leave? && Place(r, step.y) < Place(r, x)
  }

  // The arrivals made while pxIndex was at x.
  function Overtakings<T(==)>(r: Ring<T>, x: T, steps: seq<Step<T>>): nat
    decreases |steps|
  {
    if steps == [] then 0
    else (if Overtaken(r, x, steps[0]) then 1 else 0) + Overtakings(After(r, steps[0]), x, steps[1..])
  }

  // The departures of tasks that would have been chosen before x.
  function Shortenings<T(==)>(r: Ring<T>, x: T, steps: seq<Step<T>>): nat
    requires RingWf(r) && x in r.items && IsRun(r, x, steps)
    decreases |steps|
  {
    if steps == [] then 0
    else
      StepKeeps(r, x, steps[0]);
      (if Shortened(r, x, steps[0]) then 1 else 0) + Shortenings(After(r, steps[0]), x, steps[1..])
  }

  predicate Chooses<T(==)>(r: Ring<T>, x: T, step: Step<T>) { step.Select? && PointsAt(Advance(r), x) }

  predicate EverChosen<T(==)>(r: Ring<T>, x: T, steps: seq<Step<T>>)
    decreases |steps|
  {
    steps != [] && (Chooses(r, x, steps[0]) || EverChosen(After(r, steps[0]), x, steps[1..]))
  }

  lemma StepKeeps<T>(r: Ring<T>, x: T, step: Step<T>)
    requires RingWf(r) && x in r.items && Possible(r, x, step)
    ensures RingWf(After(r, step)) && x in After(r, step).items
  {
    match step {
      case Select =>
      case Leave(y) => RemoveFacts(r, y);
      case Arrive(y) => InsertEndFacts(r, y);
    }
  }

  // What one step does to the place of a task it does not choose.
  lemma StepPlace<T>(r: Ring<T>, x: T, step: Step<T>)
    requires RingWf(r) && x in r.items && Possible(r, x, step)
    ensures RingWf(After(r, step)) && x in After(r, step).items && Place(r, x) >= 1
    ensures Chooses(r, x, step) <==> step.Select? && Place(r, x) == 1
    ensures !Chooses(r, x, step) ==> (
      Place(After(r, step), x) == Place(r, x) + (if Overtaken(r, x, step) then 1 else 0)
        - (if Shortened(r, x, step) then 1 else 0) - (if step.Select? then 1 else 0))
  {
    hide Place, Remove, InsertEnd, Advance, PointsAt, RingWf;
    StepKeeps(r, x, step);
    SelectionAdvances(r, x);
    match step {
      case Select =>
      case Leave(y) => RemovalShortensExactly(r, x, y);
      case Arrive(y) => ArrivalDelaysExactly(r, x, y);
    }
  }

  function End<T(==)>(r: Ring<T>, steps: seq<Step<T>>): Ring<T>
    decreases |steps|
  {
    if steps == [] then r else End(After(r, steps[0]), steps[1..])
  }

  // Until x is chosen its place is what it was, plus the overtakings, less the selections and shortenings.
  lemma {:induction false} PlaceAccount<T>(r: Ring<T>, x: T, steps: seq<Step<T>>)
    requires RingWf(r) && x in r.items && IsRun(r, x, steps) && !EverChosen(r, x, steps)
    ensures x in End(r, steps).items
    ensures Place(End(r, steps), x)
         == Place(r, x) + Overtakings(r, x, steps) - Shortenings(r, x, steps) - Selections(steps)
    decreases |steps|
  {
    hide Place, RingWf, Chooses, After, PointsAt;
    if steps != [] {
      StepPlace(r, x, steps[0]);
      PlaceAccount(After(r, steps[0]), x, steps[1..]);
    }
  }

  // The selections and shortenings have made up for the place and the overtakings.
  ghost predicate Due<T>(r: Ring<T>, x: T, steps: seq<Step<T>>)
    requires RingWf(r) && x in r.items && IsRun(r, x, steps)
  {
    Selections(steps) + Shortenings(r, x, steps) >= Place(r, x) + Overtakings(r, x, steps)
  }

  ghost predicate DueWithin<T>(r: Ring<T>, x: T, steps: seq<Step<T>>)
    requires RingWf(r) && x in r.items && IsRun(r, x, steps)
  {
    exists n: nat :: n <= |steps| && IsRun(r, x, steps[..n]) && Due(r, x, steps[..n])
  }

  lemma {:induction false} RunPrefix<T>(r: Ring<T>, x: T, steps: seq<Step<T>>, n: nat)
    requires n <= |steps| && IsRun(r, x, steps)
    ensures IsRun(r, x, steps[..n])
    decreases n
  {
    hide Possible, After;
    if n > 0 {
      RunPrefix(After(r, steps[0]), x, steps[1..], n - 1);
      assert steps[..n][1..] == steps[1..][..n - 1];
    }
  }

  // A step that does not choose x is settled in the account of the rest.
  lemma DueStep<T>(r: Ring<T>, x: T, steps: seq<Step<T>>)
    requires RingWf(r) && x in r.items && IsRun(r, x, steps) && steps != [] && !Chooses(r, x, steps[0])
    ensures RingWf(After(r, steps[0])) && x in After(r, steps[0]).items
    ensures Due(r, x, steps) <==> Due(After(r, steps[0]), x, steps[1..])
  {
    hide Place, RingWf, Chooses, After, PointsAt;
    StepPlace(r, x, steps[0]);
  }

  // A run chooses x exactly when at some point of it selections and shortenings have made up for x's
  // place and the tasks that were put in front of it.
  lemma {:induction false} ChosenExactly<T>(r: Ring<T>, x: T, steps: seq<Step<T>>)
    requires RingWf(r) && x in r.items && IsRun(r, x, steps)
    ensures EverChosen(r, x, steps) <==> DueWithin(r, x, steps)
    decreases |steps|
  {
    hide Place, RingWf, Chooses, After, Due;
    if steps == [] {
      NothingDue(r, x, steps);
    } else {
      StepPlace(r, x, steps[0]);
      if Chooses(r, x, steps[0]) {
        RunPrefix(r, x, steps, 1);
        DueAtOnce(r, x, steps[..1]);
      } else {
        ChosenExactly(After(r, steps[0]), x, steps[1..]);
        DueWithinStep(r, x, steps);
      }
    }
  }

  lemma NothingDue<T>(r: Ring<T>, x: T, steps: seq<Step<T>>)
    requires RingWf(r) && x in r.items && steps == []
    ensures !DueWithin(r, x, steps)
  {
    hide Place, RingWf, Due;
    forall n: nat | n <= |steps| && IsRun(r, x, steps[..n]) ensures !Due(r, x, steps[..n]) {
      NoStepDue(r, x, steps[..n]);
    }
  }

  lemma DueAtOnce<T>(r: Ring<T>, x: T, steps: seq<Step<T>>)
    requires RingWf(r) && x in r.items && |steps| == 1 && IsRun(r, x, steps)
    requires steps[0].Select? && Place(r, x) == 1
    ensures Due(r, x, steps)
  {
    hide Place, RingWf;
    assert Selections(steps[1..]) == 0 && Overtakings(After(r, steps[0]), x, steps[1..]) == 0;
    assert !Overtaken(r, x, steps[0]);
  }

  lemma DueWithinStep<T>(r: Ring<T>, x: T, steps: seq<Step<T>>)
    requires RingWf(r) && x in r.items && IsRun(r, x, steps) && steps != [] && !Chooses(r, x, steps[0])
    requires RingWf(After(r, steps[0])) && x in After(r, steps[0]).items
    ensures DueWithin(r, x, steps) <==> DueWithin(After(r, steps[0]), x, steps[1..])
  {
    hide Place, RingWf, Chooses, After, Due, Possible;
    var r', rest := After(r, steps[0]), steps[1..];
    if DueWithin(r, x, steps) {
      var n: nat :| n <= |steps| && IsRun(r, x, steps[..n]) && Due(r, x, steps[..n]);
      if n == 0 {
        NoStepDue(r, x, steps[..0]);
      } else {
        assert steps[..n][1..] == rest[..n - 1];
        DueStep(r, x, steps[..n]);
      }
    }
    if DueWithin(r', x, rest) {
      var n: nat :| n <= |rest| && IsRun(r', x, rest[..n]) && Due(r', x, rest[..n]);
      RunPrefix(r, x, steps, n + 1);
      assert steps[..n + 1][1..] == rest[..n];
      DueStep(r, x, steps[..n + 1]);
    }
  }

  lemma NoStepDue<T>(r: Ring<T>, x: T, steps: seq<Step<T>>)
    requires RingWf(r) && x in r.items && steps == []
    ensures IsRun(r, x, steps) && !Due(r, x, steps)
  {
    SelectionAdvances(r, x);
  }

  // So a task k places after pxIndex is chosen within k selections, plus one for each task that
  // arrived while pxIndex was at it.
  lemma ChosenWithin<T>(r: Ring<T>, x: T, steps: seq<Step<T>>)
    requires RingWf(r) && x in r.items && IsRun(r, x, steps)
    requires Selections(steps) >= Place(r, x) + Overtakings(r, x, steps)
    ensures EverChosen(r, x, steps)
  {
    hide Place, RingWf, EverChosen;
    assert steps[..|steps|] == steps;
    assert Due(r, x, steps[..|steps|]);
    ChosenExactly(r, x, steps);
  }

  // One run after another.
  lemma {:induction false} RunsJoin<T>(r: Ring<T>, x: T, a: seq<Step<T>>, b: seq<Step<T>>)
    requires IsRun(r, x, a) && IsRun(End(r, a), x, b)
    ensures IsRun(r, x, a + b) && End(r, a + b) == End(End(r, a), b)
    ensures Selections(a + b) == Selections(a) + Selections(b)
    ensures EverChosen(r, x, a + b) <==> EverChosen(r, x, a) || EverChosen(End(r, a), x, b)
    decreases |a|
  {
    hide Possible, After, Chooses;
    if a == [] {
      assert a + b == b;
    } else {
      assert (a + b)[1..] == a[1..] + b && (a + b)[0] == a[0];
      RunsJoin(After(r, a[0]), x, a[1..], b);
    }
  }

  lemma {:induction false} NobodyChosen<T>(r: Ring<T>, x: T, steps: seq<Step<T>>)
    requires Selections(steps) == 0
    ensures !EverChosen(r, x, steps)
    decreases |steps|
  {
    hide After;
    if steps != [] { NobodyChosen(After(r, steps[0]), x, steps[1..]); }
  }

  // The bound cannot be k selections alone: 1 is two places away, 2, chosen last, leaves so that
  // pxIndex falls back on 1, and 4 is put in front of it.
  lemma OvertakenWhileWaiting()
    ensures var r, steps := Ring([1, 2, 3], 2), [Leave(2), Arrive(4), Select, Select];
      && IsRun(r, 1, steps) && Place(r, 1) == 2 == Selections(steps) && !EverChosen(r, 1, steps)
  {
    var r, steps := Ring([1, 2, 3], 2), [Leave(2), Arrive(4), Select, Select];
    assert Place(r, 1) == 2;
    hide Place, Find, Cut, PointsAt, Advance, Remove, InsertEnd, Selections;
    TwoSelectionsMiss();
    FallsBack();
    Unroll(r, 1, steps);
    assert steps[1..] == [Arrive(4), Select, Select];
    Unroll(Ring([1, 3], 1), 1, steps[1..]);
    assert steps[1..][1..] == [Select, Select];
  }

  lemma Unroll<T>(r: Ring<T>, x: T, steps: seq<Step<T>>)
    requires steps != []
    ensures IsRun(r, x, steps) <==> Possible(r, x, steps[0]) && IsRun(After(r, steps[0]), x, steps[1..])
    ensures EverChosen(r, x, steps) <==> Chooses(r, x, steps[0]) || EverChosen(After(r, steps[0]), x, steps[1..])
    ensures Selections(steps) == (if steps[0].Select? then 1 else 0) + Selections(steps[1..])
  {
  }

  lemma FallsBack()
    ensures Remove(Ring([1, 2, 3], 2), 2) == Ring([1, 3], 1) && InsertEnd(Ring([1, 3], 1), 4) == Ring([4, 1, 3], 2)
  {
    assert Find([1, 2, 3], 2) == 1;
    assert Cut([1, 2, 3], 1) == [1, 3];
  }

  lemma TwoSelectionsMiss()
    ensures var r, steps := Ring([4, 1, 3], 2), [Select, Select];
      IsRun(r, 1, steps) && Selections(steps) == 2 && !EverChosen(r, 1, steps)
  {
    var none: seq<Step<int>> := [];
    var one: seq<Step<int>> := [Select];
    assert [Select, Select][1..] == one && one[1..] == none;
    Unroll(Ring([4, 1, 3], 2), 1, [Select, Select]);
    Unroll(Ring([4, 1, 3], 3), 1, one);
  }
}
