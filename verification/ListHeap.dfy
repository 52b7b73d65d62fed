// The circular doubly linked list on the heap, against its abstract value.
module ListHeap {
  import opened TickTime
  import opened ListRing

  class ListItem {
    var xItemValue: Tick
    var pxNext: ListItem?
    var pxPrevious: ListItem?
    var pvContainer: List?
    const pvOwner: nat

    // vListInitialiseItem
    constructor (owner: nat, value: Tick)
      ensures pvOwner == owner && xItemValue == value && pvContainer == null
    {
      pvOwner, xItemValue, pxNext, pxPrevious, pvContainer := owner, value, null, null, null;
    }
  }

  // The position after i on a ring of n.
  function Succ(i: nat, n: nat): nat { if i + 1 == n then 0 else i + 1 }

  ghost predicate LinkAt(nodes: seq<ListItem>, i: nat)
    requires i < |nodes|
    reads nodes`pxNext, nodes`pxPrevious
  {
    nodes[i].pxNext == nodes[Succ(i, |nodes|)] && nodes[Succ(i, |nodes|)].pxPrevious == nodes[i]
  }

  ghost predicate Linked(nodes: seq<ListItem>)
    reads nodes`pxNext, nodes`pxPrevious
  {
    forall i :: 0 <= i < |nodes| ==> LinkAt(nodes, i)
  }

  lemma Links(nodes: seq<ListItem>, i: nat)
    requires Linked(nodes) && i < |nodes|
    ensures Succ(i, |nodes|) < |nodes|
    ensures nodes[i].pxNext == nodes[Succ(i, |nodes|)] && nodes[Succ(i, |nodes|)].pxPrevious == nodes[i]
  {
    assert LinkAt(nodes, i);
  }

  lemma DistinctTail(nodes: seq<ListItem>, i: nat, k: nat)
    requires Distinct(nodes) && i < |nodes| && k < |nodes| && nodes[i] == nodes[k]
    ensures i == k
  {
  }

  function Inserted(nodes: seq<ListItem>, k: nat, x: ListItem): seq<ListItem>
    requires k <= |nodes|
  {
    nodes[..k] + [x] + nodes[k..]
  }

  // Where pxIndex and the abstract value end up.
  lemma AbsInserted(nodes: seq<ListItem>, pos: nat, k: nat, x: ListItem)
    requires 0 < k <= |nodes| && pos < |nodes|
    ensures var m, p := Inserted(nodes, k, x), if pos >= k then pos + 1 else pos;
      && |m| == |nodes| + 1 && m[0] == nodes[0] && m[p] == nodes[pos]
      && Ring(m[1..], p) == InsertAt(Ring(nodes[1..], pos), k - 1, x)
      && (k == (if pos == 0 then |nodes| else pos) ==> Ring(m[1..], p) == InsertEnd(Ring(nodes[1..], pos), x))
  {
    var m := Inserted(nodes, k, x);
    assert m[1..] == nodes[1..][..k - 1] + [x] + nodes[1..][k - 1..];
    if k == |nodes| { assert m[1..] == nodes[1..] + [x]; }
  }

  ghost predicate Distinct(nodes: seq<ListItem>) { NoDup(nodes) }

  lemma DistinctInsert(nodes: seq<ListItem>, k: nat, x: ListItem)
    requires Distinct(nodes) && x !in nodes && 0 < k <= |nodes|
    ensures Distinct(Inserted(nodes, k, x))
  {
    InsertFacts(nodes, k, x);
  }

  lemma OthersDiffer(nodes: seq<ListItem>, k: nat)
    requires Distinct(nodes) && k < |nodes|
    ensures forall i :: 0 <= i < |nodes| && i != k ==> nodes[i] != nodes[k]
  {
  }

  // Item x has been linked in after the k nodes before it, and every other link is as it was.
  lemma LinkedIn(nodes: seq<ListItem>, k: nat, x: ListItem)
    requires 0 < k <= |nodes| && forall i :: 0 <= i < |nodes| && i != k - 1 ==> LinkAt(nodes, i)
    requires x.pxNext == nodes[Succ(k - 1, |nodes|)] && x.pxPrevious == nodes[k - 1]
    requires nodes[k - 1].pxNext == x && nodes[Succ(k - 1, |nodes|)].pxPrevious == x
    ensures Linked(Inserted(nodes, k, x))
  {
    var m := Inserted(nodes, k, x);
    forall i | 0 <= i < |m| ensures LinkAt(m, i) {
      if i < k - 1 {
        assert LinkAt(nodes, i);
      } else if i > k {
        assert LinkAt(nodes, i - 1);
      }
    }
  }

  // The node at k has been bypassed, and every other link is as it was.
  lemma Unlinked(nodes: seq<ListItem>, k: nat)
    requires 0 < k < |nodes| && forall i :: 0 <= i < |nodes| && i != k && i != k - 1 ==> LinkAt(nodes, i)
    requires nodes[k - 1].pxNext == nodes[Succ(k, |nodes|)] && nodes[Succ(k, |nodes|)].pxPrevious == nodes[k - 1]
    ensures Linked(Cut(nodes, k))
  {
    var m := Cut(nodes, k);
    forall i | 0 <= i < |m| ensures LinkAt(m, i) {
      if i < k - 1 {
        assert LinkAt(nodes, i);
      } else if i > k - 1 {
        assert LinkAt(nodes, i + 1);
      }
    }
  }

  ghost predicate Owned(nodes: seq<ListItem>, list: List)
    reads nodes`pvContainer
  {
    forall i :: 0 < i < |nodes| ==> nodes[i].pvContainer == list
  }

  // The pointer updates of an insertion between two neighbours.
  method Splice(before: ListItem, item: ListItem, after: ListItem, list: List, ghost nodes: seq<ListItem>, ghost k: nat)
    requires Linked(nodes) && Distinct(nodes) && Owned(nodes, list) && item !in nodes && 0 < k <= |nodes|
    requires before == nodes[k - 1] && after == nodes[Succ(k - 1, |nodes|)]
    modifies item`pxNext, item`pxPrevious, item`pvContainer, before`pxNext, after`pxPrevious
    ensures Linked(Inserted(nodes, k, item)) && Distinct(Inserted(nodes, k, item))
    ensures Owned(Inserted(nodes, k, item), list)
  {
    OthersDiffer(nodes, k - 1);
    OthersDiffer(nodes, Succ(k - 1, |nodes|));
    DistinctInsert(nodes, k, item);
    item.pxNext := after;
    item.pxPrevious := before;
    before.pxNext := item;
    after.pxPrevious := item;
    item.pvContainer := list;
    forall i | 0 <= i < |nodes| && i != k - 1 ensures LinkAt(nodes, i) { assert old(LinkAt(nodes, i)); }
    LinkedIn(nodes, k, item);
  }

  // The pointer updates of a removal.
  method Bypass(item: ListItem, list: List, ghost nodes: seq<ListItem>, ghost k: nat)
    requires Linked(nodes) && Distinct(nodes) && Owned(nodes, list) && 0 < k < |nodes| && item == nodes[k]
    requires item.pxNext == nodes[Succ(k, |nodes|)] && item.pxPrevious == nodes[k - 1]
    modifies item.pxNext`pxPrevious, item.pxPrevious`pxNext, item`pvContainer
    ensures Linked(Cut(nodes, k)) && Owned(Cut(nodes, k), list) && item.pvContainer == null
  {
    OthersDiffer(nodes, k);
    OthersDiffer(nodes, k - 1);
    OthersDiffer(nodes, Succ(k, |nodes|));
    item.pxNext.pxPrevious := item.pxPrevious;
    item.pxPrevious.pxNext := item.pxNext;
    item.pvContainer := null;
    forall i | 0 <= i < |nodes| && i != k && i != k - 1 ensures LinkAt(nodes, i) { assert old(LinkAt(nodes, i)); }
    Unlinked(nodes, k);
  }

  function Values(items: seq<ListItem>): (v: seq<Tick>)
    reads items
    ensures |v| == |items|
    ensures forall i :: 0 <= i < |items| ==> v[i] == items[i].xItemValue
  {
    if items == [] then [] else [items[0].xItemValue] + Values(items[1..])
  }

  // The place the search loop of vListInsert stops at does not depend on how it got there.
  lemma SearchStops(nodes: seq<ListItem>, j: nat, v: Tick)
    requires j < |nodes|
    requires forall i :: 0 < i <= j ==> nodes[i].xItemValue <= v
    requires j + 1 < |nodes| ==> v < nodes[j + 1].xItemValue
    ensures j == InsertPos(Values(nodes[1..]), v)
  {
    assert forall i :: 0 <= i < |nodes| - 1 ==> nodes[1..][i] == nodes[i + 1];
  }

  lemma AbsRemoved(nodes: seq<ListItem>, pos: nat, k: nat)
    requires Distinct(nodes) && 0 < k < |nodes| && pos < |nodes|
    ensures var m, p := Cut(nodes, k), if pos >= k then pos - 1 else pos;
      && |m| == |nodes| - 1 && m[0] == nodes[0] && Distinct(m) && nodes[k] !in m && m[1..] == Cut(nodes[1..], k - 1)
      && m[p] == (if pos == k then nodes[k - 1] else nodes[pos])
      && Ring(m[1..], p) == Remove(Ring(nodes[1..], pos), nodes[k])
  {
    assert nodes[1..][k - 1] == nodes[k];
    assert Find(nodes[1..], nodes[k]) == k - 1 by { DistinctTail(nodes, Find(nodes[1..], nodes[k]) + 1, k); }
  }

  class List {
    const xListEnd: ListItem
    var pxIndex: ListItem
    var uxNumberOfItems: nat
    ghost var nodes: seq<ListItem>   // the end marker, then the entries in order
    ghost var pos: nat               // where pxIndex is among them

    ghost predicate Valid()
      reads this, nodes
    {
      && |nodes| > 0 && nodes[0] == xListEnd && xListEnd.xItemValue == PORT_MAX_DELAY
      && Distinct(nodes) && Linked(nodes)
      && pos < |nodes| && nodes[pos] == pxIndex
      && uxNumberOfItems == |nodes| - 1
      && Owned(nodes, this)
    }

    ghost function Abs(): Ring<ListItem>
      requires |nodes| > 0
      reads this
    {
      Ring(nodes[1..], pos)
    }

    // vListInitialise
    constructor ()
      ensures Valid() && fresh(nodes) && Abs() == EmptyRing()
    {
      var end := new ListItem(0, PORT_MAX_DELAY);
      xListEnd := end;
      pxIndex := end;
      uxNumberOfItems := 0;
      nodes := [end];
      pos := 0;
      new;
      end.pxNext := end;
      end.pxPrevious := end;
    }

    // vListInsertEnd
    method InsertEnd(pxNewListItem: ListItem)
      requires Valid() && pxNewListItem !in nodes
      modifies this`uxNumberOfItems, this`nodes, this`pos
      modifies pxNewListItem`pxNext, pxNewListItem`pxPrevious, pxNewListItem`pvContainer, nodes`pxNext, nodes`pxPrevious
      ensures Valid() && Abs() == ListRing.InsertEnd(old(Abs()), pxNewListItem)
    {
      hide Linked, Distinct, Owned, Inserted, InsertAt, ListRing.InsertEnd;
      ghost var k := if pos == 0 then |nodes| else pos;
      Links(nodes, k - 1);
      Splice(pxIndex.pxPrevious, pxNewListItem, pxIndex, this, nodes, k);
      uxNumberOfItems := uxNumberOfItems + 1;
      AbsInserted(nodes, pos, k, pxNewListItem);
      nodes := Inserted(nodes, k, pxNewListItem);
      if pos > 0 { pos := pos + 1; }
    }

    // The first half of vListInsert: the node the new item goes after
    method PlaceFor(v: Tick) returns (pxIterator: ListItem)
      requires Valid()
      ensures pxIterator == nodes[InsertPos(Values(nodes[1..]), v)]
    {
      hide Linked, Distinct, Owned;
      ghost var j := 0;
      pxIterator := xListEnd;
      Links(nodes, 0);
      if v == PORT_MAX_DELAY {
        j := |nodes| - 1;
        Links(nodes, j);
        pxIterator := xListEnd.pxPrevious;
      } else {
        while pxIterator.pxNext.xItemValue <= v
          invariant 0 <= j < |nodes| && pxIterator == nodes[j] && pxIterator.pxNext == nodes[Succ(j, |nodes|)]
          invariant forall i :: 0 < i <= j ==> nodes[i].xItemValue <= v
          decreases |nodes| - j
        {
          pxIterator := pxIterator.pxNext;
          j := j + 1;
          Links(nodes, j);
        }
      }
      SearchStops(nodes, j, v);
    }

    // vListInsert
    method Insert(pxNewListItem: ListItem)
      requires Valid() && pxNewListItem !in nodes
      modifies this`uxNumberOfItems, this`nodes, this`pos
      modifies pxNewListItem`pxNext, pxNewListItem`pxPrevious, pxNewListItem`pvContainer, nodes`pxNext, nodes`pxPrevious
      ensures Valid()
      ensures Abs() == old(InsertAt(Abs(), InsertPos(Values(Abs().items), pxNewListItem.xItemValue), pxNewListItem))
    {
      hide Linked, Distinct, Owned, Values, InsertPos, Inserted, InsertAt;
      ghost var j := InsertPos(Values(nodes[1..]), pxNewListItem.xItemValue);
      var pxIterator := PlaceFor(pxNewListItem.xItemValue);
      Links(nodes, j);
      Splice(pxIterator, pxNewListItem, pxIterator.pxNext, this, nodes, j + 1);
      uxNumberOfItems := uxNumberOfItems + 1;
      AbsInserted(nodes, pos, j + 1, pxNewListItem);
      nodes := Inserted(nodes, j + 1, pxNewListItem);
      if pos > j { pos := pos + 1; }
    }

    // uxListRemove, called with the item alone
    static method Remove(pxItemToRemove: ListItem) returns (left: nat)
      requires var l := pxItemToRemove.pvContainer; l != null && l.Valid() && pxItemToRemove in l.Abs().items
      modifies pxItemToRemove.pvContainer, pxItemToRemove`pvContainer
      modifies pxItemToRemove.pvContainer.nodes`pxNext, pxItemToRemove.pvContainer.nodes`pxPrevious
      ensures var l := old(pxItemToRemove.pvContainer);
        && l.Valid() && l.Abs() == ListRing.Remove(old(l.Abs()), pxItemToRemove)
        && left == |l.Abs().items| && pxItemToRemove.pvContainer == null && pxItemToRemove !in l.nodes
    {
      hide Linked, Distinct, Owned, Find, Cut, ListRing.Remove;
      var pxList := pxItemToRemove.pvContainer;
      ghost var k, was := Find(pxList.nodes[1..], pxItemToRemove) + 1, pxList.nodes;
      Links(was, k);
      Links(was, k - 1);
      AbsRemoved(was, pxList.pos, k);
      if pxList.pxIndex == pxItemToRemove { pxList.pxIndex := pxItemToRemove.pxPrevious; }
      Bypass(pxItemToRemove, pxList, was, k);
      pxList.uxNumberOfItems := pxList.uxNumberOfItems - 1;
      pxList.nodes := Cut(was, k);
      if pxList.pos >= k { pxList.pos := pxList.pos - 1; }
      left := pxList.uxNumberOfItems;
    }

    // listGET_OWNER_OF_NEXT_ENTRY
    method OwnerOfNextEntry() returns (owner: nat)
      requires Valid() && uxNumberOfItems > 0
      modifies this`pxIndex, this`pos
      ensures Valid() && Abs() == Advance(old(Abs())) && owner == Chosen(Abs()).pvOwner
    {
      hide Linked;
      Links(nodes, pos);
      Links(nodes, 0);
      pxIndex := pxIndex.pxNext;
      pos := Succ(pos, |nodes|);
      if pxIndex == xListEnd {
        pxIndex := pxIndex.pxNext;
        pos := 1;
      }
      owner := pxIndex.pvOwner;
    }
  }

  // ----- Event lists -----

  // A task on an event list: its priority when it was put there, and how many were put there before it.
  datatype Waiter = Waiter(priority: nat, arrival: nat)

  datatype Event = Arrive(priority: nat) | Depart(place: nat)

  // The item value a waiting task is sorted by.
  function EventValue(w: Waiter, maxPriorities: Tick): Tick {
    if w.priority <= maxPriorities then maxPriorities - w.priority else 0
  }

  function EventValues(list: seq<Waiter>, maxPriorities: Tick): (v: seq<Tick>)
    ensures |v| == |list|
    ensures forall i :: 0 <= i < |list| ==> v[i] == EventValue(list[i], maxPriorities)
  {
    seq(|list|, i requires 0 <= i < |list| => EventValue(list[i], maxPriorities))
  }

  // The event list after each task has been put on it with vListInsert and any tasks, woken from
  // its head or timed out, have left from any place.
  function AfterEvents(events: seq<Event>, maxPriorities: Tick): (list: seq<Waiter>)
    decreases |events|
  {
    if events == [] then [] else
      var list := AfterEvents(events[..|events| - 1], maxPriorities);
      match events[|events| - 1]
      case Arrive(priority) =>
        var w := Waiter(priority, |events|);
        var k := InsertPos(EventValues(list, maxPriorities), EventValue(w, maxPriorities));
        list[..k] + [w] + list[k..]
      case Depart(place) => if place < |list| then Cut(list, place) else list
  }

  predicate Before(a: Waiter, b: Waiter) {
    a.priority > b.priority || (a.priority == b.priority && a.arrival < b.arrival)
  }

  ghost predicate InOrder(list: seq<Waiter>, maxPriorities: Tick, n: nat) {
    && (forall i, j :: 0 <= i < j < |list| ==> Before(list[i], list[j]))
    && (forall i :: 0 <= i < |list| ==> list[i].priority < maxPriorities && list[i].arrival <= n)
  }

  lemma PutInOrder(list: seq<Waiter>, k: nat, w: Waiter, maxPriorities: Tick, n: nat)
    requires InOrder(list, maxPriorities, n) && k <= |list| && w.priority < maxPriorities && w.arrival <= n
    requires forall i :: 0 <= i < k ==> Before(list[i], w)
    requires forall i :: k <= i < |list| ==> Before(w, list[i])
    ensures InOrder(list[..k] + [w] + list[k..], maxPriorities, n)
  {
    hide Before;
    var m := list[..k] + [w] + list[k..];
    forall i, j | 0 <= i < j < |m| ensures Before(m[i], m[j]) {
      assert m[i] == if i < k then list[i] else if i == k then w else list[i - 1];
      assert m[j] == if j < k then list[j] else if j == k then w else list[j - 1];
    }
  }

  lemma ArriveKeepsOrder(list: seq<Waiter>, w: Waiter, maxPriorities: Tick)
    requires w.arrival > 0 && InOrder(list, maxPriorities, w.arrival - 1) && w.priority < maxPriorities
    ensures var k := InsertPos(EventValues(list, maxPriorities), EventValue(w, maxPriorities));
      InOrder(list[..k] + [w] + list[k..], maxPriorities, w.arrival)
  {
    var k := InsertPos(EventValues(list, maxPriorities), EventValue(w, maxPriorities));
    assert InOrder(list, maxPriorities, w.arrival);
    forall i | 0 <= i < k ensures Before(list[i], w) {
      assert EventValues(list, maxPriorities)[i] == maxPriorities - list[i].priority;
    }
    forall i | k <= i < |list| ensures Before(w, list[i]) {
      assert EventValues(list, maxPriorities)[k] == maxPriorities - list[k].priority;
      assert i > k ==> Before(list[k], list[i]);
    }
    hide InOrder, Before;
    PutInOrder(list, k, w, maxPriorities, w.arrival);
  }

  // Whatever arrives and leaves, the list is in order of priority and, among equals, of arrival:
  // the head is the highest-priority task waiting, and of those the one that has waited longest.
  lemma {:induction false} WaitersInOrder(events: seq<Event>, maxPriorities: Tick)
    requires forall e :: e in events && e.Arrive? ==> e.priority < maxPriorities
    ensures InOrder(AfterEvents(events, maxPriorities), maxPriorities, |events|)
    decreases |events|
  {
    if events != [] {
      var n := |events| - 1;
      var was := AfterEvents(events[..n], maxPriorities);
      WaitersInOrder(events[..n], maxPriorities);
      assert events[n] in events;
      match events[n]
      case Arrive(priority) => ArriveKeepsOrder(was, Waiter(priority, n + 1), maxPriorities);
      case Depart(place) =>
        if place < |was| { assert InOrder(Cut(was, place), maxPriorities, n + 1); }
    }
  }
}
