// The abstract value of a kernel list: its entries in order and the position of pxIndex.
// Index 0 is the end marker, index k + 1 is items[k].
module ListRing {
  import opened TickTime

  datatype Ring<T> = Ring(items: seq<T>, index: nat)

  function EmptyRing<T>(): Ring<T> { Ring([], 0) }

  ghost predicate NoDup<T>(s: seq<T>) {
    forall i, j :: 0 <= i < j < |s| ==> s[i] != s[j]
  }

  ghost predicate RingWf<T>(r: Ring<T>) {
    r.index <= |r.items| && NoDup(r.items)
  }

  // The position of an entry that is present.
  function Find<T(==)>(s: seq<T>, x: T): (k: nat)
    requires x in s
    ensures k < |s| && s[k] == x && x !in s[..k]
  {
    if s[0] == x then 0
    else
      assert s == [s[0]] + s[1..];
      var k := Find(s[1..], x) + 1;
      assert s[..k] == [s[0]] + s[1..][..k - 1];
      k
  }

  function Cut<T>(s: seq<T>, k: nat): seq<T>
    requires k < |s|
  {
    s[..k] + s[k + 1..]
  }

  // vListInsertEnd: the new entry goes just before the one pxIndex points at.
  function InsertEnd<T>(r: Ring<T>, x: T): Ring<T> {
    if 0 < r.index <= |r.items| then Ring(r.items[..r.index - 1] + [x] + r.items[r.index - 1..], r.index + 1)
    else Ring(r.items + [x], 0)
  }

  // vListInsert, once the place has been found.
  function InsertAt<T>(r: Ring<T>, k: nat, x: T): Ring<T>
    requires k <= |r.items|
  {
    Ring(r.items[..k] + [x] + r.items[k..], if r.index > k then r.index + 1 else r.index)
  }

  // uxListRemove: pxIndex steps back when it pointed at the entry that goes.
  function Remove<T(==)>(r: Ring<T>, x: T): Ring<T> {
    if x !in r.items then r
    else
      var k := Find(r.items, x);
      Ring(Cut(r.items, k), if r.index > k then r.index - 1 else r.index)
  }

  // listGET_OWNER_OF_NEXT_ENTRY: advance pxIndex, skipping the end marker.
  function Advance<T>(r: Ring<T>): Ring<T> {
    if |r.items| == 0 then r
    else r.(index := if r.index < |r.items| then r.index + 1 else 1)
  }

  function Chosen<T>(r: Ring<T>): T
    requires 0 < r.index <= |r.items|
  {
    r.items[r.index - 1]
  }

  // The place vListInsert's search loop stops at: after every leading value that is not greater.
  function InsertPos(values: seq<Tick>, v: Tick): (k: nat)
    ensures k <= |values|
    ensures forall i :: 0 <= i < k ==> values[i] <= v
    ensures k < |values| ==> v < values[k]
  {
    if |values| == 0 || v < values[0] then 0 else InsertPos(values[1..], v) + 1
  }

  predicate Sorted(values: seq<Tick>) {
    forall i, j :: 0 <= i < j < |values| ==> values[i] <= values[j]
  }

  // Inserting there keeps the values in order, behind every value equal to the new one.
  lemma InsertKeepsSorted(values: seq<Tick>, v: Tick)
    requires Sorted(values)
    ensures var k := InsertPos(values, v);
      && Sorted(values[..k] + [v] + values[k..])
      && forall i :: 0 <= i < |values| ==> (i < k <==> values[i] <= v)
  {
    var k := InsertPos(values, v);
    forall i | k <= i < |values| ensures v < values[i] { assert i > k ==> values[k] <= values[i]; }
    hide InsertPos;
    var m := values[..k] + [v] + values[k..];
    forall i, j | 0 <= i < j < |m| ensures m[i] <= m[j] {
      assert m[i] == if i < k then values[i] else if i == k then v else values[i - 1];
      assert m[j] == if j < k then values[j] else if j == k then v else values[j - 1];
    }
  }

  lemma EmptyOrMember<T>(s: seq<T>)
    ensures s == [] || exists x :: x in s
  {
    if |s| > 0 { assert s[0] in s; }
  }

  lemma InsertEndFacts<T>(r: Ring<T>, x: T)
    requires RingWf(r) && x !in r.items
    ensures RingWf(InsertEnd(r, x))
    ensures forall y :: y in InsertEnd(r, x).items <==> y == x || y in r.items
    ensures |InsertEnd(r, x).items| == |r.items| + 1
  {
    var k := if r.index == 0 then |r.items| else r.index - 1;
    assert InsertEnd(r, x).items == r.items[..k] + [x] + r.items[k..];
    InsertFacts(r.items, k, x);
  }

  lemma InsertFacts<T>(s: seq<T>, k: nat, x: T)
    requires NoDup(s) && x !in s && k <= |s|
    ensures NoDup(s[..k] + [x] + s[k..])
    ensures forall y :: y in s[..k] + [x] + s[k..] <==> y == x || y in s
  {
    var t := s[..k] + [x] + s[k..];
    forall y | y in s ensures y in t {
      var i := Find'(s, y);
      assert t[if i < k then i else i + 1] == y;
    }
    assert t[k] == x;
  }

  lemma InsertAtFacts<T>(r: Ring<T>, k: nat, x: T)
    requires RingWf(r) && x !in r.items && k <= |r.items|
    ensures RingWf(InsertAt(r, k, x))
    ensures forall y :: y in InsertAt(r, k, x).items <==> y == x || y in r.items
  {
    InsertFacts(r.items, k, x);
  }

  // An index witnessing membership, for proofs about types without equality.
  ghost function Find'<T>(s: seq<T>, x: T): (k: nat)
    requires x in s
    ensures k < |s| && s[k] == x
  {
    var k :| 0 <= k < |s| && s[k] == x; k
  }

  lemma RemoveFacts<T>(r: Ring<T>, x: T)
    requires RingWf(r) && x in r.items
    ensures RingWf(Remove(r, x))
    ensures forall y :: y in Remove(r, x).items <==> y != x && y in r.items
    ensures |Remove(r, x).items| == |r.items| - 1
  {
    var k := Find(r.items, x);
    var t := Cut(r.items, k);
    forall y | y in r.items && y != x ensures y in t {
      var i := Find'(r.items, y);
      assert t[if i < k then i else i - 1] == y;
    }
  }
}
