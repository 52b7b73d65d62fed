// The storage area of a queue: a ring of fixed-size items addressed by two byte offsets.
module QueueStorage {
  import opened Memory

  type Byte = b: int | 0 <= b < 256
  type Item = seq<Byte>

  datatype Position = SendToBack | SendToFront | Overwrite

  // What sending does to the queued items, oldest first.
  function AfterSend(items: seq<Item>, x: Item, position: Position): seq<Item> {
    match position
    case SendToBack => items + [x]
    case SendToFront => [x] + items
    case Overwrite => if items == [] then [x] else [x] + items[1..]
  }

  // ----- The ring, in items -----

  // The places after and before place i on a ring of n.
  function Next(i: nat, n: nat): nat { if i + 1 >= n then 0 else i + 1 }
  function Previous(i: nat, n: nat): int { if i == 0 then n - 1 else i - 1 }

  // The place of the k-th queued item when the last item read came from place r.
  function Place(r: nat, k: nat, n: nat): (p: nat)
    requires r < n && k <= n
    ensures p < n
  {
    if r + 1 + k < n then r + 1 + k else if r + 1 + k < 2 * n then r + 1 + k - n else 0
  }

  lemma PlaceSteps(r: nat, k: nat, n: nat)
    requires r < n && k < n
    ensures Place(r, 0, n) == Next(r, n) && Next(Place(r, k, n), n) == Place(r, k + 1, n)
    ensures Place(Next(r, n), k, n) == Place(r, k + 1, n)
    ensures Place(Previous(r, n), 0, n) == r && Place(Previous(r, n), k + 1, n) == Place(r, k, n)
  {
  }

  lemma PlacesDiffer(r: nat, i: nat, j: nat, n: nat)
    requires r < n && i < j <= n && j - i < n
    ensures Place(r, i, n) != Place(r, j, n)
  {
  }

  // ----- The ring, in bytes -----

  // The byte offset of a place.
  function Offset(i: nat, size: nat): nat { i * size }

  lemma Offsets(i: nat, n: nat, size: nat)
    requires i < n
    ensures Offset(i, size) + size == Offset(i + 1, size) <= Offset(n, size)
    ensures size > 0 ==> (Offset(i, size) + size >= Offset(n, size) <==> i + 1 == n)
    ensures size > 0 ==> (Offset(i, size) - size < 0 <==> i == 0)
    ensures i > 0 ==> Offset(i, size) - size == Offset(i - 1, size)
    ensures Offset(0, size) == 0 && Offset(n - 1, size) == Offset(n, size) - size
  {
    assert (i + 1) * size == i * size + size && (n - 1) * size == n * size - size;
    if i + 1 < n { Apart(i + 1, n, size); }
    if i > 0 { Apart(0, i, size); assert (i - 1) * size == i * size - size; }
  }

  lemma ZeroOffsets(i: nat, j: nat, k: nat, l: nat)
    ensures Offset(i, 0) == Offset(j, 0) == Offset(k, 0) == Offset(l, 0) == 0
  {
  }

  lemma {:induction false} Apart(i: nat, j: nat, size: nat)
    requires i < j
    ensures Offset(i, size) + size <= Offset(j, size)
  {
    assert j * size == (j - 1) * size + size;
    if i < j - 1 { Apart(i, j - 1, size); }
  }

  // The item stored at a place.
  function Slot(bytes: seq<Byte>, i: nat, n: nat, size: nat): (x: Item)
    requires i < n && |bytes| == Offset(n, size)
    ensures |x| == size
  {
    Offsets(i, n, size);
    bytes[Offset(i, size)..Offset(i, size) + size]
  }

  lemma WriteSlot(bytes: seq<Byte>, i: nat, x: Item, j: nat, n: nat)
    requires i < n && j < n && |bytes| == Offset(n, |x|)
    ensures Offset(i, |x|) + |x| <= |bytes| && |Overlaid(bytes, Offset(i, |x|), x)| == |bytes|
    ensures Slot(Overlaid(bytes, Offset(i, |x|), x), j, n, |x|) == if j == i then x else Slot(bytes, j, n, |x|)
  {
    hide Offset;
    Offsets(i, n, |x|);
    Offsets(j, n, |x|);
    if j < i { Apart(j, i, |x|); } else if i < j { Apart(i, j, |x|); }
    var was, now := Slot(bytes, j, n, |x|), Slot(Overlaid(bytes, Offset(i, |x|), x), j, n, |x|);
    assert j != i ==> forall k :: 0 <= k < |x| ==> now[k] == was[k];
  }

  lemma WriteNothing(bytes: seq<Byte>, at: nat)
    requires at <= |bytes|
    ensures Overlaid(bytes, at, []) == bytes
  {
    assert bytes[..at] + [] + bytes[at..] == bytes;
  }

  // The queued items, oldest first.
  function Queued(bytes: seq<Byte>, r: nat, count: nat, n: nat, size: nat): (items: seq<Item>)
    requires r < n && count <= n && |bytes| == Offset(n, size)
    ensures |items| == count
    ensures forall k :: 0 <= k < count ==> items[k] == Slot(bytes, Place(r, k, n), n, size)
  {
    seq(count, k requires 0 <= k < count => Slot(bytes, Place(r, k, n), n, size))
  }

  // Writing at the place after the last item appends.
  lemma AppendAtBack(bytes: seq<Byte>, r: nat, count: nat, n: nat, x: Item)
    requires r < n && count < n && |bytes| == Offset(n, |x|)
    ensures var at := Offset(Place(r, count, n), |x|);
      && at + |x| <= |bytes| && |Overlaid(bytes, at, x)| == |bytes|
      && Queued(Overlaid(bytes, at, x), r, count + 1, n, |x|) == Queued(bytes, r, count, n, |x|) + [x]
  {
    var p := Place(r, count, n);
    WriteSlot(bytes, p, x, p, n);
    forall k | 0 <= k < count
      ensures Slot(Overlaid(bytes, Offset(p, |x|), x), Place(r, k, n), n, |x|) == Slot(bytes, Place(r, k, n), n, |x|)
    {
      PlacesDiffer(r, k, count, n);
      WriteSlot(bytes, p, x, Place(r, k, n), n);
    }
  }

  // Writing at the place last read from and stepping back prepends. When the ring is full the
  // oldest place but one is the newest, so count items survive only if there is room for them.
  lemma PrependAtFront(bytes: seq<Byte>, r: nat, count: nat, n: nat, x: Item)
    requires r < n && count < n && |bytes| == Offset(n, |x|)
    ensures var at := Offset(r, |x|);
      && at + |x| <= |bytes| && |Overlaid(bytes, at, x)| == |bytes|
      && Queued(Overlaid(bytes, at, x), Previous(r, n), count + 1, n, |x|) == [x] + Queued(bytes, r, count, n, |x|)
  {
    WriteSlot(bytes, r, x, r, n);
    PlaceSteps(r, 0, n);
    var after := Overlaid(bytes, Offset(r, |x|), x);
    forall k | 0 <= k < count
      ensures Slot(after, Place(Previous(r, n), k + 1, n), n, |x|) == Slot(bytes, Place(r, k, n), n, |x|)
    {
      PlaceSteps(r, k, n);
      assert Place(r, k, n) != r;
      WriteSlot(bytes, r, x, Place(r, k, n), n);
    }
    var q := Queued(after, Previous(r, n), count + 1, n, |x|);
    assert q[0] == x;
    assert q[1..] == Queued(bytes, r, count, n, |x|);
  }

  // Reading from the place after the last one read removes the oldest item.
  lemma TakeFromFront(bytes: seq<Byte>, r: nat, count: nat, n: nat, size: nat)
    requires r < n && 0 < count <= n && |bytes| == Offset(n, size)
    ensures Queued(bytes, Next(r, n), count - 1, n, size) == Queued(bytes, r, count, n, size)[1..]
    ensures Queued(bytes, r, count, n, size)[0] == Slot(bytes, Next(r, n), n, size)
  {
    PlaceSteps(r, 0, n);
    forall k | 0 <= k < count - 1 ensures Place(Next(r, n), k, n) == Place(r, k + 1, n) { PlaceSteps(r, k, n); }
  }

  // A queue of one zero-size item that is sent to and then overwritten counts two.
  method CountPastLength() returns (count: nat)
    ensures count == 2
  {
    var queue := new Storage(1, 0);
    var nothing := new Byte[0];
    var sent := queue.Send(nothing, SendToBack);
    sent := queue.Send(nothing, Overwrite);
    count := queue.uxMessagesWaiting;
  }

  class Storage {
    const uxLength: nat
    const uxItemSize: nat
    const buffer: array<Byte>        // pcHead is offset 0, pcTail is buffer.Length
    var pcWriteTo: nat
    var pcReadFrom: int
    var uxMessagesWaiting: nat
    ghost var lastRead: nat          // the place pcReadFrom points at

    // Both pointers are item-aligned and inside the storage area.
    ghost predicate Valid()
      reads this
    {
      && buffer.Length == Offset(uxLength, uxItemSize) && uxMessagesWaiting <= uxLength && lastRead < uxLength
      && pcReadFrom == Offset(lastRead, uxItemSize)
      && pcWriteTo == Offset(Place(lastRead, uxMessagesWaiting, uxLength), uxItemSize)
    }

    ghost function Items(): (items: seq<Item>)
      requires Valid()
      reads this, buffer
      ensures |items| == uxMessagesWaiting
    {
      Queued(buffer[..], lastRead, uxMessagesWaiting, uxLength, uxItemSize)
    }

    // xQueueGenericCreate and xQueueGenericReset
    constructor (length: nat, itemSize: nat)
      requires length > 0
      ensures Valid() && fresh(buffer) && uxLength == length && uxItemSize == itemSize && Items() == []
    {
      uxLength := length;
      uxItemSize := itemSize;
      Offsets(length - 1, length, itemSize);
      buffer := new Byte[length * itemSize](_ => 0);
      pcWriteTo := 0;
      pcReadFrom := (length - 1) * itemSize;
      uxMessagesWaiting := 0;
      lastRead := length - 1;
    }

    // prvCopyDataToQueue, for a queue that is not a mutex. The count passes the length exactly when a
    // full queue of zero-size items is overwritten, because only items with bytes are replaced.
    method CopyDataToQueue(pvItemToQueue: array<Byte>, position: Position)
      requires Valid() && pvItemToQueue.Length == uxItemSize && pvItemToQueue != buffer
      requires if position.Overwrite? then uxLength == 1 else uxMessagesWaiting < uxLength
      modifies this, buffer
      ensures Valid() <==> !old(position.Overwrite? && uxItemSize == 0 && uxMessagesWaiting == uxLength)
      ensures Valid() ==> Items() == AfterSend(old(Items()), pvItemToQueue[..], position)
      ensures !Valid() ==> uxMessagesWaiting == uxLength + 1
    {
      hide Queued, Place, Slot, Overlaid, Offset;
      var waiting := uxMessagesWaiting;
      ghost var x, bytes, n, r, c := pvItemToQueue[..], buffer[..], uxLength, lastRead, uxMessagesWaiting;
      ghost var kept := if position.Overwrite? && c > 0 then c - 1 else c;
      assert pvItemToQueue[0..uxItemSize] == x;
      if uxItemSize == 0 {
        assert x == [];
        if position.SendToFront? {
          PrependAtFront(bytes, r, c, n, x);
          WriteNothing(bytes, Offset(r, 0));
          ZeroOffsets(Place(r, c, n), Place(Previous(r, n), c + 1, n), r, Previous(r, n));
          lastRead := Previous(r, n);
        } else if c < n {
          AppendAtBack(bytes, r, c, n, x);
          WriteNothing(bytes, Offset(Place(r, c, n), 0));
          ZeroOffsets(Place(r, c, n), Place(r, c + 1, n), r, r);
        }
      } else if position == SendToBack {
        AppendAtBack(bytes, r, c, n, x);
        Offsets(Place(r, c, n), n, uxItemSize);
        PlaceSteps(r, c, n);
        Memcpy(buffer, pcWriteTo, pvItemToQueue, 0, uxItemSize);
        pcWriteTo := pcWriteTo + uxItemSize;
        if pcWriteTo >= buffer.Length { pcWriteTo := 0; }
      } else {
        PrependAtFront(bytes, r, kept, n, x);
        Offsets(r, n, uxItemSize);
        PlaceSteps(r, kept, n);
        Memcpy(buffer, pcReadFrom, pvItemToQueue, 0, uxItemSize);
        pcReadFrom := pcReadFrom - uxItemSize;
        if pcReadFrom < 0 { pcReadFrom := buffer.Length - uxItemSize; }
        lastRead := Previous(r, n);
        if position == Overwrite && waiting > 0 { waiting := waiting - 1; }
      }
      uxMessagesWaiting := waiting + 1;
    }

    // prvCopyDataFromQueue
    method CopyDataFromQueue(pvBuffer: array<Byte>)
      requires Valid() && uxMessagesWaiting > 0 && pvBuffer.Length == uxItemSize && pvBuffer != buffer
      modifies this`pcReadFrom, this`lastRead, pvBuffer
      ensures pvBuffer[..] == old(Items())[0]
      ensures lastRead == Next(old(lastRead), uxLength) && pcReadFrom == Offset(lastRead, uxItemSize)
      ensures buffer[..] == old(buffer[..])
    {
      ghost var r, n := lastRead, uxLength;
      TakeFromFront(buffer[..], r, uxMessagesWaiting, n, uxItemSize);
      Offsets(r, n, uxItemSize);
      Offsets(Next(r, n), n, uxItemSize);
      if uxItemSize != 0 {
        pcReadFrom := pcReadFrom + uxItemSize;
        if pcReadFrom >= buffer.Length { pcReadFrom := 0; }
        Memcpy(pvBuffer, 0, buffer, pcReadFrom, uxItemSize);
      }
      lastRead := Next(lastRead, uxLength);
    }

    // The storage half of xQueueGenericSend
    method Send(pvItemToQueue: array<Byte>, position: Position) returns (sent: bool)
      requires Valid() && pvItemToQueue.Length == uxItemSize && pvItemToQueue != buffer
      requires position.Overwrite? ==> uxLength == 1
      modifies this, buffer
      ensures sent == (old(|Items()|) < uxLength || position.Overwrite?)
      ensures Valid() <==> !old(position.Overwrite? && uxItemSize == 0 && uxMessagesWaiting == uxLength)
      ensures Valid() ==> Items() == if sent then AfterSend(old(Items()), pvItemToQueue[..], position) else old(Items())
      ensures !Valid() ==> uxMessagesWaiting == uxLength + 1
    {
      if uxMessagesWaiting < uxLength || position == Overwrite {
        CopyDataToQueue(pvItemToQueue, position);
        sent := true;
      } else {
        sent := false;
      }
    }

    // The storage half of xQueueReceive
    method Receive(pvBuffer: array<Byte>) returns (received: bool)
      requires Valid() && pvBuffer.Length == uxItemSize && pvBuffer != buffer
      modifies this, pvBuffer
      ensures Valid() && received == (old(Items()) != [])
      ensures Items() == if received then old(Items())[1..] else old(Items())
      ensures pvBuffer[..] == if received then old(Items())[0] else old(pvBuffer[..])
    {
      received := uxMessagesWaiting > 0;
      if received {
        TakeFromFront(buffer[..], lastRead, uxMessagesWaiting, uxLength, uxItemSize);
        PlaceSteps(lastRead, uxMessagesWaiting - 1, uxLength);
        CopyDataFromQueue(pvBuffer);
        uxMessagesWaiting := uxMessagesWaiting - 1;
      }
    }

    // The storage half of xQueuePeek
    method Peek(pvBuffer: array<Byte>) returns (received: bool)
      requires Valid() && pvBuffer.Length == uxItemSize && pvBuffer != buffer
      modifies this, pvBuffer
      ensures Valid() && received == (old(Items()) != []) && Items() == old(Items())
      ensures pvBuffer[..] == if received then old(Items())[0] else old(pvBuffer[..])
    {
      received := uxMessagesWaiting > 0;
      if received {
        var pcOriginalReadPosition := pcReadFrom;
        ghost var was := lastRead;
        CopyDataFromQueue(pvBuffer);
        pcReadFrom := pcOriginalReadPosition;
        lastRead := was;
      }
    }
  }
}
