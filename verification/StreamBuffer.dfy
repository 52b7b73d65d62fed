// The circular buffer of a stream or message buffer, with its two indexes, updated in place.
module StreamBuffer {
  import opened Memory
  import opened StreamProtocol
  import opened StreamSafety

  // The slots after position k, before the ring wraps.
  lemma SlotsInARow(k: nat, i: nat, n: nat)
    requires n > 0 && Slot(k, n) + i < n
    ensures Slot(k + i, n) == Slot(k, n) + i
  {
    SlotMoved(k, i, n);
    hide Slot;
  }

  // A run of bytes written at the slot after the stored data extends it.
  lemma StoreRun(bytes: seq<Byte>, lo: nat, data: seq<Byte>, x: seq<Byte>, at: nat)
    requires Stored(bytes, lo, data) && |data| + |x| <= |bytes| && at + |x| <= |bytes|
    requires |x| > 0 ==> at == Slot(lo + |data|, |bytes|)
    ensures Stored(Overlaid(bytes, at, x), lo, data + x)
  {
    hide Slot;
    var n, after := |bytes|, Overlaid(bytes, at, x);
    forall j | 0 <= j < |data| + |x| ensures after[Slot(lo + j, n)] == (data + x)[j] {
      if j < |data| {
        var k := Slot(lo + j, n);
        if at <= k < at + |x| {
          SlotsInARow(lo + |data|, k - at, n);
          SlotsApart(lo + j, lo + |data| + (k - at), n);
        }
      } else {
        SlotsInARow(lo + |data|, j - |data|, n);
        assert lo + |data| + (j - |data|) == lo + j;
      }
    }
  }

  // A run of the stored data that does not wrap.
  lemma StoredRun(bytes: seq<Byte>, lo: nat, data: seq<Byte>, d: nat, count: nat, at: nat)
    requires Stored(bytes, lo, data) && d + count <= |data| <= |bytes| && at + count <= |bytes|
    requires count > 0 ==> at == Slot(lo + d, |bytes|)
    ensures bytes[at..at + count] == data[d..d + count]
  {
    hide Slot;
    var a, b := bytes[at..at + count], data[d..d + count];
    forall i | 0 <= i < count ensures a[i] == b[i] {
      SlotsInARow(lo + d, i, |bytes|);
      StoredAt(bytes, lo, data, d + i);
      assert lo + (d + i) == lo + d + i;
    }
  }

  lemma OverlaidTwice(target: seq<Byte>, x: seq<Byte>, y: seq<Byte>)
    requires |x| + |y| <= |target|
    ensures Overlaid(Overlaid(target, 0, x), |x|, y) == x + y + target[|x| + |y|..]
    ensures Overlaid(target, 0, x) == x + target[|x|..]
  {
  }

  class StreamBuffer {
    const pucBuffer: array<Byte>
    const isMessageBuffer: bool
    var xHead: nat
    var xTail: nat
    ghost var contents: seq<Byte>    // the unread bytes, oldest first
    ghost var read: nat              // how many have been read before them

    ghost predicate Valid()
      reads this, pucBuffer
    {
      && pucBuffer.Length > HEADER && |contents| < pucBuffer.Length
      && xTail == Slot(read, pucBuffer.Length) && xHead == Slot(read + |contents|, pucBuffer.Length)
      && Stored(pucBuffer[..], read, contents)
    }

    // xStreamBufferGenericCreate: one byte more than asked for
    constructor (xBufferSizeBytes: nat, messages: bool)
      requires xBufferSizeBytes > HEADER
      ensures Valid() && fresh(pucBuffer) && pucBuffer.Length == xBufferSizeBytes + 1
      ensures contents == [] && isMessageBuffer == messages
    {
      pucBuffer := new Byte[xBufferSizeBytes + 1](_ => 0);
      isMessageBuffer := messages;
      xHead, xTail, contents, read := 0, 0, [], 0;
      new;
      DivisionIsUnique(0, 0, 0, pucBuffer.Length);
    }

    // xStreamBufferSpacesAvailable
    method SpacesAvailable() returns (xSpace: nat)
      requires Valid()
      ensures xSpace == pucBuffer.Length - 1 - |contents|
    {
      Distances(read + |contents|, read, pucBuffer.Length);
      hide Slot, Stored;
      var space := pucBuffer.Length + xTail;
      space := space - xHead;
      space := space - 1;
      if space >= pucBuffer.Length { space := space - pucBuffer.Length; }
      xSpace := space;
    }

    // prvBytesInBuffer
    method BytesInBuffer() returns (xCount: nat)
      requires Valid()
      ensures xCount == |contents|
    {
      Distances(read + |contents|, read, pucBuffer.Length);
      hide Slot, Stored;
      xCount := pucBuffer.Length + xHead;
      xCount := xCount - xTail;
      if xCount >= pucBuffer.Length { xCount := xCount - pucBuffer.Length; }
    }

    // prvWriteBytesToBuffer
    method WriteBytes(pucData: array<Byte>, xCount: nat)
      requires Valid() && 0 < xCount <= pucData.Length && |contents| + xCount < pucBuffer.Length && pucData != pucBuffer
      modifies this`xHead, this`contents, pucBuffer
      ensures Valid() && contents == old(contents) + pucData[..xCount]
    {
      hide Slot, Stored, Overlaid;
      ghost var n, at, data := pucBuffer.Length, read + |contents|, pucData[..];
      var xNextHead := xHead;
      var xFirstLength := if pucBuffer.Length - xNextHead < xCount then pucBuffer.Length - xNextHead else xCount;
      StoreRun(pucBuffer[..], read, contents, data[..xFirstLength], xNextHead);
      Memcpy(pucBuffer, xNextHead, pucData, 0, xFirstLength);
      if xCount > xFirstLength {
        SlotMoved(at, xFirstLength, n);
        StoreRun(pucBuffer[..], read, contents + data[..xFirstLength], data[xFirstLength..xCount], 0);
        Memcpy(pucBuffer, 0, pucData, xFirstLength, xCount - xFirstLength);
        assert contents + data[..xFirstLength] + data[xFirstLength..xCount] == contents + data[..xCount];
      }
      SlotMoved(at, xCount, n);
      xNextHead := xNextHead + xCount;
      if xNextHead >= pucBuffer.Length { xNextHead := xNextHead - pucBuffer.Length; }
      xHead := xNextHead;
      contents := contents + pucData[..xCount];
    }

    // The one or two copies of prvReadBytesFromBuffer
    method CopyOut(pucData: array<Byte>, xCount: nat)
      requires Valid() && 0 < xCount <= pucData.Length && xCount <= |contents| && pucData != pucBuffer
      modifies pucData
      ensures pucData[..] == contents[..xCount] + old(pucData[xCount..])
    {
      hide Slot, Stored, Overlaid;
      var xFirstLength := if pucBuffer.Length - xTail < xCount then pucBuffer.Length - xTail else xCount;
      ghost var was, x, y := pucData[..], contents[..xFirstLength], contents[xFirstLength..xCount];
      StoredRun(pucBuffer[..], read, contents, 0, xFirstLength, xTail);
      OverlaidTwice(was, x, y);
      Memcpy(pucData, 0, pucBuffer, xTail, xFirstLength);
      if xCount > xFirstLength {
        SlotMoved(read, xFirstLength, pucBuffer.Length);
        StoredRun(pucBuffer[..], read, contents, xFirstLength, xCount - xFirstLength, 0);
        Memcpy(pucData, xFirstLength, pucBuffer, 0, xCount - xFirstLength);
        assert x + y == contents[..xCount];
      }
    }

    // prvReadBytesFromBuffer
    method ReadBytes(pucData: array<Byte>, xMaxCount: nat, xBytesAvailable: nat) returns (xCount: nat)
      requires Valid() && xMaxCount <= pucData.Length && xBytesAvailable <= |contents| && pucData != pucBuffer
      modifies this`xTail, this`contents, this`read, pucData
      ensures Valid() && xCount == Min(xBytesAvailable, xMaxCount)
      ensures pucData[..] == old(contents)[..xCount] + old(pucData[xCount..])
      ensures contents == old(contents)[xCount..] && read == old(read) + xCount
    {
      hide Slot, Stored;
      xCount := if xBytesAvailable < xMaxCount then xBytesAvailable else xMaxCount;
      if xCount > 0 {
        CopyOut(pucData, xCount);
        SlotMoved(read, xCount, pucBuffer.Length);
        StoredRest(pucBuffer[..], read, contents, xCount);
        var xNextTail := xTail + xCount;
        if xNextTail >= pucBuffer.Length { xNextTail := xNextTail - pucBuffer.Length; }
        xTail := xNextTail;
        contents := contents[xCount..];
        read := read + xCount;
      }
    }

    // prvWriteMessageToBuffer
    method WriteMessage(pvTxData: array<Byte>, xDataLengthBytes: nat, xSpace: nat, xRequiredSpace: nat)
      returns (written: nat)
      requires Valid() && 0 < xDataLengthBytes <= pvTxData.Length
      requires xDataLengthBytes < SIZE_RANGE && pvTxData != pucBuffer
      requires xSpace == pucBuffer.Length - 1 - |contents|
      requires xRequiredSpace == if isMessageBuffer then xDataLengthBytes + HEADER else xDataLengthBytes
      modifies this`xHead, this`contents, pucBuffer
      ensures Valid()
      ensures !isMessageBuffer ==>
        written == Min(xDataLengthBytes, xSpace) && contents == old(contents) + pvTxData[..written]
      ensures isMessageBuffer && xSpace >= xRequiredSpace ==>
        written == xDataLengthBytes && contents == old(contents) + HeaderOf(written) + pvTxData[..written]
      ensures isMessageBuffer && xSpace < xRequiredSpace ==> written == 0 && contents == old(contents)
    {
      hide Slot, Stored, HeaderOf;
      var xShouldWrite, count := false, xDataLengthBytes;
      if xSpace == 0 {
        xShouldWrite := false;
      } else if !isMessageBuffer {
        xShouldWrite := true;
        count := if count < xSpace then count else xSpace;
      } else if xSpace >= xRequiredSpace {
        xShouldWrite := true;
        var header := new Byte[HEADER](i requires 0 <= i < HEADER => HeaderOf(xDataLengthBytes)[i]);
        assert header[..] == HeaderOf(xDataLengthBytes) && header[..HEADER] == header[..];
        WriteBytes(header, HEADER);
      }
      if xShouldWrite {
        WriteBytes(pvTxData, count);
        written := count;
      } else {
        written := 0;
      }
    }

    // prvReadMessageFromBuffer: a message that does not fit the receive buffer stays where it is.
    method ReadMessage(pvRxData: array<Byte>, xBufferLengthBytes: nat, xBytesAvailable: nat) returns (received: nat)
      requires Valid() && xBufferLengthBytes <= pvRxData.Length
      requires pvRxData != pucBuffer && xBytesAvailable == |contents|
      requires isMessageBuffer ==> xBytesAvailable > HEADER
      modifies this`xTail, this`contents, this`read, pvRxData
      ensures Valid()
      ensures !isMessageBuffer ==> received == Min(|old(contents)|, xBufferLengthBytes)
      ensures !isMessageBuffer ==>
        contents == old(contents)[received..] && pvRxData[..received] == old(contents)[..received]
      ensures isMessageBuffer ==> var n, rest := SizeOf(old(contents)[..HEADER]), old(contents)[HEADER..];
        if n > xBufferLengthBytes then received == 0 && contents == old(contents)
        else received == Min(n, |rest|) && contents == rest[received..] && pvRxData[..received] == rest[..received]
    {
      hide Slot, Stored, SizeOf;
      ghost var was, wasRead := contents, read;
      var available, next := xBytesAvailable, xBufferLengthBytes;
      if isMessageBuffer {
        var xOriginalTail := xTail;
        var header := new Byte[HEADER];
        var taken := ReadBytes(header, HEADER, available);
        assert header[..] == header[..HEADER] == was[..HEADER];
        available := available - HEADER;
        next := SizeOf(header[..]);
        if next > xBufferLengthBytes {
          xTail := xOriginalTail;
          contents, read := was, wasRead;
          next := 0;
        }
      }
      received := ReadBytes(pvRxData, next, available);
    }
  }
}
