// A stream or message buffer shared, without locks, by one writer and one reader: each reads the
// other's index, copies bytes and publishes its own index in separate steps.
module StreamProtocol {
  type Byte = b: int | 0 <= b < 256
  type Message = seq<Byte>

  const HEADER := 4                      // sizeof( size_t )
  const SIZE_RANGE := 0x1_0000_0000

  function LowByte(n: nat): Byte { n % 0x100 }

  // The bytes of a size_t, least significant first.
  function HeaderOf(n: nat): (h: seq<Byte>)
    requires n < SIZE_RANGE
    ensures |h| == HEADER
  {
    var n1 := n / 0x100;
    var n2 := n1 / 0x100;
    var n3 := n2 / 0x100;
    [LowByte(n), LowByte(n1), LowByte(n2), LowByte(n3)]
  }

  function SizeOf(h: seq<Byte>): (n: nat)
    requires |h| == HEADER
    ensures n < SIZE_RANGE
  {
    var b0: nat, b1: nat, b2: nat, b3: nat := h[0], h[1], h[2], h[3];
    b0 + 0x100 * (b1 + 0x100 * (b2 + 0x100 * b3))
  }

  lemma HeaderRoundTrip(n: nat)
    requires n < SIZE_RANGE
    ensures SizeOf(HeaderOf(n)) == n
  {
  }

  // ----- Indexes -----

  // prvBytesInBuffer
  function BytesIn(head: nat, tail: nat, length: nat): int {
    var count := length + head - tail;
    if count >= length then count - length else count
  }

  // xStreamBufferSpacesAvailable
  function SpacesIn(head: nat, tail: nat, length: nat): int {
    var space := length + tail - head - 1;
    if space >= length then space - length else space
  }

  // An index moved on by at most the length.
  function Moved(index: nat, count: nat, length: nat): nat {
    if index + count >= length then index + count - length else index + count
  }

  // ----- State -----

  // longest: the longest message sent; least: the smallest receive buffer used; undisturbed: the
  // writer does not run between the reader's two updates of xTail around line 880.
  datatype Setup = Setup(messages: bool, longest: nat, least: nat, undisturbed: bool)

  datatype Writer =
    | WriterIdle
    | Checked(data: Message, space: int)
    // chunk is copied up to done; next follows once it is published
    | Copying(chunk: seq<Byte>, done: nat, next: seq<Byte>)

  datatype Reader =
    | ReaderIdle
    | Looked(room: nat, available: int)
    | Fetching(header: bool, count: nat, got: seq<Byte>, room: nat, available: int)
    | HeaderRead(size: nat, room: nat, available: int, originalTail: nat)

  // The history: sent holds every byte published, taken counts those consumed, outgoing holds the
  // messages the writer has begun to write.
  datatype System = System(setup: Setup, bytes: seq<Byte>, head: nat, tail: nat, w: Writer, r: Reader,
                           sent: seq<Byte>, taken: nat, outgoing: seq<Message>, received: seq<Byte>,
                           delivered: seq<Message>)

  datatype Step =
    | WriterLooks(data: Message)
    | WriterDecides
    | WriterCopies
    | WriterPublishes
    | ReaderLooks(room: nat)
    | ReaderDecides
    | ReaderCopies
    | ReaderPublishes
    | ReaderChecksSize

  function Min(a: int, b: int): int { if a < b then a else b }

  predicate Enabled(s: System, step: Step) {
    match step
    // Also again, after waiting, for the same data.
    case WriterLooks(data) =>
      (s.w.WriterIdle? || (s.w.Checked? && s.w.data == data)) && 0 < |data| < SIZE_RANGE
      && (s.setup.messages ==> |data| <= s.setup.longest)
    case WriterDecides => s.w.Checked? && |s.w.data| < SIZE_RANGE
    case WriterCopies => s.w.Copying? && s.w.done < |s.w.chunk| && Moved(s.head, s.w.done, |s.bytes|) < |s.bytes|
    case WriterPublishes => s.w.Copying? && s.w.done == |s.w.chunk|
    case ReaderLooks(room) =>
      (s.r.ReaderIdle? || (s.r.Looked? && s.r.room == room)) && (s.setup.messages ==> room >= s.setup.least)
    case ReaderDecides => s.r.Looked?
    case ReaderCopies => s.r.Fetching? && |s.r.got| < s.r.count && Moved(s.tail, |s.r.got|, |s.bytes|) < |s.bytes|
    case ReaderPublishes => s.r.Fetching? && |s.r.got| == s.r.count && (s.r.header ==> s.r.count == HEADER)
    case ReaderChecksSize => s.r.HeaderRead? && s.taken >= HEADER
  }

  // The branches of prvWriteMessageToBuffer.
  function Decide(s: System): System
    requires s.w.Checked? && |s.w.data| < SIZE_RANGE
  {
    var data, space := s.w.data, s.w.space;
    if space <= 0 then s.(w := WriterIdle)
    else if !s.setup.messages then s.(w := Copying(data[..Min(|data|, space)], 0, []))
    else if space >= |data| + HEADER then s.(w := Copying(HeaderOf(|data|), 0, data), outgoing := s.outgoing + [data])
    else s.(w := WriterIdle)
  }

  // The end of prvWriteBytesToBuffer.
  function Publish(s: System): System
    requires s.w.Copying?
  {
    s.(head := Moved(s.head, |s.w.chunk|, |s.bytes|), sent := s.sent + s.w.chunk,
       w := if s.w.next == [] then WriterIdle else Copying(s.w.next, 0, []))
  }

  // Up to the first copy in prvReadMessageFromBuffer.
  function BeginReading(s: System): System
    requires s.r.Looked?
  {
    var room, available := s.r.room, s.r.available;
    if s.setup.messages then
      if available > HEADER then s.(r := Fetching(true, HEADER, [], room, available)) else s.(r := ReaderIdle)
    else if available > 0 && room > 0 then s.(r := Fetching(false, Min(available, room), [], room, available))
    else s.(r := ReaderIdle)
  }

  // The end of prvReadBytesFromBuffer.
  function Consume(s: System): System
    requires s.r.Fetching? && |s.r.got| == s.r.count && (s.r.header ==> s.r.count == HEADER)
  {
    var after := s.(tail := Moved(s.tail, s.r.count, |s.bytes|), taken := s.taken + s.r.count);
    if s.r.header then
      if s.setup.undisturbed && SizeOf(s.r.got) > s.r.room then s.(r := ReaderIdle)
      else after.(r := HeaderRead(SizeOf(s.r.got), s.r.room, s.r.available - HEADER, s.tail))
    else if s.setup.messages then after.(r := ReaderIdle, delivered := s.delivered + [s.r.got])
    else after.(r := ReaderIdle, received := s.received + s.r.got)
  }

  // The message does not fit the receive buffer: xTail goes back. Otherwise the body is read.
  function CheckSize(s: System): System
    requires s.r.HeaderRead? && s.taken >= HEADER
  {
    if s.r.size > s.r.room then
      s.(r := ReaderIdle, tail := s.r.originalTail, taken := s.taken - HEADER)
    else if s.r.size > 0 && s.r.available > 0 then
      s.(r := Fetching(false, Min(s.r.size, s.r.available), [], s.r.room, s.r.available))
    else s.(r := ReaderIdle)
  }

  function Apply(s: System, step: Step): System
    requires Enabled(s, step)
  {
    match step
    case WriterLooks(data) => s.(w := Checked(data, SpacesIn(s.head, s.tail, |s.bytes|)))
    case WriterDecides => Decide(s)
    case WriterCopies =>
      s.(bytes := s.bytes[Moved(s.head, s.w.done, |s.bytes|) := s.w.chunk[s.w.done]], w := s.w.(done := s.w.done + 1))
    case WriterPublishes => Publish(s)
    case ReaderLooks(room) => s.(r := Looked(room, BytesIn(s.head, s.tail, |s.bytes|)))
    case ReaderDecides => BeginReading(s)
    case ReaderCopies => s.(r := s.r.(got := s.r.got + [s.bytes[Moved(s.tail, |s.r.got|, |s.bytes|)]]))
    case ReaderPublishes => Consume(s)
    case ReaderChecksSize => CheckSize(s)
  }
}
