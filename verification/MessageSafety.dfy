// Message buffers deliver whole messages, and buffers of both kinds keep to what was sent, in every run.
module MessageSafety {
  import opened StreamProtocol
  import opened StreamSafety

  // ----- The bytes of a sequence of messages -----

  predicate Sendable(ms: seq<Message>) { forall i :: 0 <= i < |ms| ==> 0 < |ms[i]| < SIZE_RANGE }

  function Encode(ms: seq<Message>): seq<Byte>
    requires Sendable(ms)
  {
    if ms == [] then [] else HeaderOf(|ms[0]|) + ms[0] + Encode(ms[1..])
  }

  lemma {:induction false} EncodeAppend(ms: seq<Message>, m: Message)
    requires Sendable(ms) && 0 < |m| < SIZE_RANGE
    ensures Encode(ms + [m]) == Encode(ms) + HeaderOf(|m|) + m
  {
    hide HeaderOf;
    if ms == [] {
      assert ([] + [m])[1..] == [];
    } else {
      assert (ms + [m])[1..] == ms[1..] + [m];
      EncodeAppend(ms[1..], m);
    }
  }

  // Where message k is: after the messages before it come its header and its body.
  lemma {:induction false} EncodeAt(ms: seq<Message>, k: nat)
    requires Sendable(ms) && k < |ms|
    ensures var p, n := |Encode(ms[..k])|, |ms[k]|;
      && p + HEADER + n <= |Encode(ms)| && |Encode(ms[..k + 1])| == p + HEADER + n
      && Encode(ms)[p..p + HEADER] == HeaderOf(n) && Encode(ms)[p + HEADER..p + HEADER + n] == ms[k]
  {
    hide HeaderOf;
    if k == 0 {
      assert ms[..1][1..] == [];
    } else {
      EncodeAt(ms[1..], k - 1);
      assert ms[..k][1..] == ms[1..][..k - 1] && ms[..k + 1][1..] == ms[1..][..k];
    }
  }

  // ----- The invariant in messages -----

  // The messages whose bodies are published.
  function Published(s: System): seq<Message> {
    if s.w.Copying? && s.outgoing != [] then s.outgoing[..|s.outgoing| - 1] else s.outgoing
  }

  // The header published ahead of its body.
  function Pending(s: System): seq<Byte> {
    if s.w.Copying? && s.w.next == [] && s.outgoing != [] && |s.outgoing[|s.outgoing| - 1]| < SIZE_RANGE
    then HeaderOf(|s.outgoing[|s.outgoing| - 1]|) else []
  }

  ghost predicate WritingOk(s: System) {
    && Sendable(s.outgoing) && (forall i :: 0 <= i < |s.outgoing| ==> |s.outgoing[i]| <= s.setup.longest)
    && (s.w.Checked? ==> |s.w.data| <= s.setup.longest)
    && (s.w.Copying? ==>
          && s.outgoing != []
          && var m := s.outgoing[|s.outgoing| - 1];
             if s.w.next == [] then s.w.chunk == m else s.w.next == m && s.w.chunk == HeaderOf(|m|))
    && s.sent == Encode(Published(s)) + Pending(s)
  }

  // The end of the last delivered message, where the next one begins.
  function Base(s: System): int {
    if s.r.HeaderRead? || (s.r.Fetching? && !s.r.header) then s.taken - HEADER else s.taken
  }

  // The message to be read next.
  predicate NextIs(s: System, n: nat) {
    |s.delivered| < |Published(s)| && n == |Published(s)[|s.delivered|]|
  }

  ghost predicate AvailableOk(s: System, available: int) {
    available <= HEADER || (|s.delivered| < |Published(s)| && available >= HEADER + |Published(s)[|s.delivered|]|)
  }

  ghost predicate ReadingOk(s: System) {
    && s.delivered <= Published(s) && Sendable(s.delivered) && Base(s) == |Encode(s.delivered)|
    && match s.r
       case ReaderIdle => true
       case Looked(room, available) => room >= s.setup.least && AvailableOk(s, available)
       case Fetching(header, count, _, room, available) =>
         room >= s.setup.least
         && if header then available > HEADER && AvailableOk(s, available) else NextIs(s, count)
       case HeaderRead(size, room, available, _) => room >= s.setup.least && NextIs(s, size) && size <= available
  }

  ghost predicate MessagesOk(s: System) { s.setup.messages ==> WritingOk(s) && ReadingOk(s) }

  // No message is longer than the receive buffers, or the ring is too small to hold one that is and
  // have a byte to spare, or the writer does not run while a header is put back, or all messages are of
  // one byte on a ring that a whole number of them fills.
  predicate Careful(s: System) {
    || !s.setup.messages || s.setup.longest <= s.setup.least || |s.bytes| <= s.setup.least + 6 || s.setup.undisturbed
    || OneByteRing(s)
  }

  ghost predicate Inv(s: System) { BytesOk(s) && MessagesOk(s) && Careful(s) }

  // ----- Each step keeps it -----

  lemma PublishedGrows(s: System, after: System)
    requires WritingOk(s) && ReadingOk(s) && WritingOk(after) && Published(s) <= Published(after)
    requires after.r == s.r && after.delivered == s.delivered && after.taken == s.taken && after.setup == s.setup
    ensures ReadingOk(after)
  {
    hide WritingOk, Encode, Published;
  }

  lemma WriterLooksMessages(s: System, data: Message)
    requires BytesOk(s) && MessagesOk(s) && Enabled(s, WriterLooks(data))
    ensures MessagesOk(Apply(s, WriterLooks(data)))
  {
    hide BytesOk, Encode, HeaderOf, SpacesIn;
    if s.setup.messages { PublishedGrows(s, Apply(s, WriterLooks(data))); }
  }

  lemma WriterDecidesMessages(s: System)
    requires BytesOk(s) && MessagesOk(s) && Enabled(s, WriterDecides)
    ensures MessagesOk(Apply(s, WriterDecides))
  {
    hide Indexed, Held, ReaderOk, StreamOk, Encode, HeaderOf;
    if s.setup.messages {
      var after := Apply(s, WriterDecides);
      assert after.w.Copying? ==> after.outgoing[..|after.outgoing| - 1] == s.outgoing;
      assert Published(after) == Published(s);
      PublishedGrows(s, after);
    }
  }

  lemma WriterCopiesMessages(s: System)
    requires BytesOk(s) && MessagesOk(s) && Enabled(s, WriterCopies)
    ensures MessagesOk(Apply(s, WriterCopies))
  {
    hide BytesOk, Encode, HeaderOf, Moved;
    if s.setup.messages { PublishedGrows(s, Apply(s, WriterCopies)); }
  }

  lemma WriterPublishesMessages(s: System)
    requires BytesOk(s) && MessagesOk(s) && Enabled(s, WriterPublishes)
    ensures MessagesOk(Apply(s, WriterPublishes))
  {
    hide Indexed, Held, ReaderOk, StreamOk, WriterOk, Encode, HeaderOf, Moved;
    if s.setup.messages {
      var after, m := Apply(s, WriterPublishes), s.outgoing[|s.outgoing| - 1];
      assert s.outgoing == Published(s) + [m];
      EncodeAppend(Published(s), m);
      if s.w.next != [] { assert Published(after) == Published(s); }
      PublishedGrows(s, after);
    }
  }

  // Published bytes after the next message's start are none, a header, or at least the whole message.
  lemma NextMessage(s: System)
    requires WritingOk(s) && s.delivered <= Published(s) && Sendable(s.delivered)
    ensures |Encode(s.delivered)| <= |s.sent| && AvailableOk(s, |s.sent| - |Encode(s.delivered)|)
    ensures |s.delivered| < |Published(s)| ==>
      var p, m := |Encode(s.delivered)|, Published(s)[|s.delivered|];
      && p + HEADER + |m| <= |s.sent| && 0 < |m| < SIZE_RANGE && |m| <= s.setup.longest
      && s.sent[p..p + HEADER] == HeaderOf(|m|) && s.sent[p + HEADER..p + HEADER + |m|] == m
      && |Encode(s.delivered + [m])| == p + HEADER + |m|
  {
    hide HeaderOf;
    var k, ms := |s.delivered|, Published(s);
    assert s.delivered == ms[..k];
    if k < |ms| {
      EncodeAt(ms, k);
      assert ms[..k + 1] == s.delivered + [ms[k]];
      assert ms[k] == s.outgoing[k];
    } else {
      assert ms[..k] == ms;
    }
  }

  lemma ReaderLooksMessages(s: System, room: nat)
    requires BytesOk(s) && MessagesOk(s) && Enabled(s, ReaderLooks(room))
    ensures MessagesOk(Apply(s, ReaderLooks(room)))
  {
    hide Slot, Held, ReaderOk, StreamOk, WriterOk, Encode, HeaderOf, BytesIn;
    if s.setup.messages {
      Distances(|s.sent|, s.taken, |s.bytes|);
      NextMessage(s);
    }
  }

  lemma ReaderDecidesMessages(s: System)
    requires BytesOk(s) && MessagesOk(s) && Enabled(s, ReaderDecides)
    ensures MessagesOk(Apply(s, ReaderDecides))
  {
    hide BytesOk, Encode, HeaderOf;
  }

  lemma ReaderCopiesMessages(s: System)
    requires BytesOk(s) && MessagesOk(s) && Enabled(s, ReaderCopies)
    ensures MessagesOk(Apply(s, ReaderCopies))
  {
    hide BytesOk, Encode, HeaderOf, Moved;
  }

  lemma ReaderPublishesMessages(s: System)
    requires BytesOk(s) && MessagesOk(s) && Enabled(s, ReaderPublishes)
    ensures MessagesOk(Apply(s, ReaderPublishes))
  {
    hide BytesOk, Encode, HeaderOf, Moved, SizeOf;
    if s.setup.messages {
      SameWriting(s, Apply(s, ReaderPublishes));
      hide WritingOk;
      if s.r.header { FetchedHeader(s); } else { FetchedBody(s); }
    }
  }

  lemma SameWriting(s: System, after: System)
    requires WritingOk(s) && after.w == s.w && after.outgoing == s.outgoing
    requires after.sent == s.sent && after.setup == s.setup
    ensures WritingOk(after) && Published(after) == Published(s)
  {
    hide Encode, HeaderOf;
  }

  // The four bytes fetched are the header of the next message.
  lemma FetchedHeader(s: System)
    requires BytesOk(s) && MessagesOk(s) && s.setup.messages && s.r.Fetching?
    requires s.r.header && |s.r.got| == s.r.count == HEADER
    ensures |s.delivered| < |Published(s)|
    ensures SizeOf(s.r.got) == |Published(s)[|s.delivered|]| && s.r.available >= HEADER + SizeOf(s.r.got)
    ensures s.taken + HEADER + SizeOf(s.r.got) <= |s.sent| && 0 < SizeOf(s.r.got) <= s.setup.longest
  {
    hide Held, StreamOk, WriterOk, Encode, HeaderOf, SizeOf;
    NextMessage(s);
    HeaderRoundTrip(|Published(s)[|s.delivered|]|);
  }

  // The bytes fetched after it are the message.
  lemma FetchedBody(s: System)
    requires BytesOk(s) && MessagesOk(s) && s.setup.messages && s.r.Fetching? && !s.r.header && |s.r.got| == s.r.count
    ensures |s.delivered| < |Published(s)| && s.r.got == Published(s)[|s.delivered|] && 0 < |s.r.got| < SIZE_RANGE
    ensures Sendable(s.delivered) && |Encode(s.delivered + [s.r.got])| == s.taken + |s.r.got|
  {
    hide Held, StreamOk, WriterOk, Encode, HeaderOf;
    NextMessage(s);
  }

  lemma WindowOpens(s: System)
    requires BytesOk(s) && MessagesOk(s) && Enabled(s, ReaderPublishes)
    requires Careful(s) && InWindow(Apply(s, ReaderPublishes))
    ensures Harmless(s)
  {
    hide Held, StreamOk, WriterOk, Encode, HeaderOf, Moved, SizeOf, WritingOk;
    FetchedHeader(s);
  }

  lemma {:induction false} OneByteEach(ms: seq<Message>)
    requires Sendable(ms) && forall i :: 0 <= i < |ms| ==> |ms[i]| <= 1
    ensures |Encode(ms)| == (HEADER + 1) * |ms|
  {
    hide HeaderOf;
    if ms != [] { OneByteEach(ms[1..]); }
  }

  // While the window is open and the writer looks, the room there really is.
  lemma RoomInWindow(s: System)
    requires BytesOk(s) && MessagesOk(s) && InWindow(s) && !s.w.Copying? && OneByteRing(s)
    ensures Room(s) % (HEADER + 1) == 0
  {
    hide Held, StreamOk, WriterOk, Encode, HeaderOf;
    assert Published(s) == s.outgoing && Pending(s) == [];
    OneByteEach(s.outgoing);
    OneByteEach(s.delivered);
    var n, k, j := |s.bytes|, |s.outgoing|, |s.delivered|;
    assert Room(s) == (HEADER + 1) * (j - k) + (n - 1);
    FiveTimes(j - k, n);
  }

  lemma FiveTimes(d: int, n: nat)
    requires n % (HEADER + 1) == 1
    ensures ((HEADER + 1) * d + (n - 1)) % (HEADER + 1) == 0
  {
    var q := n / (HEADER + 1);
    assert (HEADER + 1) * d + (n - 1) == (HEADER + 1) * (d + q);
  }

  lemma ReaderChecksMessages(s: System)
    requires BytesOk(s) && MessagesOk(s) && Enabled(s, ReaderChecksSize)
    ensures MessagesOk(Apply(s, ReaderChecksSize))
  {
    hide Held, StreamOk, WriterOk, Encode, HeaderOf;
    if s.setup.messages { NextMessage(s); }
  }

  // ----- Runs -----

  lemma WindowRoom(s: System, data: Message)
    requires BytesOk(s) && MessagesOk(s) && Enabled(s, WriterLooks(data))
    ensures InWindow(s) ==> Room(s) == 0 || (Room(s) % (HEADER + 1) == 0 && |data| == 1)
  {
    if InWindow(s) {
      WindowIsHarmless(s);
      hide BytesOk, MessagesOk;
      if OneByteRing(s) { RoomInWindow(s); }
    }
  }

  lemma WindowIsHarmless(s: System)
    requires BytesOk(s) && InWindow(s)
    ensures Harmless(s) && s.setup.messages
  {
  }

  lemma KeepsHarmless(s: System)
    requires BytesOk(s) && MessagesOk(s) && Careful(s) && Enabled(s, ReaderPublishes)
    ensures InWindow(Apply(s, ReaderPublishes)) ==> Harmless(s)
  {
    hide BytesOk, MessagesOk, Harmless;
    if InWindow(Apply(s, ReaderPublishes)) { WindowOpens(s); }
  }

  lemma ApplyKeeps(s: System, step: Step)
    requires Inv(s) && Enabled(s, step)
    ensures Inv(Apply(s, step))
  {
    hide BytesOk, MessagesOk;
    match step
    case WriterLooks(data) => WindowRoom(s, data); WriterLooksKeeps(s, data); WriterLooksMessages(s, data);
    case WriterDecides => WriterDecidesKeeps(s); WriterDecidesMessages(s);
    case WriterCopies => WriterCopiesKeeps(s); WriterCopiesMessages(s);
    case WriterPublishes => WriterPublishesKeeps(s); WriterPublishesMessages(s);
    case ReaderLooks(room) => ReaderLooksKeeps(s, room); ReaderLooksMessages(s, room);
    case ReaderDecides => ReaderDecidesKeeps(s); ReaderDecidesMessages(s);
    case ReaderCopies => ReaderCopiesKeeps(s); ReaderCopiesMessages(s);
    case ReaderPublishes => KeepsHarmless(s); ReaderPublishesMessages(s); ReaderPublishesKeeps(s);
    case ReaderChecksSize => ReaderChecksSizeKeeps(s); ReaderChecksMessages(s);
  }

  // An empty buffer.
  predicate Initial(s: System) {
    && |s.bytes| > HEADER && s.head == 0 && s.tail == 0 && s.w == WriterIdle && s.r == ReaderIdle
    && s.sent == [] && s.taken == 0 && s.outgoing == [] && s.received == [] && s.delivered == []
  }

  lemma InitialInv(s: System)
    requires Initial(s) && Careful(s)
    ensures Inv(s)
  {
    SlotMoved(0, 0, |s.bytes|);
    DivisionIsUnique(0, 0, 0, |s.bytes|);
  }

  ghost predicate IsRun(run: seq<System>, steps: seq<Step>) {
    && |run| == |steps| + 1
    && forall i :: 0 <= i < |steps| ==> Enabled(run[i], steps[i]) && run[i + 1] == Apply(run[i], steps[i])
  }

  lemma {:induction false} RunKeeps(run: seq<System>, steps: seq<Step>, n: nat)
    requires IsRun(run, steps) && n < |run| && Initial(run[0]) && Careful(run[0])
    ensures Inv(run[n])
  {
    hide Inv, Apply, Enabled, Initial, Careful;
    if n == 0 {
      InitialInv(run[0]);
    } else {
      RunKeeps(run, steps, n - 1);
      ApplyKeeps(run[n - 1], steps[n - 1]);
    }
  }

  // A stream: the bytes received are a prefix of the bytes sent, whatever the interleaving.
  lemma StreamKeepsOrder(run: seq<System>, steps: seq<Step>, n: nat)
    requires IsRun(run, steps) && n < |run| && Initial(run[0]) && !run[0].setup.messages
    ensures run[n].received <= run[n].sent && |run[n].received| == run[n].taken
  {
    hide IsRun, Initial;
    RunKeeps(run, steps, n);
    SameSetup(run, steps, n);
  }

  // Messages: those delivered are, whole and in order, the first of those sent.
  lemma MessagesKeepOrder(run: seq<System>, steps: seq<Step>, n: nat)
    requires IsRun(run, steps) && n < |run| && Initial(run[0]) && Careful(run[0]) && run[0].setup.messages
    ensures run[n].delivered <= run[n].outgoing
  {
    hide IsRun, Initial;
    RunKeeps(run, steps, n);
    SameSetup(run, steps, n);
    PublishedAreSent(run[n]);
  }

  lemma PublishedAreSent(s: System)
    ensures Published(s) <= s.outgoing
  {
  }

  lemma {:induction false} SameSetup(run: seq<System>, steps: seq<Step>, n: nat)
    requires IsRun(run, steps) && n < |run|
    ensures run[n].setup == run[0].setup && |run[n].bytes| == |run[0].bytes|
  {
    if n > 0 { SameSetup(run, steps, n - 1); }
  }
}
