// What one whole call does to a stream or message buffer while the other side is between calls.
module StreamCalls {
  import opened StreamProtocol
  import opened StreamSafety
  import opened MessageSafety
  import opened MessageRace

  // ----- Writing -----

  // The steps the writer has left in its call.
  function WriterLeft(w: Writer): nat {
    if !w.Copying? then 0
    else (if w.done < |w.chunk| then |w.chunk| - w.done else 0) + 1 + if w.next == [] then 0 else |w.next| + 1
  }

  lemma WriterGoesOn(s: System)
    requires Sound(s) && s.w.Copying?
    ensures Enabled(s, if s.w.done < |s.w.chunk| then WriterCopies else WriterPublishes)
  {
    hide Slot, Held, ReaderOk, StreamOk, MessagesOk;
  }

  // The writer goes on to the end of its call.
  ghost function WriterEnds(s: System): System
    requires Sound(s)
    decreases WriterLeft(s.w)
  {
    if !s.w.Copying? then s
    else
      WriterGoesOn(s);
      if s.w.done < |s.w.chunk| then
        CopyIsSound(s);
        WriterEnds(Apply(s, WriterCopies))
      else
        PublishIsSound(s);
        WriterEnds(Apply(s, WriterPublishes))
  }

  // Nothing but the writer's bytes and its index has changed.
  predicate ReaderSame(s: System, s': System) {
    && s'.r == s.r && s'.tail == s.tail && s'.taken == s.taken && s'.received == s.received
    && s'.delivered == s.delivered && s'.setup == s.setup && |s'.bytes| == |s.bytes|
  }

  lemma {:induction false} WriterEndsWith(s: System)
    requires Sound(s)
    ensures var s' := WriterEnds(s);
      && Sound(s') && s'.w == (if s.w.Copying? then WriterIdle else s.w)
      && ReaderSame(s, s') && s'.outgoing == s.outgoing
      && s'.sent == s.sent + if s.w.Copying? then s.w.chunk + s.w.next else []
    decreases WriterLeft(s.w)
  {
    hide Sound, Moved;
    if s.w.Copying? {
      WriterGoesOn(s);
      if s.w.done < |s.w.chunk| {
        CopyIsSound(s);
        WriterEndsWith(Apply(s, WriterCopies));
      } else {
        PublishIsSound(s);
        WriterEndsWith(Apply(s, WriterPublishes));
        assert s.sent + s.w.chunk + s.w.next == s.sent + (s.w.chunk + s.w.next);
      }
    }
  }

  // A call that sends data, with no block time, from beginning to end.
  ghost function WriteCall(s: System, data: Message): System
    requires Sound(s) && s.w.WriterIdle? && s.r.ReaderIdle? && Enabled(s, WriterLooks(data))
  {
    BeginIsSound(s, data);
    WriterEnds(Apply(Apply(s, WriterLooks(data)), WriterDecides))
  }

  // What the call publishes: as much as there is room for, or a message whole or not at all.
  function Accepted(s: System, data: Message): seq<Byte>
    requires |data| < SIZE_RANGE && Room(s) >= 0
  {
    if !s.setup.messages then data[..Min(|data|, Room(s))]
    else if |data| + HEADER <= Room(s) then HeaderOf(|data|) + data
    else []
  }

  lemma BeginsToWrite(s: System, data: Message)
    requires Sound(s) && s.w.WriterIdle? && s.r.ReaderIdle? && Enabled(s, WriterLooks(data))
    ensures var s' := Apply(Apply(s, WriterLooks(data)), WriterDecides);
      && Room(s) >= 0 && ReaderSame(s, s') && s'.sent == s.sent && (s'.w.Copying? || s'.w.WriterIdle?)
      && (if s'.w.Copying? then s'.w.chunk + s'.w.next == Accepted(s, data) else Accepted(s, data) == [])
      && s'.outgoing == if s.setup.messages && Accepted(s, data) != [] then s.outgoing + [data] else s.outgoing
  {
    IdleFacts(s);
    hide Sound, SpacesIn, HeaderOf;
  }

  // The bytes published are those the call accepts, by the room there is.
  lemma WriteCallSends(s: System, data: Message)
    requires Sound(s) && s.w.WriterIdle? && s.r.ReaderIdle? && Enabled(s, WriterLooks(data))
    ensures var s' := WriteCall(s, data);
      && Room(s) == |s.bytes| - 1 - (|s.sent| - s.taken) >= 0
      && Sound(s') && s'.w == WriterIdle && ReaderSame(s, s') && s'.sent == s.sent + Accepted(s, data)
      && s'.outgoing == if s.setup.messages && Accepted(s, data) != [] then s.outgoing + [data] else s.outgoing
  {
    hide Sound, Accepted;
    BeginIsSound(s, data);
    BeginsToWrite(s, data);
    IdleFacts(s);
    WriterEndsWith(Apply(Apply(s, WriterLooks(data)), WriterDecides));
  }

  // ----- Reading -----

  function ReaderPhase(r: Reader): nat {
    if r.Fetching? && r.header then 2 else if r.HeaderRead? then 1 else 0
  }

  // The copies the reader has left before it moves xTail.
  function CopiesLeft(r: Reader): nat {
    if r.Fetching? then 1 + if |r.got| < r.count then r.count - |r.got| else 0 else 0
  }

  predicate Reading(r: Reader) { r.Fetching? || r.HeaderRead? }

  function NextRead(r: Reader): Step
    requires Reading(r)
  {
    if r.HeaderRead? then ReaderChecksSize else if |r.got| < r.count then ReaderCopies else ReaderPublishes
  }

  lemma ReaderGoesOn(s: System)
    requires Inv(s) && Reading(s.r)
    ensures Enabled(s, NextRead(s.r))
    ensures var r' := Apply(s, NextRead(s.r)).r;
      ReaderPhase(r') < ReaderPhase(s.r) || (ReaderPhase(r') == ReaderPhase(s.r) && CopiesLeft(r') < CopiesLeft(s.r))
  {
    hide Slot, Held, WriterOk, StreamOk, MessagesOk, SizeOf;
  }

  // The reader goes on to the end of its call.
  ghost function ReaderEnds(s: System): System
    requires Inv(s)
    decreases ReaderPhase(s.r), CopiesLeft(s.r)
  {
    if !Reading(s.r) then s
    else
      ReaderGoesOn(s);
      ApplyKeeps(s, NextRead(s.r));
      ReaderEnds(Apply(s, NextRead(s.r)))
  }

  lemma EndsStep(s: System)
    requires Inv(s) && Reading(s.r)
    ensures Enabled(s, NextRead(s.r)) && Inv(Apply(s, NextRead(s.r)))
    ensures ReaderEnds(s) == ReaderEnds(Apply(s, NextRead(s.r)))
    ensures var r' := Apply(s, NextRead(s.r)).r;
      ReaderPhase(r') < ReaderPhase(s.r) || (ReaderPhase(r') == ReaderPhase(s.r) && CopiesLeft(r') < CopiesLeft(s.r))
  {
    hide Inv, Enabled, Apply;
    ReaderGoesOn(s);
    ApplyKeeps(s, NextRead(s.r));
  }

  // Nothing of the writer's has changed.
  predicate WriterSame(s: System, s': System) {
    && s'.w == s.w && s'.head == s.head && s'.bytes == s.bytes && s'.sent == s.sent
    && s'.outgoing == s.outgoing && s'.setup == s.setup
  }

  // The first unread message, whole.
  function NextUp(s: System): Message
    requires |s.delivered| < |Published(s)|
  {
    Published(s)[|s.delivered|]
  }

  lemma {:induction false} BodyEnds(s: System)
    requires Inv(s) && s.r.Fetching? && !s.r.header
    ensures var s' := ReaderEnds(s);
      && Inv(s') && s'.r.ReaderIdle? && WriterSame(s, s') && s'.taken == s.taken + s.r.count
      && (s.setup.messages ==>
            |s.delivered| < |Published(s)| && s'.delivered == s.delivered + [NextUp(s)])
    decreases CopiesLeft(s.r)
  {
    hide Inv, Moved, Published;
    EndsStep(s);
    if |s.r.got| < s.r.count {
      var s1 := Apply(s, ReaderCopies);
      SamePublished(s, s1);
      BodyEnds(s1);
    } else {
      InvParts(s);
      hide BytesOk, MessagesOk;
      if s.setup.messages { FetchedBody(s); }
    }
  }

  lemma InvParts(s: System)
    requires Inv(s)
    ensures BytesOk(s) && MessagesOk(s)
  {
  }

  lemma SamePublished(s: System, s': System)
    requires WriterSame(s, s')
    ensures Published(s') == Published(s)
  {
  }

  // After the header: the message is delivered, or xTail goes back to where the call found it.
  lemma SizeEnds(s: System)
    requires Inv(s) && s.r.HeaderRead? && s.setup.messages
    ensures var s' := ReaderEnds(s);
      && Inv(s') && s'.r.ReaderIdle? && WriterSame(s, s') && |s.delivered| < |Published(s)|
      && s.r.size == |NextUp(s)| && s.taken >= HEADER
      && (if s.r.size <= s.r.room then s'.taken == s.taken + s.r.size && s'.delivered == s.delivered + [NextUp(s)]
          else s'.taken == s.taken - HEADER && s'.delivered == s.delivered)
  {
    NextSize(s);
    hide Inv, Moved, Published;
    EndsStep(s);
    var s1 := Apply(s, ReaderChecksSize);
    SamePublished(s, s1);
    if s.r.size <= s.r.room { BodyEnds(s1); }
  }

  lemma NextSize(s: System)
    requires Inv(s) && s.r.HeaderRead? && s.setup.messages
    ensures |s.delivered| < |Published(s)| && s.r.size == |NextUp(s)| <= s.r.available && s.r.size > 0
    ensures s.taken >= HEADER
  {
    hide Held, Indexed, StreamOk, WriterOk, Encode, HeaderOf;
    NextMessage(s);
  }

  lemma {:induction false} HeaderEnds(s: System)
    requires Inv(s) && s.r.Fetching? && s.r.header
    ensures var s' := ReaderEnds(s);
      && Inv(s') && s'.r.ReaderIdle? && WriterSame(s, s') && |s.delivered| < |Published(s)|
      && (if |NextUp(s)| <= s.r.room
          then s'.taken == s.taken + HEADER + |NextUp(s)| && s'.delivered == s.delivered + [NextUp(s)]
          else s'.taken == s.taken && s'.delivered == s.delivered)
    decreases CopiesLeft(s.r)
  {
    InvParts(s);
    HeaderMeansMessages(s);
    hide Inv, Moved, Published, BytesOk, MessagesOk, SizeOf;
    EndsStep(s);
    if |s.r.got| < s.r.count {
      var s1 := Apply(s, ReaderCopies);
      SamePublished(s, s1);
      HeaderEnds(s1);
    } else {
      FetchedHeader(s);
      var s1 := Apply(s, ReaderPublishes);
      SamePublished(s, s1);
      if s1.r.HeaderRead? { SizeEnds(s1); }
    }
  }

  lemma HeaderMeansMessages(s: System)
    requires BytesOk(s) && s.r.Fetching? && s.r.header
    ensures s.setup.messages && s.r.count == HEADER
  {
  }

  // A call that receives into a buffer of room bytes, with no block time, from beginning to end.
  ghost function ReadCall(s: System, room: nat): System
    requires Inv(s) && s.r.ReaderIdle? && Enabled(s, ReaderLooks(room))
  {
    ApplyKeeps(s, ReaderLooks(room));
    ApplyKeeps(Apply(s, ReaderLooks(room)), ReaderDecides);
    ReaderEnds(Apply(Apply(s, ReaderLooks(room)), ReaderDecides))
  }

  lemma BeginsReading(s: System, room: nat)
    requires Inv(s) && s.r.ReaderIdle? && Enabled(s, ReaderLooks(room))
    ensures var s', unread := Apply(Apply(s, ReaderLooks(room)), ReaderDecides), |s.sent| - s.taken;
      && Inv(s') && unread >= 0 && s' == s.(r := s'.r)
      && (s.setup.messages ==>
            if unread > HEADER then s'.r.Fetching? && s'.r.header && s'.r.room == room else s'.r.ReaderIdle?)
      && (!s.setup.messages ==>
            if unread > 0 && room > 0 then s'.r.Fetching? && !s'.r.header && s'.r.count == Min(unread, room)
            else s'.r.ReaderIdle?)
  {
    ApplyKeeps(s, ReaderLooks(room));
    ApplyKeeps(Apply(s, ReaderLooks(room)), ReaderDecides);
    IdleFacts(s);
    hide Inv, BytesIn;
  }

  // With no more than a header unread, no whole message waits.
  lemma NoneWhole(s: System)
    requires Inv(s) && s.r.ReaderIdle? && s.setup.messages
    ensures |s.delivered| < |Published(s)| ==> |s.sent| - s.taken > HEADER
  {
    hide Held, Indexed, StreamOk, WriterOk, Encode, HeaderOf;
    NextMessage(s);
  }

  // With careful use a read takes from a stream as many of the unread bytes as there is room for, and
  // from a message buffer the first unread message, whole, if there is one and room for it.
  lemma ReadCallReceives(s: System, room: nat)
    requires Inv(s) && s.r.ReaderIdle? && Enabled(s, ReaderLooks(room))
    ensures var s', unread := ReadCall(s, room), |s.sent| - s.taken;
      && Inv(s') && s'.r.ReaderIdle? && WriterSame(s, s') && unread >= 0
      && (!s.setup.messages ==>
            && s'.taken == s.taken + Min(unread, room) && s'.received == s.sent[..s.taken + Min(unread, room)]
            && s.received == s.sent[..s.taken])
      && (s.setup.messages && |s.delivered| < |Published(s)| && |NextUp(s)| <= room ==>
            s'.delivered == s.delivered + [NextUp(s)])
      && (s.setup.messages && !(|s.delivered| < |Published(s)| && |NextUp(s)| <= room) ==>
            s'.delivered == s.delivered && s'.taken == s.taken)
  {
    BeginsReading(s, room);
    if s.setup.messages { NoneWhole(s); }
    Received(s);
    hide Inv, Published;
    var s1 := Apply(Apply(s, ReaderLooks(room)), ReaderDecides);
    SamePublished(s, s1);
    if s1.r.Fetching? {
      if s1.r.header { HeaderEnds(s1); } else { BodyEnds(s1); }
    }
    Received(ReadCall(s, room));
  }

  lemma Received(s: System)
    requires Inv(s)
    ensures !s.setup.messages ==> s.taken <= |s.sent| && s.received == s.sent[..s.taken]
  {
  }

  // ----- A round trip -----

  lemma WrittenInv(s: System, data: Message)
    requires Inv(s) && s.w.WriterIdle? && s.r.ReaderIdle? && Enabled(s, WriterLooks(data))
    ensures Sound(s) && Inv(WriteCall(s, data)) && WriteCall(s, data).r.ReaderIdle?
  {
    hide BytesOk, MessagesOk, Accepted, WriteCall;
    WriteCallSends(s, data);
  }

  // What one call sends to an empty buffer is what the next call receives: the message, if it fits the
  // ring and the receive buffer; of a stream as many bytes as both have room for.
  lemma RoundTrip(s: System, data: Message, room: nat)
    requires Inv(s) && s.w.WriterIdle? && s.r.ReaderIdle? && s.taken == |s.sent|
    requires s.setup.messages ==> s.delivered == s.outgoing
    requires Enabled(s, WriterLooks(data)) && (s.setup.messages ==> room >= s.setup.least)
    ensures Sound(s) && Inv(WriteCall(s, data)) && WriteCall(s, data).r.ReaderIdle?
    ensures Enabled(WriteCall(s, data), ReaderLooks(room))
    ensures var s' := ReadCall(WriteCall(s, data), room);
      if s.setup.messages
      then s'.delivered == s.delivered + if |data| + HEADER < |s.bytes| && |data| <= room then [data] else []
      else s'.received == s.received + data[..Min(Min(|data|, |s.bytes| - 1), room)]
  {
    WriteCallSends(s, data);
    WrittenInv(s, data);
    hide Inv, Sound, HeaderOf, WriteCall, ReadCall;
    var s1 := WriteCall(s, data);
    ReadCallReceives(s1, room);
    PublishedWhenIdle(s1);
    if !s.setup.messages {
      var n := Min(Min(|data|, |s.bytes| - 1), room);
      assert s1.sent[..s.taken + n] == s.sent + data[..n];
      Received(s);
      assert s.sent[..s.taken] == s.sent;
    }
  }

  lemma PublishedWhenIdle(s: System)
    requires s.w.WriterIdle?
    ensures Published(s) == s.outgoing
  {
  }
}
