// Putting a header back while the writer runs: exactly when the indexes stop telling what is in the buffer.
module MessageRace {
  import opened StreamProtocol
  import opened StreamSafety
  import opened MessageSafety

  // Outside the window in which a header is put back, the indexes give the number of unread bytes.
  predicate IndexesTell(s: System) { !InWindow(s) ==> BytesIn(s.head, s.tail, |s.bytes|) == |s.sent| - s.taken }

  // ----- One step of the race -----

  // A message that the writer begins to write in the window does not fit exactly when the room there
  // really is holds its bytes but not its header as well.
  lemma RollBackRaceExactly(s: System, data: Message)
    requires Indexed(s) && InWindow(s) && s.taken >= HEADER && s.setup.messages && Enabled(s, WriterLooks(data))
    ensures var s1 := Apply(s, WriterLooks(data));
      && Enabled(s1, WriterDecides)
      && (Apply(s1, WriterDecides).w.Copying? && Room(s) < |data| + HEADER <==> |data| <= Room(s) < |data| + HEADER)
  {
    hide Slot, HeaderOf;
    Distances(|s.sent|, s.taken, |s.bytes|);
  }

  // ----- Building runs -----

  ghost predicate RunFrom(run: seq<System>, steps: seq<Step>, s0: System, s: System) {
    IsRun(run, steps) && run[0] == s0 && run[|steps|] == s
  }

  ghost predicate Leads(s0: System, s: System) { exists run, steps :: RunFrom(run, steps, s0, s) }

  lemma Nowhere(s: System)
    ensures Leads(s, s)
  {
    assert RunFrom([s], [], s, s);
  }

  lemma Onwards(s0: System, s: System, step: Step)
    requires Leads(s0, s) && Enabled(s, step)
    ensures Leads(s0, Apply(s, step))
  {
    hide Enabled, Apply;
    var run, steps :| RunFrom(run, steps, s0, s);
    var run', steps' := run + [Apply(s, step)], steps + [step];
    forall i | 0 <= i < |steps'| ensures Enabled(run'[i], steps'[i]) && run'[i + 1] == Apply(run'[i], steps'[i]) {
      if i < |steps| { assert run'[i] == run[i] && steps'[i] == steps[i] && run'[i + 1] == run[i + 1]; }
    }
    assert RunFrom(run', steps', s0, Apply(s, step));
  }

  ghost predicate Sound(s: System) { BytesOk(s) && MessagesOk(s) }

  // The rest of a chunk is copied; bytes on the ring and the count are all that changes.
  lemma {:induction false} CopiesAll(s0: System, s: System) returns (bytes: seq<Byte>)
    requires Leads(s0, s) && s.w.Copying? && s.w.done <= |s.w.chunk| <= |s.bytes| && s.head < |s.bytes|
    ensures |bytes| == |s.bytes| && Leads(s0, s.(bytes := bytes, w := s.w.(done := |s.w.chunk|)))
    ensures Sound(s) ==> Sound(s.(bytes := bytes, w := s.w.(done := |s.w.chunk|)))
    decreases |s.w.chunk| - s.w.done
  {
    hide Leads, Sound;
    if s.w.done == |s.w.chunk| {
      bytes := s.bytes;
    } else {
      Onwards(s0, s, WriterCopies);
      var s1 := Apply(s, WriterCopies);
      if Sound(s) { CopyIsSound(s); }
      bytes := CopiesAll(s0, s1);
    }
  }

  lemma CopyIsSound(s: System)
    requires Sound(s) && Enabled(s, WriterCopies)
    ensures Sound(Apply(s, WriterCopies))
  {
    hide BytesOk, MessagesOk;
    WriterCopiesKeeps(s);
    WriterCopiesMessages(s);
  }

  // A chunk copied and published.
  function Put(s: System, bytes: seq<Byte>): System
    requires s.w.Copying?
  {
    Publish(s.(bytes := bytes, w := s.w.(done := |s.w.chunk|)))
  }

  lemma Puts(s0: System, s: System) returns (bytes: seq<Byte>)
    requires Leads(s0, s) && s.w.Copying? && s.w.done <= |s.w.chunk| <= |s.bytes| && s.head < |s.bytes|
    ensures |bytes| == |s.bytes| && Leads(s0, Put(s, bytes)) && (Sound(s) ==> Sound(Put(s, bytes)))
  {
    hide Leads, Sound;
    bytes := CopiesAll(s0, s);
    var s1 := s.(bytes := bytes, w := s.w.(done := |s.w.chunk|));
    Onwards(s0, s1, WriterPublishes);
    if Sound(s) { PublishIsSound(s1); }
  }

  lemma PublishIsSound(s: System)
    requires Sound(s) && Enabled(s, WriterPublishes)
    ensures Sound(Apply(s, WriterPublishes))
  {
    hide BytesOk, MessagesOk;
    WriterPublishesKeeps(s);
    WriterPublishesMessages(s);
  }

  // ----- A whole message written -----

  // The state after a message has been written whole.
  function Written(s: System, bytes: seq<Byte>, data: Message): System
    requires |data| < SIZE_RANGE
  {
    s.(bytes := bytes, w := WriterIdle, head := Moved(Moved(s.head, HEADER, |s.bytes|), |data|, |s.bytes|),
       sent := s.sent + HeaderOf(|data|) + data, outgoing := s.outgoing + [data])
  }

  // A message that passes the writer's test is written, whether or not it fits.
  lemma Writes(s0: System, s: System, data: Message) returns (bytes: seq<Byte>)
    requires Leads(s0, s) && s.setup.messages && s.w.WriterIdle? && Enabled(s, WriterLooks(data))
    requires |data| + HEADER <= SpacesIn(s.head, s.tail, |s.bytes|)
    requires |data| + HEADER <= |s.bytes| && s.head < |s.bytes|
    ensures |bytes| == |s.bytes| && Leads(s0, Written(s, bytes, data))
    ensures Sound(s) && s.r.ReaderIdle? ==> Sound(Written(s, bytes, data))
  {
    hide Leads, Sound, SpacesIn, HeaderOf;
    Onwards(s0, s, WriterLooks(data));
    var s1 := Apply(s, WriterLooks(data));
    Onwards(s0, s1, WriterDecides);
    var s2 := Apply(s1, WriterDecides);
    if Sound(s) && s.r.ReaderIdle? { BeginIsSound(s, data); }
    var b1 := Puts(s0, s2);
    var s3 := Put(s2, b1);
    bytes := Puts(s0, s3);
    assert Put(s3, bytes) == Written(s, bytes, data);
  }

  lemma BeginIsSound(s: System, data: Message)
    requires Sound(s) && s.r.ReaderIdle? && Enabled(s, WriterLooks(data))
    ensures Sound(Apply(Apply(s, WriterLooks(data)), WriterDecides))
  {
    hide BytesOk, MessagesOk, SpacesIn;
    WriterLooksKeeps(s, data);
    WriterLooksMessages(s, data);
    WriterDecidesKeeps(Apply(s, WriterLooks(data)));
    WriterDecidesMessages(Apply(s, WriterLooks(data)));
  }

  function Zeros(n: nat): (m: Message)
    ensures |m| == n
  {
    seq(n, _ => 0)
  }

  // Nobody is in a call and nothing has been read yet; the first message is longer than the least room.
  ghost predicate Loaded(s0: System, s: System) {
    && Leads(s0, s) && Sound(s) && s.setup == s0.setup && |s.bytes| == |s0.bytes| && s.setup.messages
    && s.w == WriterIdle && s.r == ReaderIdle && s.taken == 0 && s.delivered == []
    && s.outgoing != [] && s.setup.least < |s.outgoing[0]| < SIZE_RANGE
  }

  lemma IdleFacts(s: System)
    requires Sound(s) && s.r.ReaderIdle?
    ensures |s.bytes| > HEADER && s.taken <= |s.sent| && 0 <= Room(s) == s.taken + |s.bytes| - 1 - |s.sent|
    ensures s.head == Slot(|s.sent|, |s.bytes|) && s.tail == Slot(s.taken, |s.bytes|)
    ensures SpacesIn(s.head, s.tail, |s.bytes|) == Room(s)
    ensures BytesIn(s.head, s.tail, |s.bytes|) == |s.sent| - s.taken
  {
    Distances(|s.sent|, s.taken, |s.bytes|);
    hide Slot, Held, WriterOk, StreamOk, MessagesOk, SpacesIn, BytesIn;
  }

  // One more message that fits.
  lemma LoadsOne(s0: System, s: System, data: Message) returns (s1: System)
    requires Loaded(s0, s) && 0 < |data| <= s.setup.longest && |data| < SIZE_RANGE && |data| + HEADER <= Room(s)
    ensures Loaded(s0, s1) && Room(s1) == Room(s) - HEADER - |data|
  {
    hide Leads, Sound, Slot, HeaderOf, SpacesIn;
    IdleFacts(s);
    var bytes := Writes(s0, s, data);
    s1 := Written(s, bytes, data);
  }

  // Messages can be added until the room is at most three bytes more than the longest takes up itself.
  lemma {:induction false} Fills(s0: System, s: System) returns (s1: System)
    requires Loaded(s0, s) && 1 <= Room(s) && 0 < s.setup.longest < SIZE_RANGE
    requires s.setup.longest == 1 ==> Room(s) % (HEADER + 1) != 0
    ensures Loaded(s0, s1) && 1 <= Room(s1) <= s0.setup.longest + 3
    decreases Room(s)
  {
    hide Leads, Sound;
    var longest := s.setup.longest;
    if Room(s) <= longest + 3 {
      s1 := s;
    } else {
      var s2 := LoadsOne(s0, s, Zeros(if Room(s) == longest + HEADER then longest - 1 else longest));
      s1 := Fills(s0, s2);
    }
  }

  // The first message goes into the empty buffer.
  lemma LoadsFirst(s0: System) returns (s: System)
    requires Initial(s0) && s0.setup.messages && s0.setup.least < s0.setup.longest < SIZE_RANGE
    requires |s0.bytes| > s0.setup.least + 6
    ensures Loaded(s0, s) && Room(s) == |s0.bytes| - s0.setup.least - 6
  {
    hide Leads, HeaderOf, Moved;
    Nowhere(s0);
    InitialSound(s0);
    hide Sound;
    IdleFacts(s0);
    hide SpacesIn;
    var data := Zeros(s0.setup.least + 1);
    var bytes := Writes(s0, s0, data);
    s := Written(s0, bytes, data);
  }

  lemma InitialSound(s: System)
    requires Initial(s)
    ensures Sound(s)
  {
    DivisionIsUnique(0, 0, 0, |s.bytes|);
  }

  // ----- The window opens -----

  lemma {:induction false} FetchesAll(s0: System, s: System) returns (got: seq<Byte>)
    requires Leads(s0, s) && Sound(s) && s.r.Fetching? && |s.r.got| <= s.r.count <= |s.bytes| && s.tail < |s.bytes|
    ensures |got| == s.r.count && Leads(s0, s.(r := s.r.(got := got))) && Sound(s.(r := s.r.(got := got)))
    decreases s.r.count - |s.r.got|
  {
    hide Leads, Sound;
    if |s.r.got| == s.r.count {
      got := s.r.got;
    } else {
      Onwards(s0, s, ReaderCopies);
      FetchIsSound(s);
      got := FetchesAll(s0, Apply(s, ReaderCopies));
    }
  }

  lemma FetchIsSound(s: System)
    requires Sound(s) && Enabled(s, ReaderCopies)
    ensures Sound(Apply(s, ReaderCopies))
  {
    hide BytesOk, MessagesOk;
    ReaderCopiesKeeps(s);
    ReaderCopiesMessages(s);
  }

  lemma LookIsSound(s: System, room: nat)
    requires Sound(s) && s.r.ReaderIdle? && Enabled(s, ReaderLooks(room))
    ensures Sound(Apply(Apply(s, ReaderLooks(room)), ReaderDecides))
  {
    hide BytesOk, MessagesOk, BytesIn;
    ReaderLooksKeeps(s, room);
    ReaderLooksMessages(s, room);
    ReaderDecidesKeeps(Apply(s, ReaderLooks(room)));
    ReaderDecidesMessages(Apply(s, ReaderLooks(room)));
  }

  // xTail is past the header of a message that does not fit.
  function Opened(s: System, size: nat): System {
    s.(tail := Moved(s.tail, HEADER, |s.bytes|), taken := s.taken + HEADER,
       r := HeaderRead(size, s.setup.least, |s.sent| - s.taken - HEADER, s.tail))
  }

  // The first message is on the ring, header and body.
  lemma FirstSize(s0: System, s: System)
    requires Loaded(s0, s)
    ensures Published(s) == s.outgoing && |s.sent| >= HEADER + |s.outgoing[0]| && |s.outgoing[0]| > 0
  {
    hide Leads, BytesOk, Encode, HeaderOf;
    EncodeAt(s.outgoing, 0);
    assert s.outgoing[..0] == [];
  }

  // The reader has seen that there is a message and is about to fetch its header.
  function AtHeader(s: System, got: seq<Byte>): System {
    s.(r := Fetching(true, HEADER, got, s.setup.least, |s.sent| - s.taken))
  }

  lemma BeginsToRead(s0: System, s: System) returns (got: seq<Byte>)
    requires Loaded(s0, s)
    ensures |got| == HEADER && Leads(s0, AtHeader(s, got)) && Sound(AtHeader(s, got))
  {
    IdleFacts(s);
    FirstSize(s0, s);
    hide Leads, Sound, BytesIn;
    var room := s.setup.least;
    Onwards(s0, s, ReaderLooks(room));
    Onwards(s0, Apply(s, ReaderLooks(room)), ReaderDecides);
    LookIsSound(s, room);
    got := FetchesAll(s0, AtHeader(s, []));
  }

  lemma OpensWindow(s0: System, s: System)
    requires Loaded(s0, s) && !s.setup.undisturbed
    ensures Leads(s0, Opened(s, |s.outgoing[0]|)) && |s.sent| > HEADER
  {
    FirstSize(s0, s);
    hide Leads, Sound, Moved, SizeOf;
    var got := BeginsToRead(s0, s);
    var s1 := AtHeader(s, got);
    SoundParts(s1);
    FetchedHeader(s1);
    hide BytesOk, MessagesOk;
    Onwards(s0, s1, ReaderPublishes);
    assert Apply(s1, ReaderPublishes) == Opened(s, |s.outgoing[0]|);
  }

  lemma SoundParts(s: System)
    requires Sound(s)
    ensures BytesOk(s) && MessagesOk(s)
  {
  }

  // ----- The race is lost -----

  // With unread bytes behind the header, a message that does not fit is written in the window, and when
  // the header is put back the indexes are a whole ring short of what was written.
  lemma LosesARing(written: nat, n: nat, m: nat)
    requires HEADER < written < n && 0 < m && m + HEADER < n && n - 1 - written < m + HEADER
    ensures var head := Moved(Moved(Slot(written, n), HEADER, n), m, n);
      BytesIn(head, Slot(0, n), n) == written + HEADER + m - n
  {
    hide Slot;
    SlotMoved(written, HEADER, n);
    SlotMoved(written + HEADER, m, n);
    SlotMoved(0, n, n);
    Distances(written + HEADER + m, n, n);
  }

  lemma WritesInWindow(s0: System, s: System, data: Message) returns (s1: System)
    requires Leads(s0, s) && s.setup.messages && s.w.WriterIdle?
    requires Enabled(s, WriterLooks(data)) && Enabled(s, ReaderChecksSize)
    requires InWindow(s) && s.head < |s.bytes| && |data| + HEADER <= |s.bytes|
    requires |data| + HEADER <= SpacesIn(s.head, s.tail, |s.bytes|)
    ensures Leads(s0, s1) && s1.r == ReaderIdle && s1.tail == s.r.originalTail && |s1.bytes| == |s.bytes|
    ensures s1.delivered == s.delivered && |s1.outgoing| == |s.outgoing| + 1
    ensures s1.head == Moved(Moved(s.head, HEADER, |s.bytes|), |data|, |s.bytes|)
    ensures |s1.sent| == |s.sent| + HEADER + |data| && s1.taken == s.taken - HEADER
  {
    hide Leads, SpacesIn, Moved, HeaderOf;
    var bytes := Writes(s0, s, data);
    Onwards(s0, Written(s, bytes, data), ReaderChecksSize);
    s1 := Apply(Written(s, bytes, data), ReaderChecksSize);
  }

  // The indexes show less than a header although whole messages wait.
  predicate Wedged(s: System) {
    && s.r == ReaderIdle && |s.delivered| < |s.outgoing|
    && BytesIn(s.head, s.tail, |s.bytes|) < HEADER < |s.sent| - s.taken
  }

  // With messages longer than some receive buffer, and bytes to spare behind the first such message, a
  // run reaches a state in which the reader finds nothing although messages wait.
  lemma RaceReached(s0: System)
    requires Initial(s0) && !Careful(s0) && s0.setup.longest < SIZE_RANGE
    ensures exists s :: Leads(s0, s) && Wedged(s)
  {
    var first := LoadsFirst(s0);
    SpareOfOne(s0.setup.least, |s0.bytes|);
    var s := Fills(s0, first);
    hide Sound;
    IdleFacts(s);
    FirstSize(s0, s);
    OpensWindow(s0, s);
    hide Leads;
    var n, window := |s.bytes|, Opened(s, |s.outgoing[0]|);
    var m := Min(Room(s), s.setup.longest);
    SlotMoved(0, HEADER, n);
    SlotMoved(0, 0, n);
    Distances(|s.sent|, HEADER, n);
    hide Slot, Moved, SpacesIn, BytesIn;
    var s1 := WritesInWindow(s0, window, Zeros(m));
    LosesARing(|s.sent|, n, m);
    assert Wedged(s1);
  }

  lemma SpareOfOne(least: nat, n: nat)
    requires n > least + 6
    ensures least == 0 && n % (HEADER + 1) != 1 ==> (n - least - 6) % (HEADER + 1) != 0
  {
  }

  // ----- Exactly when -----

  lemma CarefulTells(s0: System, s: System)
    requires Initial(s0) && Careful(s0) && Leads(s0, s)
    ensures IndexesTell(s)
  {
    hide Initial, Careful;
    var run, steps :| RunFrom(run, steps, s0, s);
    RunKeeps(run, steps, |steps|);
    hide IsRun;
    BytesTell(s);
  }

  lemma BytesTell(s: System)
    requires BytesOk(s)
    ensures IndexesTell(s)
  {
    hide Slot, Held, WriterOk, ReaderOk, StreamOk, BytesIn;
    if !InWindow(s) { Distances(|s.sent|, s.taken, |s.bytes|); }
  }

  lemma WedgedMisleads(s: System)
    requires Wedged(s)
    ensures !IndexesTell(s)
  {
  }

  // For every setup, ring and initial contents: in every run, outside a window, the indexes tell how
  // many bytes are unread exactly if the use is careful.
  lemma IndexesTellExactly(s0: System)
    requires Initial(s0) && s0.setup.longest < SIZE_RANGE
    ensures Careful(s0) <==> forall s :: Leads(s0, s) ==> IndexesTell(s)
  {
    hide Initial, Careful, Leads, IndexesTell;
    if Careful(s0) {
      forall s | Leads(s0, s) ensures IndexesTell(s) { CarefulTells(s0, s); }
    } else {
      RaceReached(s0);
      var s :| Leads(s0, s) && Wedged(s);
      WedgedMisleads(s);
    }
  }
}
