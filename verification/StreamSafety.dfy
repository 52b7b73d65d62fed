// What the reader receives is what the writer sent, over every interleaving of their steps.
module StreamSafety {
  import opened StreamProtocol

  // ----- Positions on the ring -----

  function Slot(k: nat, n: nat): (i: nat)
    requires n > 0
    ensures i < n
  {
    k % n
  }

  lemma DivisionIsUnique(a: nat, q: nat, r: nat, n: nat)
    requires n > 0 && a == q * n + r && r < n
    ensures a % n == r
  {
    var p := a / n;
    assert a == p * n + a % n;
    if q > p { Multiples(p, q, n); }
    if q < p { Multiples(q, p, n); }
  }

  lemma {:induction false} Multiples(p: nat, q: nat, n: nat)
    requires p < q
    ensures q * n >= p * n + n
  {
    assert q * n == (q - 1) * n + n;
    if p < q - 1 { Multiples(p, q - 1, n); }
  }

  lemma SlotMoved(k: nat, d: nat, n: nat)
    requires 0 < n && d <= n
    ensures Moved(Slot(k, n), d, n) == Slot(k + d, n)
  {
    var q, r := k / n, k % n;
    assert k == q * n + r;
    if r + d < n {
      DivisionIsUnique(k + d, q, r + d, n);
    } else {
      NextMultiple(q, n);
      DivisionIsUnique(k + d, q + 1, r + d - n, n);
    }
  }

  lemma NextMultiple(q: nat, n: nat)
    ensures (q + 1) * n == q * n + n
  {
  }

  lemma SlotsApart(i: nat, j: nat, n: nat)
    requires 0 < n && i < j < i + n
    ensures Slot(i, n) != Slot(j, n)
  {
    SlotMoved(i, j - i, n);
    hide Slot;
  }

  // The two published indexes give the true number of bytes and of spaces.
  lemma Distances(written: nat, read: nat, n: nat)
    requires 0 < n && read <= written < read + n
    ensures BytesIn(Slot(written, n), Slot(read, n), n) == written - read
    ensures SpacesIn(Slot(written, n), Slot(read, n), n) == n - 1 - (written - read)
  {
    SlotMoved(read, written - read, n);
    SlotMoved(read, 0, n);
    hide Slot;
  }

  // The ring holds data from position lo on.
  ghost predicate Stored(bytes: seq<Byte>, lo: nat, data: seq<Byte>) {
    |bytes| > 0 && forall j :: 0 <= j < |data| ==> bytes[Slot(lo + j, |bytes|)] == data[j]
  }

  lemma StoreNext(bytes: seq<Byte>, lo: nat, data: seq<Byte>, b: Byte)
    requires Stored(bytes, lo, data) && |data| < |bytes|
    ensures Stored(bytes[Slot(lo + |data|, |bytes|) := b], lo, data + [b])
  {
    hide Slot;
    var n, at := |bytes|, lo + |data|;
    forall j | 0 <= j < |data| + 1 ensures bytes[Slot(at, n) := b][Slot(lo + j, n)] == (data + [b])[j] {
      if j < |data| { SlotsApart(lo + j, at, n); }
    }
  }

  lemma StoredRest(bytes: seq<Byte>, lo: nat, data: seq<Byte>, d: nat)
    requires Stored(bytes, lo, data) && d <= |data|
    ensures Stored(bytes, lo + d, data[d..])
  {
    hide Slot;
    forall j | 0 <= j < |data| - d ensures bytes[Slot(lo + d + j, |bytes|)] == data[d..][j] {
      assert bytes[Slot(lo + (d + j), |bytes|)] == data[d + j];
    }
  }

  lemma StoredAt(bytes: seq<Byte>, lo: nat, data: seq<Byte>, j: nat)
    requires Stored(bytes, lo, data) && j < |data|
    ensures bytes[Slot(lo + j, |bytes|)] == data[j]
  {
  }

  // ----- The invariant in bytes -----

  // The reader has moved xTail past a header and will move it back.
  predicate InWindow(s: System) { s.r.HeaderRead? && s.r.size > s.r.room }

  // What the reader may still read from.
  function Floor(s: System): int { if InWindow(s) then s.taken - HEADER else s.taken }

  function Room(s: System): int { Floor(s) + |s.bytes| - 1 - |s.sent| }

  // Messages of one byte take five bytes of the ring; on a ring that is full after a whole number of them
  // the room left is always a multiple of five.
  predicate OneByteRing(s: System) { s.setup.longest == 1 && |s.bytes| % (HEADER + 1) == 1 }

  // The four bytes too many that the writer sees while the window is open make no message fit.
  predicate Harmless(s: System) { Room(s) == 0 || OneByteRing(s) }

  ghost predicate Indexed(s: System) {
    && |s.bytes| > HEADER && 0 <= Floor(s) <= s.taken <= |s.sent| < Floor(s) + |s.bytes|
    && s.head == Slot(|s.sent|, |s.bytes|) && s.tail == Slot(s.taken, |s.bytes|)
  }

  // What the writer has copied but not yet published.
  function Ahead(s: System): seq<Byte> {
    if s.w.Copying? && s.w.done <= |s.w.chunk| then s.w.chunk[..s.w.done] else []
  }

  // Every byte the reader may read, and every byte copied since, is on the ring.
  ghost predicate Held(s: System) {
    0 <= Floor(s) <= |s.sent| && Stored(s.bytes, Floor(s), s.sent[Floor(s)..] + Ahead(s))
  }

  ghost predicate WriterOk(s: System) {
    match s.w
    case WriterIdle => true
    case Checked(data, space) =>
      && 0 < |data| < SIZE_RANGE
      && (if s.setup.messages then |data| + HEADER <= space ==> |data| + HEADER <= Room(s) else space <= Room(s))
    case Copying(chunk, done, next) => 0 < |chunk| && done <= |chunk| && |chunk| + |next| <= Room(s)
  }

  ghost predicate ReaderOk(s: System) {
    match s.r
    case ReaderIdle => true
    case Looked(_, available) => s.taken + available <= |s.sent|
    case Fetching(header, count, got, _, available) =>
      && |got| <= count && s.taken + count <= |s.sent| && s.taken + available <= |s.sent|
      && got == s.sent[s.taken..s.taken + |got|] && (header ==> s.setup.messages && count == HEADER)
    case HeaderRead(size, room, available, originalTail) =>
      && s.setup.messages && s.taken >= HEADER && s.taken + available <= |s.sent|
      && (size > room ==> |s.bytes| > 0 && originalTail == Slot(s.taken - HEADER, |s.bytes|) && Harmless(s))
  }

  ghost predicate StreamOk(s: System) {
    !s.setup.messages ==> s.taken <= |s.sent| && s.received == s.sent[..s.taken]
  }

  ghost predicate BytesOk(s: System) { Indexed(s) && Held(s) && WriterOk(s) && ReaderOk(s) && StreamOk(s) }

  // ----- Each step keeps it -----

  lemma WriterLooksKeeps(s: System, data: Message)
    requires BytesOk(s) && Enabled(s, WriterLooks(data))
    requires InWindow(s) ==> Room(s) == 0 || (Room(s) % (HEADER + 1) == 0 && |data| == 1)
    ensures BytesOk(Apply(s, WriterLooks(data)))
  {
    hide Slot, Stored, SpacesIn;
    Distances(|s.sent|, s.taken, |s.bytes|);
  }

  lemma WriterDecidesKeeps(s: System)
    requires BytesOk(s) && Enabled(s, WriterDecides)
    ensures BytesOk(Apply(s, WriterDecides))
  {
    hide Slot, Stored, HeaderOf;
  }

  lemma WriterCopiesKeeps(s: System)
    requires BytesOk(s) && Enabled(s, WriterCopies)
    ensures BytesOk(Apply(s, WriterCopies))
  {
    hide Slot, Stored, Moved;
    var was, b := s.sent[Floor(s)..] + Ahead(s), s.w.chunk[s.w.done];
    SlotMoved(|s.sent|, s.w.done, |s.bytes|);
    StoreNext(s.bytes, Floor(s), was, b);
    assert was + [b] == s.sent[Floor(s)..] + s.w.chunk[..s.w.done + 1];
  }

  lemma WriterPublishesKeeps(s: System)
    requires BytesOk(s) && Enabled(s, WriterPublishes)
    ensures BytesOk(Apply(s, WriterPublishes))
  {
    hide Slot, Stored, Moved;
    SlotMoved(|s.sent|, |s.w.chunk|, |s.bytes|);
    var after := Apply(s, WriterPublishes);
    assert after.sent[Floor(s)..] + [] == s.sent[Floor(s)..] + s.w.chunk[..|s.w.chunk|];
  }

  lemma ReaderLooksKeeps(s: System, room: nat)
    requires BytesOk(s) && Enabled(s, ReaderLooks(room))
    ensures BytesOk(Apply(s, ReaderLooks(room)))
  {
    hide Slot, Stored, BytesIn;
    Distances(|s.sent|, s.taken, |s.bytes|);
  }

  lemma ReaderDecidesKeeps(s: System)
    requires BytesOk(s) && Enabled(s, ReaderDecides)
    ensures BytesOk(Apply(s, ReaderDecides))
  {
    hide Slot, Stored;
  }

  lemma ReaderCopiesKeeps(s: System)
    requires BytesOk(s) && Enabled(s, ReaderCopies)
    ensures BytesOk(Apply(s, ReaderCopies))
  {
    hide Slot, Stored, Moved;
    var k := s.taken + |s.r.got|;
    SlotMoved(s.taken, |s.r.got|, |s.bytes|);
    StoredAt(s.bytes, Floor(s), s.sent[Floor(s)..] + Ahead(s), |s.r.got|);
    assert s.sent[s.taken..k + 1] == s.sent[s.taken..k] + [s.sent[k]];
  }

  // A window opens only where it does no harm.
  lemma ReaderPublishesKeeps(s: System)
    requires BytesOk(s) && Enabled(s, ReaderPublishes)
    requires InWindow(Apply(s, ReaderPublishes)) ==> Harmless(s)
    ensures BytesOk(Apply(s, ReaderPublishes))
  {
    hide Slot, Stored, Moved, SizeOf, Held, StreamOk;
    SlotMoved(s.taken, s.r.count, |s.bytes|);
    ReaderPublishesHeld(s);
    ReaderPublishesStream(s);
  }

  lemma ReaderPublishesHeld(s: System)
    requires Indexed(s) && Held(s) && ReaderOk(s) && Enabled(s, ReaderPublishes)
    ensures Held(Apply(s, ReaderPublishes))
  {
    hide Slot, Stored, Moved, SizeOf;
    var c := s.r.count;
    StoredRest(s.bytes, s.taken, s.sent[s.taken..] + Ahead(s), c);
    assert (s.sent[s.taken..] + Ahead(s))[c..] == s.sent[s.taken + c..] + Ahead(s);
  }

  lemma ReaderPublishesStream(s: System)
    requires StreamOk(s) && ReaderOk(s) && Enabled(s, ReaderPublishes)
    ensures StreamOk(Apply(s, ReaderPublishes))
  {
    hide Slot, Moved, SizeOf;
    var c := s.r.count;
    assert s.sent[..s.taken] + s.sent[s.taken..s.taken + c] == s.sent[..s.taken + c];
  }

  lemma ReaderChecksSizeKeeps(s: System)
    requires BytesOk(s) && Enabled(s, ReaderChecksSize)
    ensures BytesOk(Apply(s, ReaderChecksSize))
  {
    hide Slot, Stored;
  }
}
