/**
 The binary replay format v3 (game/recorder/replay_writer.gd, game/playback/replay_reader.gd): what the
 bytes of a header, a frame and a file are, what a reader makes of them, and how the two fit together.

 Strings are their UTF-8 bytes and floats their 32-bit words.  A read past the end is None; what the
 engine's buffer hands out in that case is not part of this model.
 */
module ReplayFormat {
  import opened Common
  import opened Words
  import opened Lists

  /** One entry of the header.  `id` and `rgba` are engine integers, cut to 32 bits when written. */
  datatype Marble = Marble(id: int, rgba: int, name: Bytes, clientSeed: Bytes, slot: Uint32)

  /** Position (x, y, z) and rotation (x, y, z, w). */
  datatype Pose = Pose(px: Uint32, py: Uint32, pz: Uint32, qx: Uint32, qy: Uint32, qz: Uint32, qw: Uint32)

  /** `tick` and `flags` are cut to 32 and 8 bits when written. */
  datatype Frame = Frame(tick: nat, flags: int, states: seq<Pose>)

  datatype Header = Header(
    roundId: Uint64, tickRate: Uint32, serverSeed: Bytes, serverSeedHash: Bytes,
    slotCount: Uint32, trackId: int, marbles: seq<Marble>)

  datatype Replay = Replay(header: Header, frames: seq<Frame>)

  const PROTOCOL_VERSION: nat := 3

  // ---------------------------------------------------------------------------
  // Writing
  // ---------------------------------------------------------------------------

  /** A length byte, then the bytes: only the low byte of the length is written. */
  function ShortBytes(b: Bytes): Bytes { LE(|b|, 1) + b }

  function MarbleBytes(m: Marble): Bytes {
    LE(m.id % TWO_32, 4) + (LE(m.rgba % TWO_32, 4) + (ShortBytes(m.name) + (ShortBytes(m.clientSeed) + LE(m.slot, 4))))
  }

  /** The fields of a round that all marbles share. */
  function RoundBytes(h: Header): Bytes {
    LE(h.roundId, 8) + (LE(h.tickRate, 4) + (ShortBytes(h.serverSeed) + ShortBytes(h.serverSeedHash)))
  }

  /** The slots, the track and the marbles. */
  function FieldBytes(h: Header): Bytes {
    LE(h.slotCount, 4) + (LE(h.trackId % 0x100, 1) + (LE(|h.marbles|, 4) + WriteList(MarbleBytes, h.marbles)))
  }

  function HeaderBytes(h: Header): Bytes {
    LE(PROTOCOL_VERSION, 1) + (RoundBytes(h) + FieldBytes(h))
  }

  function PoseBytes(p: Pose): Bytes {
    LE(p.px, 4) + (LE(p.py, 4) + (LE(p.pz, 4) + (LE(p.qx, 4) + (LE(p.qy, 4) + (LE(p.qz, 4) + LE(p.qw, 4))))))
  }

  function FrameBytes(f: Frame): Bytes {
    LE(f.tick % TWO_32, 4) + (LE(f.flags % 0x100, 1) + WriteList(PoseBytes, f.states))
  }

  function FileBytes(r: Replay): Bytes {
    HeaderBytes(r.header) + (LE(|r.frames|, 4) + WriteList(FrameBytes, r.frames))
  }

  // ---------------------------------------------------------------------------
  // Where the fields are
  // ---------------------------------------------------------------------------

  /** The next field of b, at offset k. */
  lemma Next(b: Bytes, k: nat, a: Bytes, rest: Bytes)
    requires k <= |b| && b[k..] == a + rest
    ensures k + |a| <= |b| && b[k..k + |a|] == a && b[k + |a|..] == rest
  {
    assert b[k..k + |a|] == b[k..][..|a|];
    assert b[k + |a|..] == b[k..][|a|..];
  }

  lemma NextByte(b: Bytes, k: nat, n: nat, rest: Bytes)
    requires k <= |b| && b[k..] == LE(n, 1) + rest
    ensures k < |b| && b[k] == n % 0x100 && b[k + 1..] == rest
  {
    Next(b, k, LE(n, 1), rest);
    assert LE(n, 1)[0] == n % 0x100;
    assert b[k] == b[k..k + 1][0];
  }

  /** A length byte, the bytes, and what follows. */
  lemma NextShort(b: Bytes, k: nat, a: Bytes, rest: Bytes)
    requires k <= |b| && b[k..] == ShortBytes(a) + rest
    ensures k + 1 + |a| <= |b| && b[k] == |a| % 0x100 && b[k + 1..k + 1 + |a|] == a && b[k + 1 + |a|..] == rest
  {
    Assoc(LE(|a|, 1), a, rest);
    NextByte(b, k, |a|, a + rest);
    Next(b, k + 1, a, rest);
  }

  /** Version 3, byte by byte: what all marbles share, for a seed of n and a hash of t bytes. */
  lemma HeaderLayout(h: Header)
    ensures var b := HeaderBytes(h); var n, t := |h.serverSeed|, |h.serverSeedHash|;
      && |b| >= 24 + n + t && b[0] == 3 && b[1..9] == LE(h.roundId, 8) && b[9..13] == LE(h.tickRate, 4)
      && b[13] == n % 0x100 && b[14..14 + n] == h.serverSeed
      && b[14 + n] == t % 0x100 && b[15 + n..15 + n + t] == h.serverSeedHash
      && b[15 + n + t..19 + n + t] == LE(h.slotCount, 4) && b[19 + n + t] == h.trackId % 0x100
      && b[20 + n + t..24 + n + t] == LE(|h.marbles|, 4) && b[24 + n + t..] == WriteList(MarbleBytes, h.marbles)
  {
    VersionLayout(h);
    RoundLayout(HeaderBytes(h), h, FieldBytes(h));
    FieldLayout(HeaderBytes(h), 15 + |h.serverSeed| + |h.serverSeedHash|, h);
  }

  lemma VersionLayout(h: Header)
    ensures var b := HeaderBytes(h); |b| >= 1 && b[0] == 3 && b[1..] == RoundBytes(h) + FieldBytes(h)
  {
    NextByte(HeaderBytes(h), 0, 3, RoundBytes(h) + FieldBytes(h));
  }

  lemma FieldLayout(b: Bytes, k: nat, h: Header)
    requires k <= |b| && b[k..] == FieldBytes(h)
    ensures |b| >= k + 9 && b[k..k + 4] == LE(h.slotCount, 4) && b[k + 4] == h.trackId % 0x100
    ensures b[k + 5..k + 9] == LE(|h.marbles|, 4) && b[k + 9..] == WriteList(MarbleBytes, h.marbles)
  {
    var list := WriteList(MarbleBytes, h.marbles);
    Next(b, k, LE(h.slotCount, 4), LE(h.trackId % 0x100, 1) + (LE(|h.marbles|, 4) + list));
    NextByte(b, k + 4, h.trackId % 0x100, LE(|h.marbles|, 4) + list);
    Next(b, k + 5, LE(|h.marbles|, 4), list);
  }

  lemma RoundLayout(b: Bytes, h: Header, rest: Bytes)
    requires |b| >= 1 && b[1..] == RoundBytes(h) + rest
    ensures var n, t := |h.serverSeed|, |h.serverSeedHash|;
      && |b| >= 15 + n + t && b[1..9] == LE(h.roundId, 8) && b[9..13] == LE(h.tickRate, 4)
      && b[13] == n % 0x100 && b[14..14 + n] == h.serverSeed
      && b[14 + n] == t % 0x100 && b[15 + n..15 + n + t] == h.serverSeedHash
      && b[15 + n + t..] == rest
  {
    var n := |h.serverSeed|;
    var hash := ShortBytes(h.serverSeedHash) + rest;
    RoundOf(h, rest);
    Next(b, 1, LE(h.roundId, 8), LE(h.tickRate, 4) + (ShortBytes(h.serverSeed) + hash));
    Next(b, 9, LE(h.tickRate, 4), ShortBytes(h.serverSeed) + hash);
    NextShort(b, 13, h.serverSeed, hash);
    NextShort(b, 14 + n, h.serverSeedHash, rest);
  }

  lemma MarbleParts(b: Bytes, id: Bytes, rgba: Bytes, name: Bytes, cseed: Bytes, slot: Bytes)
    requires |id| == |rgba| == |slot| == 4
    requires b == id + (rgba + (ShortBytes(name) + (ShortBytes(cseed) + slot)))
    ensures var n, c := |name|, |cseed|;
      && |b| == 14 + n + c && b[..4] == id && b[4..8] == rgba && b[8] == n % 0x100 && b[9..9 + n] == name
      && b[9 + n] == c % 0x100 && b[10 + n..10 + n + c] == cseed && b[10 + n + c..] == slot
  {
    var n := |name|;
    Next(b, 0, id, rgba + (ShortBytes(name) + (ShortBytes(cseed) + slot)));
    Next(b, 4, rgba, ShortBytes(name) + (ShortBytes(cseed) + slot));
    NextShort(b, 8, name, ShortBytes(cseed) + slot);
    NextShort(b, 9 + n, cseed, slot);
  }

  /** A marble of the header, for a name of n and a client seed of c bytes. */
  lemma MarbleLayout(m: Marble)
    ensures var b := MarbleBytes(m); var n, c := |m.name|, |m.clientSeed|;
      && |b| == 14 + n + c && b[..4] == LE(m.id % 0x1_0000_0000, 4) && b[4..8] == LE(m.rgba % 0x1_0000_0000, 4)
      && b[8] == n % 0x100 && b[9..9 + n] == m.name
      && b[9 + n] == c % 0x100 && b[10 + n..10 + n + c] == m.clientSeed
      && b[10 + n + c..] == LE(m.slot, 4)
  {
    MarbleParts(MarbleBytes(m), LE(m.id % TWO_32, 4), LE(m.rgba % TWO_32, 4), m.name, m.clientSeed, LE(m.slot, 4));
  }

  lemma PoseLayout(p: Pose)
    ensures var b := PoseBytes(p);
      && |b| == 28 && b[..4] == LE(p.px, 4) && b[4..8] == LE(p.py, 4) && b[8..12] == LE(p.pz, 4)
      && b[12..16] == LE(p.qx, 4) && b[16..20] == LE(p.qy, 4) && b[20..24] == LE(p.qz, 4)
      && b[24..28] == LE(p.qw, 4)
  {
    var b := PoseBytes(p);
    var t6 := LE(p.qz, 4) + LE(p.qw, 4);
    var t5 := LE(p.qy, 4) + t6;
    var t4 := LE(p.qx, 4) + t5;
    var t3 := LE(p.pz, 4) + t4;
    var t2 := LE(p.py, 4) + t3;
    Next(b, 0, LE(p.px, 4), t2);
    Next(b, 4, LE(p.py, 4), t3);
    Next(b, 8, LE(p.pz, 4), t4);
    Next(b, 12, LE(p.qx, 4), t5);
    Next(b, 16, LE(p.qy, 4), t6);
    Next(b, 20, LE(p.qz, 4), LE(p.qw, 4));
    assert b[24..28] == b[24..];
  }

  /** A frame: tick, flags, then 28 bytes for each state. */
  lemma FrameLayout(f: Frame, i: nat)
    requires i < |f.states|
    ensures var b := FrameBytes(f);
      && |b| == 5 + 28 * |f.states| && b[..4] == LE(f.tick % 0x1_0000_0000, 4) && b[4] == f.flags % 0x100
      && b[5 + 28 * i..33 + 28 * i] == PoseBytes(f.states[i])
  {
    var b := FrameBytes(f);
    var list := WriteList(PoseBytes, f.states);
    Next(b, 0, LE(f.tick % TWO_32, 4), LE(f.flags % 0x100, 1) + list);
    NextByte(b, 4, f.flags % 0x100, list);
    PoseAt(f.states, i);
    Behind(b, 5, list, 28 * i);
  }

  lemma Behind(b: Bytes, k: nat, list: Bytes, at: nat)
    requires k <= |b| && b[k..] == list && at + 28 <= |list|
    ensures b[k + at..k + at + 28] == list[at..at + 28]
  {
  }

  lemma {:induction false} PoseAt(ps: seq<Pose>, i: nat)
    requires i < |ps|
    ensures |WriteList(PoseBytes, ps)| == 28 * |ps|
    ensures WriteList(PoseBytes, ps)[28 * i..28 * i + 28] == PoseBytes(ps[i])
  {
    var rest := WriteList(PoseBytes, ps[1..]);
    assert WriteList(PoseBytes, ps) == PoseBytes(ps[0]) + rest;
    if |ps| == 1 {
      assert rest == [];
    } else {
      PoseAt(ps[1..], if i == 0 then 0 else i - 1);
      if i > 0 {
        assert (PoseBytes(ps[0]) + rest)[28 * i..28 * i + 28] == rest[28 * (i - 1)..28 * (i - 1) + 28];
      }
    }
  }

  lemma ThreeParts(b: Bytes, head: Bytes, count: Bytes, list: Bytes)
    requires b == head + (count + list)
    ensures var k := |head|;
      && |b| >= k + |count| && b[..k] == head && b[k..k + |count|] == count && b[k + |count|..] == list
  {
    Next(b, 0, head, count + list);
    Next(b, |head|, count, list);
  }

  /** A file: the header, the number of frames, the frames. */
  lemma FileLayout(r: Replay)
    ensures var b := FileBytes(r); var k := |HeaderBytes(r.header)|;
      && |b| >= k + 4 && b[..k] == HeaderBytes(r.header) && b[k..k + 4] == LE(|r.frames|, 4)
      && b[k + 4..] == WriteList(FrameBytes, r.frames)
  {
    ThreeParts(FileBytes(r), HeaderBytes(r.header), LE(|r.frames|, 4), WriteList(FrameBytes, r.frames));
  }

  // ---------------------------------------------------------------------------
  // Reading: each reader returns what it read and the bytes behind it
  // ---------------------------------------------------------------------------

  function GetWord(s: Bytes, k: nat): Option<(nat, Bytes)> {
    if |s| < k then None else Some((FromLE(s[..k]), s[k..]))
  }

  function GetData(s: Bytes, n: nat): Option<(Bytes, Bytes)> {
    if |s| < n then None else Some((s[..n], s[n..]))
  }

  function GetShort(s: Bytes): Option<(Bytes, Bytes)> {
    match GetWord(s, 1)
    case None => None
    case Some((n, s)) => GetData(s, n)
  }

  function GetUint32(s: Bytes): Option<(Uint32, Bytes)> {
    match GetWord(s, 4)
    case None => None
    case Some((n, rest)) =>
      LEInverse(s[..4]);
      Widths();
      Some((n, rest))
  }

  function GetUint64(s: Bytes): Option<(Uint64, Bytes)> {
    match GetWord(s, 8)
    case None => None
    case Some((n, rest)) =>
      LEInverse(s[..8]);
      Widths();
      Some((n, rest))
  }

  function ReadMarble(s: Bytes): Option<(Marble, Bytes)> {
    match GetUint32(s) case None => None case Some((id, s)) =>
    match GetUint32(s) case None => None case Some((rgba, s)) =>
    match GetShort(s) case None => None case Some((name, s)) =>
    match GetShort(s) case None => None case Some((cseed, s)) =>
    match GetUint32(s) case None => None case Some((slot, s)) =>
      Some((Marble(id, rgba, name, cseed, slot), s))
  }

  function ReadPose(s: Bytes): Option<(Pose, Bytes)> {
    match GetUint32(s) case None => None case Some((px, s)) =>
    match GetUint32(s) case None => None case Some((py, s)) =>
    match GetUint32(s) case None => None case Some((pz, s)) =>
    match GetUint32(s) case None => None case Some((qx, s)) =>
    match GetUint32(s) case None => None case Some((qy, s)) =>
    match GetUint32(s) case None => None case Some((qz, s)) =>
    match GetUint32(s) case None => None case Some((qw, s)) =>
      Some((Pose(px, py, pz, qx, qy, qz, qw), s))
  }

  function ReadFrame(s: Bytes, marbles: nat): Option<(Frame, Bytes)> {
    match GetUint32(s) case None => None case Some((tick, s)) =>
    match GetWord(s, 1) case None => None case Some((flags, s)) =>
    match ReadList(ReadPose, s, marbles) case None => None case Some((states, s)) =>
      Some((Frame(tick, flags, states), s))
  }

  /** The frame reader once the header is known. */
  function FrameReader(marbles: nat): Bytes -> Option<(Frame, Bytes)> { (s: Bytes) => ReadFrame(s, marbles) }

  function ReadRound(s: Bytes): Option<((Uint64, Uint32, Bytes, Bytes), Bytes)> {
    match GetUint64(s) case None => None case Some((roundId, s)) =>
    match GetUint32(s) case None => None case Some((tickRate, s)) =>
    match GetShort(s) case None => None case Some((seed, s)) =>
    match GetShort(s) case None => None case Some((hash, s)) =>
      Some(((roundId, tickRate, seed, hash), s))
  }

  function ReadField(s: Bytes): Option<((Uint32, nat, seq<Marble>), Bytes)> {
    match GetUint32(s) case None => None case Some((slots, s)) =>
    match GetWord(s, 1) case None => None case Some((track, s)) =>
    match GetUint32(s) case None => None case Some((n, s)) =>
    match ReadList(ReadMarble, s, n) case None => None case Some((ms, s)) =>
      Some(((slots, track, ms), s))
  }

  /** Only version 3 is accepted. */
  function ReadHeader(s: Bytes): Option<(Header, Bytes)> {
    match GetWord(s, 1) case None => None case Some((version, s)) =>
    if version != PROTOCOL_VERSION then None else
    match ReadRound(s) case None => None case Some((a, s)) =>
    match ReadField(s) case None => None case Some((b, s)) =>
      Some((Header(a.0, a.1, a.2, a.3, b.0, b.1, b.2), s))
  }

  /** read_bytes: header, frame count, frames; whatever follows is ignored. */
  function ReadPrefix(s: Bytes): Option<(Replay, Bytes)> {
    match ReadHeader(s) case None => None case Some((h, s)) =>
    match GetUint32(s) case None => None case Some((n, s)) =>
    match ReadList(FrameReader(|h.marbles|), s, n) case None => None case Some((fs, s)) =>
      Some((Replay(h, fs), s))
  }

  function ReadBytes(s: Bytes): Option<Replay> {
    match ReadPrefix(s) case None => None case Some((r, _)) => Some(r)
  }

  // ---------------------------------------------------------------------------
  // What survives
  // ---------------------------------------------------------------------------

  function NormalMarble(m: Marble): Marble { m.(id := m.id % TWO_32, rgba := m.rgba % TWO_32) }

  function NormalHeader(h: Header): Header {
    h.(trackId := h.trackId % 0x100, marbles := Map(NormalMarble, h.marbles))
  }

  function NormalFrame(f: Frame): Frame { f.(tick := f.tick % TWO_32, flags := f.flags % 0x100) }

  /** A replay with its engine integers cut to the width of their fields. */
  function Normalize(r: Replay): Replay {
    Replay(NormalHeader(r.header), Map(NormalFrame, r.frames))
  }

  predicate FitsMarble(m: Marble) { |m.name| < 0x100 && |m.clientSeed| < 0x100 }

  ghost predicate FitsHeader(h: Header) {
    |h.serverSeed| < 0x100 && |h.serverSeedHash| < 0x100 && |h.marbles| < TWO_32 && All(FitsMarble, h.marbles)
  }

  function HasStates(marbles: nat): Frame -> bool { (f: Frame) => |f.states| == marbles }

  /** Every length fits its field, and every frame has a state for each marble of the header. */
  ghost predicate WellSized(r: Replay) {
    FitsHeader(r.header) && |r.frames| < TWO_32 && All(HasStates(|r.header.marbles|), r.frames)
  }

  // ---------------------------------------------------------------------------
  // Reading back what was written
  // ---------------------------------------------------------------------------

  lemma WordBack(n: nat, k: nat, rest: Bytes)
    requires n < Pow256(k)
    ensures GetWord(LE(n, k) + rest, k) == Some((n, rest))
  {
    LERoundTrip(n, k);
    ModIs(n, Pow256(k), 0, n);
  }

  lemma Uint32Back(n: Uint32, rest: Bytes)
    ensures GetUint32(LE(n, 4) + rest) == Some((n, rest))
  {
    Widths();
    WordBack(n, 4, rest);
  }

  lemma Uint64Back(n: Uint64, rest: Bytes)
    ensures GetUint64(LE(n, 8) + rest) == Some((n, rest))
  {
    Widths();
    WordBack(n, 8, rest);
  }

  lemma ByteBack(n: nat, rest: Bytes)
    requires n < 0x100
    ensures GetWord(LE(n, 1) + rest, 1) == Some((n, rest))
  {
    Widths();
    WordBack(n, 1, rest);
  }

  lemma ShortBack(b: Bytes, rest: Bytes)
    requires |b| < 0x100
    ensures GetShort(ShortBytes(b) + rest) == Some((b, rest))
  {
    Assoc(LE(|b|, 1), b, rest);
    ByteBack(|b|, b + rest);
  }

  lemma MarbleBack(m: Marble, rest: Bytes)
    requires FitsMarble(m)
    ensures ReadMarble(MarbleBytes(m) + rest) == Some((NormalMarble(m), rest))
  {
    var s4 := LE(m.slot, 4) + rest;
    var s3 := ShortBytes(m.clientSeed) + s4;
    var s2 := ShortBytes(m.name) + s3;
    var s1 := LE(m.rgba % TWO_32, 4) + s2;
    assert MarbleBytes(m) + rest == LE(m.id % TWO_32, 4) + s1;
    Uint32Back(m.id % TWO_32, s1);
    Uint32Back(m.rgba % TWO_32, s2);
    ShortBack(m.name, s3);
    ShortBack(m.clientSeed, s4);
    Uint32Back(m.slot, rest);
  }

  lemma MarblesReadBack()
    ensures ReadsBack(MarbleBytes, ReadMarble, NormalMarble, FitsMarble)
  {
    forall m: Marble, rest: Bytes | FitsMarble(m)
      ensures ReadMarble(MarbleBytes(m) + rest) == Some((NormalMarble(m), rest))
    {
      MarbleBack(m, rest);
    }
  }

  lemma RoundBack(h: Header, rest: Bytes)
    requires FitsHeader(h)
    ensures ReadRound(RoundBytes(h) + rest) == Some(((h.roundId, h.tickRate, h.serverSeed, h.serverSeedHash), rest))
  {
    var s3 := ShortBytes(h.serverSeedHash) + rest;
    var s2 := ShortBytes(h.serverSeed) + s3;
    var s1 := LE(h.tickRate, 4) + s2;
    assert RoundBytes(h) + rest == LE(h.roundId, 8) + s1;
    Uint64Back(h.roundId, s1);
    Uint32Back(h.tickRate, s2);
    ShortBack(h.serverSeed, s3);
    ShortBack(h.serverSeedHash, rest);
  }

  lemma FieldBack(h: Header, rest: Bytes)
    requires FitsHeader(h)
    ensures ReadField(FieldBytes(h) + rest) == Some(((h.slotCount, h.trackId % 0x100, NormalHeader(h).marbles), rest))
  {
    var s3 := WriteList(MarbleBytes, h.marbles) + rest;
    var s2 := LE(|h.marbles|, 4) + s3;
    var s1 := LE(h.trackId % 0x100, 1) + s2;
    assert FieldBytes(h) + rest == LE(h.slotCount, 4) + s1;
    Uint32Back(h.slotCount, s1);
    ByteBack(h.trackId % 0x100, s2);
    Uint32Back(|h.marbles|, s3);
    MarblesReadBack();
    ListBack(MarbleBytes, ReadMarble, NormalMarble, FitsMarble, h.marbles, rest);
  }

  /** The header reader consumes exactly the bytes of the header. */
  lemma HeaderBack(h: Header, rest: Bytes)
    requires FitsHeader(h)
    ensures ReadHeader(HeaderBytes(h) + rest) == Some((NormalHeader(h), rest))
  {
    Assoc(LE(PROTOCOL_VERSION, 1), RoundBytes(h) + FieldBytes(h), rest);
    Assoc(RoundBytes(h), FieldBytes(h), rest);
    ByteBack(PROTOCOL_VERSION, RoundBytes(h) + (FieldBytes(h) + rest));
    RoundBack(h, FieldBytes(h) + rest);
    FieldBack(h, rest);
  }

  lemma PoseBack(p: Pose, rest: Bytes)
    ensures ReadPose(PoseBytes(p) + rest) == Some((p, rest))
  {
    var s6 := LE(p.qw, 4) + rest;
    var s5 := LE(p.qz, 4) + s6;
    var s4 := LE(p.qy, 4) + s5;
    var s3 := LE(p.qx, 4) + s4;
    var s2 := LE(p.pz, 4) + s3;
    var s1 := LE(p.py, 4) + s2;
    assert PoseBytes(p) + rest == LE(p.px, 4) + s1;
    Uint32Back(p.px, s1);
    Uint32Back(p.py, s2);
    Uint32Back(p.pz, s3);
    Uint32Back(p.qx, s4);
    Uint32Back(p.qy, s5);
    Uint32Back(p.qz, s6);
    Uint32Back(p.qw, rest);
  }

  function SamePose(p: Pose): Pose { p }

  predicate AnyPose(p: Pose) { true }

  lemma PosesReadBack()
    ensures ReadsBack(PoseBytes, ReadPose, SamePose, AnyPose)
  {
    forall p: Pose, rest: Bytes ensures ReadPose(PoseBytes(p) + rest) == Some((p, rest)) {
      PoseBack(p, rest);
    }
  }

  /** A frame is read back by a reader that knows the number of its states; exactly its bytes are consumed. */
  lemma FrameBack(f: Frame, rest: Bytes)
    ensures ReadFrame(FrameBytes(f) + rest, |f.states|) == Some((NormalFrame(f), rest))
  {
    var s2 := WriteList(PoseBytes, f.states) + rest;
    var s1 := LE(f.flags % 0x100, 1) + s2;
    assert FrameBytes(f) + rest == LE(f.tick % TWO_32, 4) + s1;
    Uint32Back(f.tick % TWO_32, s1);
    ByteBack(f.flags % 0x100, s2);
    PosesReadBack();
    ListBack(PoseBytes, ReadPose, SamePose, AnyPose, f.states, rest);
    assert Map(SamePose, f.states) == f.states;
  }

  lemma FramesReadBack(marbles: nat)
    ensures ReadsBack(FrameBytes, FrameReader(marbles), NormalFrame, HasStates(marbles))
  {
    forall f: Frame, rest: Bytes | HasStates(marbles)(f)
      ensures FrameReader(marbles)(FrameBytes(f) + rest) == Some((NormalFrame(f), rest))
    {
      FrameBack(f, rest);
    }
  }

  lemma FileBack(r: Replay, rest: Bytes)
    requires WellSized(r)
    ensures ReadPrefix(FileBytes(r) + rest) == Some((Normalize(r), rest))
  {
    var s2 := WriteList(FrameBytes, r.frames) + rest;
    var s1 := LE(|r.frames|, 4) + s2;
    Assoc(HeaderBytes(r.header), LE(|r.frames|, 4) + WriteList(FrameBytes, r.frames), rest);
    Assoc(LE(|r.frames|, 4), WriteList(FrameBytes, r.frames), rest);
    HeaderBack(r.header, s1);
    Uint32Back(|r.frames|, s2);
    FramesReadBack(|r.header.marbles|);
    ListBack(FrameBytes, FrameReader(|r.header.marbles|), NormalFrame, HasStates(|r.header.marbles|), r.frames, rest);
  }

  // ---------------------------------------------------------------------------
  // Whatever is accepted was written
  // ---------------------------------------------------------------------------

  lemma WordFrom(s: Bytes, k: nat)
    requires |s| >= k
    ensures s == LE(FromLE(s[..k]), k) + s[k..] && FromLE(s[..k]) < Pow256(k)
  {
    LEInverse(s[..k]);
  }

  lemma Uint32From(s: Bytes)
    requires GetUint32(s).Some?
    ensures s == LE(GetUint32(s).value.0, 4) + GetUint32(s).value.1
  {
    WordFrom(s, 4);
  }

  lemma ByteFrom(s: Bytes)
    requires GetWord(s, 1).Some?
    ensures var (n, rest) := GetWord(s, 1).value; s == LE(n, 1) + rest && n < 0x100 && n % 0x100 == n
  {
    WordFrom(s, 1);
    Widths();
    ModIs(GetWord(s, 1).value.0, 0x100, 0, GetWord(s, 1).value.0);
  }

  lemma ShortFrom(s: Bytes)
    requires GetShort(s).Some?
    ensures s == ShortBytes(GetShort(s).value.0) + GetShort(s).value.1 && |GetShort(s).value.0| < 0x100
  {
    var n := FromLE(s[..1]);
    ByteFrom(s);
    assert s[1..] == s[1..][..n] + s[1..][n..];
    Assoc(LE(n, 1), s[1..][..n], s[1..][n..]);
  }

  /** A marble as read. */
  lemma ReadMarbleParts(s: Bytes)
    requires ReadMarble(s).Some?
    ensures var (m, rest) := ReadMarble(s).value;
      && 0 <= m.id < TWO_32 && 0 <= m.rgba < TWO_32 && FitsMarble(m)
      && s == LE(m.id, 4) + (LE(m.rgba, 4) + (ShortBytes(m.name) + (ShortBytes(m.clientSeed) + (LE(m.slot, 4) + rest))))
  {
    var s1 := GetUint32(s).value.1;
    var s2 := GetUint32(s1).value.1;
    var s3 := GetShort(s2).value.1;
    var s4 := GetShort(s3).value.1;
    Uint32From(s);
    Uint32From(s1);
    ShortFrom(s2);
    ShortFrom(s3);
    Uint32From(s4);
  }

  lemma FiveParts(a: Bytes, b: Bytes, c: Bytes, d: Bytes, e: Bytes, rest: Bytes)
    ensures a + (b + (c + (d + (e + rest)))) == (a + (b + (c + (d + e)))) + rest
  {
    Assoc(d, e, rest);
    Assoc(c, d + e, rest);
    Assoc(b, c + (d + e), rest);
    Assoc(a, b + (c + (d + e)), rest);
  }

  lemma MarbleFrom(s: Bytes)
    requires ReadMarble(s).Some?
    ensures var (m, rest) := ReadMarble(s).value;
      s == MarbleBytes(m) + rest && FitsMarble(m) && NormalMarble(m) == m
  {
    ReadMarbleParts(s);
    var (m, rest) := ReadMarble(s).value;
    ModIs(m.id, TWO_32, 0, m.id);
    ModIs(m.rgba, TWO_32, 0, m.rgba);
    FiveParts(LE(m.id, 4), LE(m.rgba, 4), ShortBytes(m.name), ShortBytes(m.clientSeed), LE(m.slot, 4), rest);
  }

  lemma MarblesReadOnlyWritten()
    ensures ReadsOnlyWritten(MarbleBytes, ReadMarble, NormalMarble, FitsMarble)
  {
    forall s: Bytes | ReadMarble(s).Some?
      ensures var (m, rest) := ReadMarble(s).value;
        s == MarbleBytes(m) + rest && FitsMarble(m) && NormalMarble(m) == m
    {
      MarbleFrom(s);
    }
  }

  lemma PoseFrom(s: Bytes)
    requires ReadPose(s).Some?
    ensures s == PoseBytes(ReadPose(s).value.0) + ReadPose(s).value.1
  {
    var (p, rest) := ReadPose(s).value;
    var s1 := GetUint32(s).value.1;
    var s2 := GetUint32(s1).value.1;
    var s3 := GetUint32(s2).value.1;
    var s4 := GetUint32(s3).value.1;
    var s5 := GetUint32(s4).value.1;
    var s6 := GetUint32(s5).value.1;
    Uint32From(s);
    Uint32From(s1);
    Uint32From(s2);
    Uint32From(s3);
    Uint32From(s4);
    Uint32From(s5);
    Uint32From(s6);
    FiveParts(LE(p.pz, 4), LE(p.qx, 4), LE(p.qy, 4), LE(p.qz, 4), LE(p.qw, 4), rest);
    var tail := LE(p.pz, 4) + (LE(p.qx, 4) + (LE(p.qy, 4) + (LE(p.qz, 4) + LE(p.qw, 4))));
    Assoc(LE(p.py, 4), tail, rest);
    Assoc(LE(p.px, 4), LE(p.py, 4) + tail, rest);
  }

  lemma PosesReadOnlyWritten()
    ensures ReadsOnlyWritten(PoseBytes, ReadPose, SamePose, AnyPose)
  {
    forall s: Bytes | ReadPose(s).Some? ensures s == PoseBytes(ReadPose(s).value.0) + ReadPose(s).value.1 {
      PoseFrom(s);
    }
  }

  lemma FrameFrom(s: Bytes, marbles: nat)
    requires ReadFrame(s, marbles).Some?
    ensures var (f, rest) := ReadFrame(s, marbles).value;
      s == FrameBytes(f) + rest && |f.states| == marbles && NormalFrame(f) == f
  {
    var (f, rest) := ReadFrame(s, marbles).value;
    var s1 := GetUint32(s).value.1;
    var s2 := GetWord(s1, 1).value.1;
    FrameOfParts(s, s1, s2, rest, f, marbles);
  }

  lemma FrameOfParts(s: Bytes, s1: Bytes, s2: Bytes, rest: Bytes, f: Frame, marbles: nat)
    requires f.tick < TWO_32 && GetUint32(s) == Some((f.tick, s1)) && GetWord(s1, 1) == Some((f.flags, s2))
    requires ReadList(ReadPose, s2, marbles) == Some((f.states, rest))
    ensures s == FrameBytes(f) + rest && |f.states| == marbles && NormalFrame(f) == f
  {
    TickAndFlagsFrom(s, s1, s2, f.tick, f.flags);
    PosesFrom(s2, marbles, f.states, rest);
    FrameJoined(s, s1, s2, rest, f);
  }

  lemma TickAndFlagsFrom(s: Bytes, s1: Bytes, s2: Bytes, tick: nat, flags: int)
    requires tick < TWO_32 && GetUint32(s) == Some((tick, s1)) && GetWord(s1, 1) == Some((flags, s2))
    ensures 0 <= flags < 0x100 && s == LE(tick, 4) + s1 && s1 == LE(flags, 1) + s2
  {
    Uint32From(s);
    ByteFrom(s1);
  }

  lemma PosesFrom(s: Bytes, n: nat, poses: seq<Pose>, rest: Bytes)
    requires ReadList(ReadPose, s, n) == Some((poses, rest))
    ensures s == WriteList(PoseBytes, poses) + rest && |poses| == n
  {
    PosesReadOnlyWritten();
    ListFrom(PoseBytes, ReadPose, SamePose, AnyPose, s, n);
  }

  lemma FrameJoined(s: Bytes, s1: Bytes, s2: Bytes, rest: Bytes, f: Frame)
    requires 0 <= f.flags < 0x100 && s == LE(f.tick, 4) + s1 && s1 == LE(f.flags, 1) + s2
    requires f.tick < TWO_32 && s2 == WriteList(PoseBytes, f.states) + rest
    ensures s == FrameBytes(f) + rest && NormalFrame(f) == f
  {
    var list := WriteList(PoseBytes, f.states);
    assert f.tick % TWO_32 == f.tick && f.flags % 0x100 == f.flags;
    assert FrameBytes(f) == LE(f.tick, 4) + (LE(f.flags, 1) + list);
    ThreeJoined(LE(f.tick, 4), LE(f.flags, 1), list, rest);
  }

  lemma ThreeJoined(a: Bytes, b: Bytes, c: Bytes, rest: Bytes)
    ensures a + (b + (c + rest)) == (a + (b + c)) + rest
  {
    Assoc(b, c, rest);
    Assoc(a, b + c, rest);
  }

  lemma FramesReadOnlyWritten(marbles: nat)
    ensures ReadsOnlyWritten(FrameBytes, FrameReader(marbles), NormalFrame, HasStates(marbles))
  {
    forall s: Bytes | FrameReader(marbles)(s).Some?
      ensures var (f, rest) := FrameReader(marbles)(s).value;
        s == FrameBytes(f) + rest && HasStates(marbles)(f) && NormalFrame(f) == f
    {
      FrameFrom(s, marbles);
    }
  }

  lemma RoundFrom(s: Bytes)
    requires ReadRound(s).Some?
    ensures var (a, rest) := ReadRound(s).value;
      s == LE(a.0, 8) + (LE(a.1, 4) + (ShortBytes(a.2) + (ShortBytes(a.3) + rest))) && |a.2| < 0x100 && |a.3| < 0x100
  {
    var s1 := GetUint64(s).value.1;
    var s2 := GetUint32(s1).value.1;
    var s3 := GetShort(s2).value.1;
    WordFrom(s, 8);
    Uint32From(s1);
    ShortFrom(s2);
    ShortFrom(s3);
  }

  lemma RoundOf(h: Header, rest: Bytes)
    ensures RoundBytes(h) + rest ==
      LE(h.roundId, 8) + (LE(h.tickRate, 4) + (ShortBytes(h.serverSeed) + (ShortBytes(h.serverSeedHash) + rest)))
  {
    Assoc(ShortBytes(h.serverSeed), ShortBytes(h.serverSeedHash), rest);
    Assoc(LE(h.tickRate, 4), ShortBytes(h.serverSeed) + ShortBytes(h.serverSeedHash), rest);
    Assoc(LE(h.roundId, 8), LE(h.tickRate, 4) + (ShortBytes(h.serverSeed) + ShortBytes(h.serverSeedHash)), rest);
  }

  lemma FieldFrom(s: Bytes)
    requires ReadField(s).Some?
    ensures var (b, rest) := ReadField(s).value;
      && s == LE(b.0, 4) + (LE(b.1, 1) + (LE(|b.2|, 4) + (WriteList(MarbleBytes, b.2) + rest)))
      && b.1 % 0x100 == b.1 && |b.2| < TWO_32 && All(FitsMarble, b.2) && Map(NormalMarble, b.2) == b.2
  {
    var s1 := GetUint32(s).value.1;
    var s2 := GetWord(s1, 1).value.1;
    var (n, s3) := GetUint32(s2).value;
    Uint32From(s);
    ByteFrom(s1);
    Uint32From(s2);
    MarblesReadOnlyWritten();
    ListFrom(MarbleBytes, ReadMarble, NormalMarble, FitsMarble, s3, n);
  }

  lemma FieldOf(h: Header, rest: Bytes)
    ensures FieldBytes(h) + rest ==
      LE(h.slotCount, 4)
      + (LE(h.trackId % 0x100, 1) + (LE(|h.marbles|, 4) + (WriteList(MarbleBytes, h.marbles) + rest)))
  {
    var ms := WriteList(MarbleBytes, h.marbles);
    Assoc(LE(|h.marbles|, 4), ms, rest);
    Assoc(LE(h.trackId % 0x100, 1), LE(|h.marbles|, 4) + ms, rest);
    Assoc(LE(h.slotCount, 4), LE(h.trackId % 0x100, 1) + (LE(|h.marbles|, 4) + ms), rest);
  }

  lemma HeaderFrom(s: Bytes)
    requires ReadHeader(s).Some?
    ensures var (h, rest) := ReadHeader(s).value;
      s == HeaderBytes(h) + rest && FitsHeader(h) && NormalHeader(h) == h
  {
    var (h, rest) := ReadHeader(s).value;
    var s1 := GetWord(s, 1).value.1;
    var s2 := ReadRound(s1).value.1;
    ByteFrom(s);
    RoundFrom(s1);
    FieldFrom(s2);
    RoundOf(h, s2);
    FieldOf(h, rest);
    Assoc(RoundBytes(h), FieldBytes(h), rest);
    Assoc(LE(PROTOCOL_VERSION, 1), RoundBytes(h) + FieldBytes(h), rest);
  }

  /** Any accepted input is the encoding of the replay it is read as, followed by ignored bytes. */
  lemma FileFrom(s: Bytes)
    requires ReadPrefix(s).Some?
    ensures var (r, rest) := ReadPrefix(s).value;
      s == FileBytes(r) + rest && WellSized(r) && Normalize(r) == r
  {
    var (r, rest) := ReadPrefix(s).value;
    var s1 := ReadHeader(s).value.1;
    var (n, s2) := GetUint32(s1).value;
    var marbles := |r.header.marbles|;
    HeaderFrom(s);
    Uint32From(s1);
    FramesReadOnlyWritten(marbles);
    ListFrom(FrameBytes, FrameReader(marbles), NormalFrame, HasStates(marbles), s2, n);
    Assoc(LE(n, 4), WriteList(FrameBytes, r.frames), rest);
    Assoc(HeaderBytes(r.header), LE(n, 4) + WriteList(FrameBytes, r.frames), rest);
  }

  // ---------------------------------------------------------------------------
  // Main results
  // ---------------------------------------------------------------------------

  lemma NormalKeepsSizes(r: Replay)
    ensures WellSized(Normalize(r)) <==> WellSized(r)
  {
    var n := Normalize(r);
    assert forall i | 0 <= i < |r.header.marbles| ::
        FitsMarble(n.header.marbles[i]) <==> FitsMarble(r.header.marbles[i]);
    assert forall i | 0 <= i < |r.frames| :: n.frames[i].states == r.frames[i].states;
  }

  /**
   A written replay is read back as itself -- ids and ticks cut to 32 bits, track and flags to 8 -- if and only if
   its names, seeds and hash are at most 255 bytes, its counts fit in 32 bits, and every frame has exactly
   one state per marble of the header.
   */
  lemma RoundTripIff(r: Replay)
    ensures ReadBytes(FileBytes(r)) == Some(Normalize(r)) <==> WellSized(r)
  {
    if WellSized(r) {
      FileBack(r, []);
      assert FileBytes(r) + [] == FileBytes(r);
    } else if ReadBytes(FileBytes(r)) == Some(Normalize(r)) {
      ReadBackIsSized(r);
    }
  }

  lemma ReadBackIsSized(r: Replay)
    requires ReadBytes(FileBytes(r)) == Some(Normalize(r))
    ensures WellSized(r)
  {
    FileFrom(FileBytes(r));
    NormalKeepsSizes(r);
  }

  /** Different well-sized replays have different files. */
  lemma FilesAreUnambiguous(a: Replay, b: Replay)
    requires WellSized(a) && WellSized(b) && FileBytes(a) == FileBytes(b)
    ensures Normalize(a) == Normalize(b)
  {
    RoundTripIff(a);
    RoundTripIff(b);
  }

  /** One byte too long a name is enough to lose the replay. */
  lemma LongNameIsLost(name: Bytes)
    requires |name| == 0x100
    ensures var r := Replay(Header(0, 60, [], [], 24, 0, [Marble(0, 0, name, [], 0)]), []);
      ReadBytes(FileBytes(r)) != Some(Normalize(r))
  {
    var r := Replay(Header(0, 60, [], [], 24, 0, [Marble(0, 0, name, [], 0)]), []);
    assert !FitsMarble(r.header.marbles[0]);
    RoundTripIff(r);
  }
}
