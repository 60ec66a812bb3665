/**
 The writer and the reader of replay files (game/recorder/replay_writer.gd,
 game/playback/replay_reader.gd) as programs over a byte buffer with a cursor.
 */
module ReplayCodec {
  import opened Common
  import opened Words
  import opened Lists
  import opened ReplayFormat

  /** The engine's little-endian byte buffer: `put` appends, `get` moves the cursor.  A short read yields None. */
  class StreamPeerBuffer {
    var data: Bytes
    var cursor: nat

    ghost predicate Valid()
      reads this
    {
      cursor <= |data|
    }

    ghost function Unread(): Bytes
      requires Valid()
      reads this
    {
      data[cursor..]
    }

    constructor (bytes: Bytes)
      ensures Valid() && data == bytes && cursor == 0 && Unread() == bytes
    {
      data, cursor := bytes, 0;
    }

    /** put_u8, put_u32 and put_u64: the k low bytes of a number. */
    method PutWord(n: nat, k: nat)
      modifies this`data
      ensures data == old(data) + LE(n, k)
    {
      var rest := n;
      for i := 0 to k
        invariant data + LE(rest, k - i) == old(data) + LE(n, k)
      {
        assert data + LE(rest, k - i) == data + [rest % 0x100] + LE(rest / 0x100, k - i - 1);
        data := data + [rest % 0x100];
        rest := rest / 0x100;
      }
    }

    method PutData(b: Bytes)
      modifies this`data
      ensures data == old(data) + b
    {
      data := data + b;
    }

    /** A length byte and the bytes. */
    method PutShort(b: Bytes)
      modifies this`data
      ensures data == old(data) + ShortBytes(b)
    {
      PutWord(|b|, 1);
      PutData(b);
      Assoc(old(data), LE(|b|, 1), b);
    }

    method GetWord(k: nat) returns (r: Option<nat>)
      requires Valid()
      modifies this`cursor
      ensures Valid()
      ensures match ReplayFormat.GetWord(old(Unread()), k)
        case None => r == None
        case Some((n, rest)) => r == Some(n) && Unread() == rest
    {
      if |data| - cursor < k {
        return None;
      }
      r := Some(FromLE(data[cursor..cursor + k]));
      cursor := cursor + k;
      assert old(Unread())[..k] == data[old(cursor)..cursor];
    }

    method GetData(n: nat) returns (r: Option<Bytes>)
      requires Valid()
      modifies this`cursor
      ensures Valid()
      ensures match ReplayFormat.GetData(old(Unread()), n)
        case None => r == None
        case Some((b, rest)) => r == Some(b) && Unread() == rest
    {
      if |data| - cursor < n {
        return None;
      }
      r := Some(data[cursor..cursor + n]);
      cursor := cursor + n;
      assert old(Unread())[..n] == data[old(cursor)..cursor] && old(Unread())[n..] == Unread();
    }

    method GetUint32() returns (r: Option<Uint32>)
      requires Valid()
      modifies this`cursor
      ensures Valid()
      ensures match ReplayFormat.GetUint32(old(Unread()))
        case None => r == None
        case Some((n, rest)) => r == Some(n) && Unread() == rest
    {
      var n := GetWord(4);
      if n.None? {
        return None;
      }
      LEInverse(old(Unread())[..4]);
      Widths();
      return Some(n.value);
    }

    method GetUint64() returns (r: Option<Uint64>)
      requires Valid()
      modifies this`cursor
      ensures Valid()
      ensures match ReplayFormat.GetUint64(old(Unread()))
        case None => r == None
        case Some((n, rest)) => r == Some(n) && Unread() == rest
    {
      var n := GetWord(8);
      if n.None? {
        return None;
      }
      LEInverse(old(Unread())[..8]);
      Widths();
      return Some(n.value);
    }

    /** A length byte and as many bytes. */
    method GetShort() returns (r: Option<Bytes>)
      requires Valid()
      modifies this`cursor
      ensures Valid()
      ensures match ReplayFormat.GetShort(old(Unread()))
        case None => r == None
        case Some((b, rest)) => r == Some(b) && Unread() == rest
    {
      var n := GetWord(1);
      if n.None? {
        return None;
      }
      r := GetData(n.value);
    }
  }

  // ---------------------------------------------------------------------------
  // ReplayWriter
  // ---------------------------------------------------------------------------

  method PutMarble(b: StreamPeerBuffer, m: Marble)
    modifies b`data
    ensures b.data == old(b.data) + MarbleBytes(m)
  {
    b.PutWord(m.id % TWO_32, 4);
    b.PutWord(m.rgba % TWO_32, 4);
    b.PutShort(m.name);
    b.PutShort(m.clientSeed);
    b.PutWord(m.slot, 4);
    Parts5(old(b.data), LE(m.id % TWO_32, 4), LE(m.rgba % TWO_32, 4), ShortBytes(m.name), ShortBytes(m.clientSeed),
           LE(m.slot, 4));
  }

  method PutPose(b: StreamPeerBuffer, p: Pose)
    modifies b`data
    ensures b.data == old(b.data) + PoseBytes(p)
  {
    b.PutWord(p.px, 4);
    b.PutWord(p.py, 4);
    b.PutWord(p.pz, 4);
    b.PutWord(p.qx, 4);
    b.PutWord(p.qy, 4);
    b.PutWord(p.qz, 4);
    b.PutWord(p.qw, 4);
    Parts7(old(b.data), LE(p.px, 4), LE(p.py, 4), LE(p.pz, 4), LE(p.qx, 4), LE(p.qy, 4), LE(p.qz, 4), LE(p.qw, 4));
  }

  method PutRound(b: StreamPeerBuffer, h: Header)
    modifies b`data
    ensures b.data == old(b.data) + RoundBytes(h)
  {
    b.PutWord(h.roundId, 8);
    b.PutWord(h.tickRate, 4);
    b.PutShort(h.serverSeed);
    b.PutShort(h.serverSeedHash);
    Parts4(old(b.data), LE(h.roundId, 8), LE(h.tickRate, 4), ShortBytes(h.serverSeed), ShortBytes(h.serverSeedHash));
  }

  method PutMarbles(b: StreamPeerBuffer, ms: seq<Marble>)
    modifies b`data
    ensures b.data == old(b.data) + WriteList(MarbleBytes, ms)
  {
    for i := 0 to |ms|
      invariant b.data == old(b.data) + WriteList(MarbleBytes, ms[..i])
    {
      PutMarble(b, ms[i]);
      WriteListAppend(MarbleBytes, ms[..i], ms[i]);
      assert ms[..i + 1] == ms[..i] + [ms[i]];
      Assoc(old(b.data), WriteList(MarbleBytes, ms[..i]), MarbleBytes(ms[i]));
    }
    assert ms[..|ms|] == ms;
  }

  method PutField(b: StreamPeerBuffer, h: Header)
    modifies b`data
    ensures b.data == old(b.data) + FieldBytes(h)
  {
    b.PutWord(h.slotCount, 4);
    b.PutWord(h.trackId % 0x100, 1);
    b.PutWord(|h.marbles|, 4);
    PutMarbles(b, h.marbles);
    Parts4(old(b.data), LE(h.slotCount, 4), LE(h.trackId % 0x100, 1), LE(|h.marbles|, 4),
           WriteList(MarbleBytes, h.marbles));
  }

  /** encode_header. */
  method EncodeHeader(h: Header) returns (out: Bytes)
    ensures out == HeaderBytes(h)
  {
    var b := new StreamPeerBuffer([]);
    b.PutWord(3, 1);
    PutRound(b, h);
    PutField(b, h);
    Parts3([], LE(3, 1), RoundBytes(h), FieldBytes(h));
    return b.data;
  }

  method PutPoses(b: StreamPeerBuffer, ps: seq<Pose>)
    modifies b`data
    ensures b.data == old(b.data) + WriteList(PoseBytes, ps)
  {
    for i := 0 to |ps|
      invariant b.data == old(b.data) + WriteList(PoseBytes, ps[..i])
    {
      PutPose(b, ps[i]);
      WriteListAppend(PoseBytes, ps[..i], ps[i]);
      assert ps[..i + 1] == ps[..i] + [ps[i]];
      Assoc(old(b.data), WriteList(PoseBytes, ps[..i]), PoseBytes(ps[i]));
    }
    assert ps[..|ps|] == ps;
  }

  /** encode_frame. */
  method EncodeFrame(f: Frame) returns (out: Bytes)
    ensures out == FrameBytes(f)
  {
    var b := new StreamPeerBuffer([]);
    b.PutWord(f.tick % TWO_32, 4);
    b.PutWord(f.flags % 0x100, 1);
    PutPoses(b, f.states);
    Parts3([], LE(f.tick % TWO_32, 4), LE(f.flags % 0x100, 1), WriteList(PoseBytes, f.states));
    return b.data;
  }

  method PutFrames(b: StreamPeerBuffer, fs: seq<Frame>)
    modifies b`data
    ensures b.data == old(b.data) + WriteList(FrameBytes, fs)
  {
    for i := 0 to |fs|
      invariant b.data == old(b.data) + WriteList(FrameBytes, fs[..i])
    {
      var frame := EncodeFrame(fs[i]);
      b.PutData(frame);
      WriteListAppend(FrameBytes, fs[..i], fs[i]);
      assert fs[..i + 1] == fs[..i] + [fs[i]];
      Assoc(old(b.data), WriteList(FrameBytes, fs[..i]), FrameBytes(fs[i]));
    }
    assert fs[..|fs|] == fs;
  }

  /** _encode: the bytes of the whole file. */
  method Encode(r: Replay) returns (out: Bytes)
    ensures out == FileBytes(r)
  {
    var b := new StreamPeerBuffer([]);
    var header := EncodeHeader(r.header);
    b.PutData(header);
    b.PutWord(|r.frames|, 4);
    PutFrames(b, r.frames);
    Parts3([], HeaderBytes(r.header), LE(|r.frames|, 4), WriteList(FrameBytes, r.frames));
    return b.data;
  }

  // ---------------------------------------------------------------------------
  // ReplayReader
  // ---------------------------------------------------------------------------

  method GetMarble(b: StreamPeerBuffer) returns (r: Option<Marble>)
    requires b.Valid()
    modifies b`cursor
    ensures b.Valid()
    ensures match ReadMarble(old(b.Unread()))
      case None => r == None
      case Some((m, rest)) => r == Some(m) && b.Unread() == rest
  {
    var id := b.GetUint32();
    if id.None? { return None; }
    var rgba := b.GetUint32();
    if rgba.None? { return None; }
    var name := b.GetShort();
    if name.None? { return None; }
    var cseed := b.GetShort();
    if cseed.None? { return None; }
    var slot := b.GetUint32();
    if slot.None? { return None; }
    return Some(Marble(id.value, rgba.value, name.value, cseed.value, slot.value));
  }

  method GetPose(b: StreamPeerBuffer) returns (r: Option<Pose>)
    requires b.Valid()
    modifies b`cursor
    ensures b.Valid()
    ensures match ReadPose(old(b.Unread()))
      case None => r == None
      case Some((p, rest)) => r == Some(p) && b.Unread() == rest
  {
    var px := b.GetUint32();
    if px.None? { return None; }
    var py := b.GetUint32();
    if py.None? { return None; }
    var pz := b.GetUint32();
    if pz.None? { return None; }
    var qx := b.GetUint32();
    if qx.None? { return None; }
    var qy := b.GetUint32();
    if qy.None? { return None; }
    var qz := b.GetUint32();
    if qz.None? { return None; }
    var qw := b.GetUint32();
    if qw.None? { return None; }
    return Some(Pose(px.value, py.value, pz.value, qx.value, qy.value, qz.value, qw.value));
  }

  /** The marble loop of _read_header_into. */
  method GetMarbles(b: StreamPeerBuffer, n: nat) returns (r: Option<seq<Marble>>)
    requires b.Valid()
    modifies b`cursor
    ensures b.Valid()
    ensures match ReadList(ReadMarble, old(b.Unread()), n)
      case None => r == None
      case Some((ms, rest)) => r == Some(ms) && b.Unread() == rest
  {
    r := MarbleLoop(b, n, ReadMarble);
  }

  /** Here and below, `read` stands for the reader of one item. */
  method MarbleLoop(b: StreamPeerBuffer, n: nat, ghost read: Bytes -> Option<(Marble, Bytes)>)
    returns (r: Option<seq<Marble>>)
    requires b.Valid() && forall s: Bytes {:trigger ReadMarble(s)} :: ReadMarble(s) == read(s)
    modifies b`cursor
    ensures b.Valid()
    ensures match ReadList(read, old(b.Unread()), n)
      case None => r == None
      case Some((ms, rest)) => r == Some(ms) && b.Unread() == rest
  {
    var out := [];
    ghost var start := b.Unread();
    ReadingStarts(read, start, n);
    for i := 0 to n
      invariant b.Valid() && Reading(read, start, n, out, b.Unread(), n - i)
    {
      ReadingStep(read, start, n, out, b.Unread(), n - i);
      var m := GetMarble(b);
      if m.None? {
        return None;
      }
      out := out + [m.value];
    }
    ReadingEnds(read, start, n, out, b.Unread());
    return Some(out);
  }

  /** _read_header_into, up to the hash. */
  method GetRound(b: StreamPeerBuffer) returns (r: Option<(Uint64, Uint32, Bytes, Bytes)>)
    requires b.Valid()
    modifies b`cursor
    ensures b.Valid()
    ensures match ReadRound(old(b.Unread()))
      case None => r == None
      case Some((x, rest)) => r == Some(x) && b.Unread() == rest
  {
    var roundId := b.GetUint64();
    if roundId.None? { return None; }
    var tickRate := b.GetUint32();
    if tickRate.None? { return None; }
    var seed := b.GetShort();
    if seed.None? { return None; }
    var hash := b.GetShort();
    if hash.None? { return None; }
    return Some((roundId.value, tickRate.value, seed.value, hash.value));
  }

  /** _read_header_into, from the slot count on. */
  method GetField(b: StreamPeerBuffer) returns (r: Option<(Uint32, nat, seq<Marble>)>)
    requires b.Valid()
    modifies b`cursor
    ensures b.Valid()
    ensures match ReadField(old(b.Unread()))
      case None => r == None
      case Some((x, rest)) => r == Some(x) && b.Unread() == rest
  {
    var slots := b.GetUint32();
    if slots.None? { return None; }
    var track := b.GetWord(1);
    if track.None? { return None; }
    var count := b.GetUint32();
    if count.None? { return None; }
    var marbles := GetMarbles(b, count.value);
    if marbles.None? { return None; }
    return Some((slots.value, track.value, marbles.value));
  }

  /** _read_header_into. */
  method ReadHeaderInto(b: StreamPeerBuffer) returns (r: Option<Header>)
    requires b.Valid()
    modifies b`cursor
    ensures b.Valid()
    ensures match ReadHeader(old(b.Unread()))
      case None => r == None
      case Some((h, rest)) => r == Some(h) && b.Unread() == rest
  {
    var version := b.GetWord(1);
    if version.None? || version.value != 3 { return None; }
    var round := GetRound(b);
    if round.None? { return None; }
    var field := GetField(b);
    if field.None? { return None; }
    return Some(Header(round.value.0, round.value.1, round.value.2, round.value.3,
                       field.value.0, field.value.1, field.value.2));
  }

  /** The pose loop of _read_frame_into. */
  method PoseLoop(b: StreamPeerBuffer, n: nat, ghost read: Bytes -> Option<(Pose, Bytes)>)
    returns (r: Option<seq<Pose>>)
    requires b.Valid() && forall s: Bytes {:trigger ReadPose(s)} :: ReadPose(s) == read(s)
    modifies b`cursor
    ensures b.Valid()
    ensures match ReadList(read, old(b.Unread()), n)
      case None => r == None
      case Some((ps, rest)) => r == Some(ps) && b.Unread() == rest
  {
    var out := [];
    ghost var start := b.Unread();
    ReadingStarts(read, start, n);
    for i := 0 to n
      invariant b.Valid() && Reading(read, start, n, out, b.Unread(), n - i)
    {
      ReadingStep(read, start, n, out, b.Unread(), n - i);
      var p := GetPose(b);
      if p.None? {
        return None;
      }
      out := out + [p.value];
    }
    ReadingEnds(read, start, n, out, b.Unread());
    return Some(out);
  }

  /** _read_frame_into. */
  method ReadFrameInto(b: StreamPeerBuffer, marbles: nat) returns (r: Option<Frame>)
    requires b.Valid()
    modifies b`cursor
    ensures b.Valid()
    ensures match ReadFrame(old(b.Unread()), marbles)
      case None => r == None
      case Some((f, rest)) => r == Some(f) && b.Unread() == rest
  {
    var tick := b.GetUint32();
    if tick.None? { return None; }
    var flags := b.GetWord(1);
    if flags.None? { return None; }
    var states := PoseLoop(b, marbles, ReadPose);
    if states.None? { return None; }
    return Some(Frame(tick.value, flags.value, states.value));
  }

  /** The frame loop of read_bytes. */
  method GetFrames(b: StreamPeerBuffer, n: nat, marbles: nat) returns (r: Option<seq<Frame>>)
    requires b.Valid()
    modifies b`cursor
    ensures b.Valid()
    ensures match ReadList(FrameReader(marbles), old(b.Unread()), n)
      case None => r == None
      case Some((fs, rest)) => r == Some(fs) && b.Unread() == rest
  {
    r := FrameLoop(b, n, marbles, FrameReader(marbles));
  }

  method FrameLoop(b: StreamPeerBuffer, n: nat, marbles: nat, ghost read: Bytes -> Option<(Frame, Bytes)>)
    returns (r: Option<seq<Frame>>)
    requires b.Valid() && forall s: Bytes {:trigger ReadFrame(s, marbles)} :: ReadFrame(s, marbles) == read(s)
    modifies b`cursor
    ensures b.Valid()
    ensures match ReadList(read, old(b.Unread()), n)
      case None => r == None
      case Some((fs, rest)) => r == Some(fs) && b.Unread() == rest
  {
    var out := [];
    ghost var start := b.Unread();
    ReadingStarts(read, start, n);
    for i := 0 to n
      invariant b.Valid() && Reading(read, start, n, out, b.Unread(), n - i)
    {
      ReadingStep(read, start, n, out, b.Unread(), n - i);
      var f := ReadFrameInto(b, marbles);
      if f.None? {
        return None;
      }
      out := out + [f.value];
    }
    ReadingEnds(read, start, n, out, b.Unread());
    return Some(out);
  }

  /** read_bytes. */
  method Decode(bytes: Bytes) returns (r: Option<Replay>)
    ensures r == ReadBytes(bytes)
  {
    var b := new StreamPeerBuffer(bytes);
    var header := ReadHeaderInto(b);
    if header.None? { return None; }
    var count := b.GetUint32();
    if count.None? { return None; }
    var frames := GetFrames(b, count.value, |header.value.marbles|);
    if frames.None? { return None; }
    return Some(Replay(header.value, frames.value));
  }

  /** decode_header_bytes. */
  method DecodeHeader(bytes: Bytes) returns (r: Option<Header>)
    ensures r == match ReadHeader(bytes) case None => None case Some((h, _)) => Some(h)
  {
    var b := new StreamPeerBuffer(bytes);
    r := ReadHeaderInto(b);
  }

  /** decode_frame_bytes. */
  method DecodeFrame(bytes: Bytes, marbles: nat) returns (r: Option<Frame>)
    ensures r == match ReadFrame(bytes, marbles) case None => None case Some((f, _)) => Some(f)
  {
    var b := new StreamPeerBuffer(bytes);
    r := ReadFrameInto(b, marbles);
  }

  /** The writer and the reader together: what `_roundtrip_check` samples, for every field of every replay. */
  method RoundTrip(r: Replay) returns (back: Option<Replay>)
    ensures back == Some(Normalize(r)) <==> WellSized(r)
  {
    var bytes := Encode(r);
    back := Decode(bytes);
    RoundTripIff(r);
  }
}
