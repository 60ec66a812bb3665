/**
 The framing of the live stream (server/stream/stream.go, ws.go): one type byte, the payload length as
 a little-endian u32, the payload.

 `Wire` and `Source` stand for a connection's two ends: a write may take only part of its bytes and fail,
 a source hands out bytes until it ends.
 */
module Messages {
  import opened Common
  import opened Words

  datatype Message = Message(kind: Byte, payload: Bytes)

  const MSG_HEADER: Byte := 1
  const MSG_TICK: Byte := 2
  const MSG_DONE: Byte := 3

  const PREFIX: nat := 5

  datatype ReadError = Eof | UnexpectedEof | TooLarge(size: nat)

  // ---------------------------------------------------------------------------
  // Writing
  // ---------------------------------------------------------------------------

  /** The bytes of one message on the wire. */
  function Encoded(m: Message): (b: Bytes)
    ensures |b| == Size(m)
  {
    [m.kind] + LE(|m.payload|, 4) + m.payload
  }

  function Size(m: Message): nat { PREFIX + |m.payload| }

  /** Kind, length, payload. */
  lemma WireLayout(m: Message)
    ensures var b := Encoded(m);
      && |b| == 5 + |m.payload| && b[0] == m.kind && b[1..5] == LE(|m.payload|, 4) && b[5..] == m.payload
  {
    assert ([m.kind] + LE(|m.payload|, 4))[1..] == LE(|m.payload|, 4);
  }

  function EncodeAll(ms: seq<Message>): Bytes {
    if ms == [] then [] else Encoded(ms[0]) + EncodeAll(ms[1..])
  }

  function Min(a: nat, b: nat): nat { if a <= b then a else b }

  /** A connection: its n-th write takes at most `takes(n)` bytes, and fails if that is not everything. */
  class Wire {
    const takes: nat -> nat
    var calls: nat
    var written: Bytes

    constructor (takes: nat -> nat)
      ensures this.takes == takes && calls == 0 && written == []
    {
      this.takes, calls, written := takes, 0, [];
    }

    method Write(b: Bytes) returns (ok: bool)
      modifies this
      ensures ok <==> |b| <= takes(old(calls))
      ensures written == old(written) + b[..Min(|b|, takes(old(calls)))]
      ensures calls == old(calls) + 1
    {
      var n := Min(|b|, takes(calls));
      written := written + b[..n];
      calls := calls + 1;
      ok := n == |b|;
    }
  }

  /** Message.Encode: header, then payload if there is any.  A failed write leaves a proper prefix of the message. */
  method Encode(m: Message, w: Wire) returns (ok: bool)
    modifies w
    ensures ok <==>
      PREFIX <= w.takes(old(w.calls)) && (m.payload != [] ==> |m.payload| <= w.takes(old(w.calls) + 1))
    ensures ok ==> w.written == old(w.written) + Encoded(m)
    ensures !ok ==> exists k: nat :: k < |Encoded(m)| && w.written == old(w.written) + Encoded(m)[..k]
  {
    var hdr := [m.kind] + LE(|m.payload|, 4);
    assert Encoded(m) == hdr + m.payload;
    ok := w.Write(hdr);
    if !ok {
      ghost var k := w.takes(old(w.calls));
      assert Encoded(m)[..k] == hdr[..k];
      return;
    }
    if |m.payload| > 0 {
      ok := w.Write(m.payload);
      ghost var k := Min(|m.payload|, w.takes(old(w.calls) + 1));
      assert Encoded(m)[..PREFIX + k] == hdr + m.payload[..k];
      assert old(w.written) + hdr + m.payload[..k] == old(w.written) + (hdr + m.payload[..k]);
    }
  }

  /** encodeInline: the same bytes, filled into one buffer. */
  method EncodeInline(m: Message) returns (out: array<Byte>)
    ensures out[..] == Encoded(m)
    ensures out.Length == 5 + |m.payload| && out[0] == m.kind && out[5..] == m.payload
    ensures forall i | 0 <= i < 4 :: out[1 + i] == LE(|m.payload|, 4)[i]
  {
    var n := |m.payload|;
    Shifts(n);
    out := new Byte[5 + n](_ => 0);
    out[0] := m.kind;
    out[1] := n % 0x100;
    out[2] := n / 0x100 % 0x100;
    out[3] := n / 0x1_0000 % 0x100;
    out[4] := n / 0x100_0000 % 0x100;
    for i := 0 to n
      invariant out[..5] == [m.kind] + LE(n, 4)
      invariant out[5..5 + i] == m.payload[..i]
    {
      out[5 + i] := m.payload[i];
      assert out[5..5 + i + 1] == out[5..5 + i] + [m.payload[i]];
    }
    assert out[..] == out[..5] + out[5..5 + n];
  }

  // ---------------------------------------------------------------------------
  // Reading
  // ---------------------------------------------------------------------------

  /** io.ReadFull of n > 0 bytes from an input that ends after `s`. */
  function Full(s: Bytes, n: nat): Result<Bytes, ReadError> {
    if |s| >= n then Ok(s[..n]) else if s == [] then Err(Eof) else Err(UnexpectedEof)
  }

  /** What ReadMessage makes of an input that ends after `s`. */
  function ReadOne(s: Bytes, cap: nat): Result<Message, ReadError> {
    match Full(s, PREFIX)
    case Err(e) => Err(e)
    case Ok(hdr) =>
      var n := FromLE(hdr[1..]);
      if n > cap then Err(TooLarge(n))
      else if n == 0 then Ok(Message(hdr[0], []))
      else match Full(s[PREFIX..], n)
        case Err(e) => Err(e)
        case Ok(payload) => Ok(Message(hdr[0], payload))
  }

  class Source {
    var unread: Bytes

    constructor (bytes: Bytes)
      ensures unread == bytes
    {
      unread := bytes;
    }

    method ReadFull(n: nat) returns (r: Result<Bytes, ReadError>)
      requires n > 0
      modifies this
      ensures r == Full(old(unread), n)
      ensures unread == if r.Ok? then old(unread)[n..] else []
    {
      if |unread| < n {
        r := Err(if unread == [] then Eof else UnexpectedEof);
        unread := [];
        return;
      }
      r := Ok(unread[..n]);
      unread := unread[n..];
    }
  }

  /** ReadMessage: on success exactly the bytes of one message are consumed. */
  method ReadMessage(src: Source, cap: nat) returns (r: Result<Message, ReadError>)
    modifies src
    ensures r == ReadOne(old(src.unread), cap)
    ensures r.Ok? ==> old(src.unread) == Encoded(r.value) + src.unread
    ensures |src.unread| <= |old(src.unread)|
  {
    ghost var s := src.unread;
    var hdr := src.ReadFull(5);
    if hdr.Err? {
      return Err(hdr.error);
    }
    var n := FromLE(hdr.value[1..]);
    if n > cap {
      return Err(TooLarge(n));
    }
    var payload := [];
    if n > 0 {
      var body := src.ReadFull(n);
      if body.Err? {
        return Err(body.error);
      }
      payload := body.value;
    }
    r := Ok(Message(hdr.value[0], payload));
    ReadOneConsumes(s, cap);
    assert src.unread == s[PREFIX + n..];
  }

  /** Whatever is accepted is the encoding of what is returned. */
  lemma ReadOneConsumes(s: Bytes, cap: nat)
    requires ReadOne(s, cap).Ok?
    ensures var m := ReadOne(s, cap).value;
      && |m.payload| <= cap && |m.payload| < TWO_32
      && |Encoded(m)| <= |s| && s[..|Encoded(m)|] == Encoded(m)
  {
    var m := ReadOne(s, cap).value;
    var n := FromLE(s[..PREFIX][1..]);
    LEInverse(s[..PREFIX][1..]);
    assert |m.payload| == n;
    assert m.payload == s[PREFIX..][..n];
    assert s[..PREFIX + n] == [s[0]] + s[..PREFIX][1..] + s[PREFIX..][..n];
  }

  /** A message comes back from its bytes exactly when its payload is within the cap; otherwise its size is reported. */
  lemma ReadBack(m: Message, rest: Bytes, cap: nat)
    requires |m.payload| < TWO_32
    ensures ReadOne(Encoded(m) + rest, cap) == if |m.payload| <= cap then Ok(m) else Err(TooLarge(|m.payload|))
  {
    var s := Encoded(m) + rest;
    Word32(|m.payload|);
    assert s[..PREFIX][1..] == LE(|m.payload|, 4);
    assert s[PREFIX..] == m.payload + rest;
    assert (m.payload + rest)[..|m.payload|] == m.payload;
  }

  /** A message cut short: plain EOF if nothing of it was left, or nothing but its five-byte prefix. */
  lemma ReadCut(m: Message, k: nat, cap: nat)
    requires |m.payload| < TWO_32 && |m.payload| <= cap && k < |Encoded(m)|
    ensures ReadOne(Encoded(m)[..k], cap) == Err(if k == 0 || k == PREFIX then Eof else UnexpectedEof)
  {
    var s := Encoded(m)[..k];
    if k >= PREFIX {
      Word32(|m.payload|);
      assert Encoded(m)[..PREFIX] == [m.kind] + LE(|m.payload|, 4);
      assert s[..PREFIX] == Encoded(m)[..PREFIX];
    }
  }

  // ---------------------------------------------------------------------------
  // Streams of messages
  // ---------------------------------------------------------------------------

  /** Everything a reader gets from an input that ends after `s`, and the error that stops it. */
  function ReadAll(s: Bytes, cap: nat): (seq<Message>, ReadError)
    decreases |s|
  {
    match ReadOne(s, cap)
    case Err(e) => ([], e)
    case Ok(m) =>
      ReadOneConsumes(s, cap);
      var (ms, e) := ReadAll(s[Size(m)..], cap);
      ([m] + ms, e)
  }

  /** A whole message at the front is read, and reading goes on behind it. */
  lemma ReadAllStep(m: Message, rest: Bytes, cap: nat)
    requires |m.payload| < TWO_32 && |m.payload| <= cap
    ensures ReadAll(Encoded(m) + rest, cap) == ([m] + ReadAll(rest, cap).0, ReadAll(rest, cap).1)
  {
    ReadBack(m, rest, cap);
    assert (Encoded(m) + rest)[Size(m)..] == rest;
  }

  ghost predicate AllFit(ms: seq<Message>, cap: nat) {
    forall i | 0 <= i < |ms| :: |ms[i].payload| <= cap && |ms[i].payload| < TWO_32
  }

  /** The number of whole messages among the first k bytes. */
  function Whole(ms: seq<Message>, k: nat): nat {
    if ms == [] || k < Size(ms[0]) then 0 else 1 + Whole(ms[1..], k - Size(ms[0]))
  }

  /** `Whole` means what it says: j messages fit, the next one does not. */
  lemma {:induction false} WholeIsMaximal(ms: seq<Message>, k: nat)
    requires k <= |EncodeAll(ms)|
    ensures var j := Whole(ms, k);
      && j <= |ms| && |EncodeAll(ms[..j])| <= k
      && (j < |ms| ==> k < |EncodeAll(ms[..j + 1])|)
    decreases |ms|
  {
    if ms != [] && k >= Size(ms[0]) {
      WholeIsMaximal(ms[1..], k - Size(ms[0]));
      var j := Whole(ms, k);
      assert ms[..j][1..] == ms[1..][..j - 1];
      if j < |ms| {
        assert ms[..j + 1][1..] == ms[1..][..j];
      }
    } else if ms != [] {
      assert ms[..1] == [ms[0]] && ms[..0] == [];
      assert EncodeAll(ms[..1]) == Encoded(ms[0]) + EncodeAll(ms[..1][1..]);
    }
  }

  /** How a stream cut after k bytes ends: plain EOF on a message boundary or right after a five-byte prefix. */
  function EndOf(ms: seq<Message>, k: nat): ReadError {
    if ms == [] then Eof
    else if k < Size(ms[0]) then (if k == 0 || k == PREFIX then Eof else UnexpectedEof)
    else EndOf(ms[1..], k - Size(ms[0]))
  }

  /**
   Cutting a stream anywhere loses only what the cut touches: the reader gets exactly the whole messages
   before it.
   */
  lemma {:induction false} ReadTruncated(ms: seq<Message>, k: nat, cap: nat)
    requires AllFit(ms, cap) && k <= |EncodeAll(ms)|
    ensures Whole(ms, k) <= |ms|
    ensures ReadAll(EncodeAll(ms)[..k], cap) == (ms[..Whole(ms, k)], EndOf(ms, k))
    decreases |ms|
  {
    if ms == [] {
      assert ReadAll([], cap) == ([], Eof);
    } else if k < Size(ms[0]) {
      CutFirst(ms, k, cap);
    } else {
      var n := Size(ms[0]);
      ReadTruncated(ms[1..], k - n, cap);
      TruncatedStep(ms, k, cap);
      WholeStep(ms, k, ReadAll(EncodeAll(ms[1..])[..k - n], cap), ReadAll(EncodeAll(ms)[..k], cap));
    }
  }

  lemma CutFirst(ms: seq<Message>, k: nat, cap: nat)
    requires ms != [] && AllFit(ms, cap) && k < Size(ms[0])
    ensures k <= |EncodeAll(ms)|
    ensures ReadAll(EncodeAll(ms)[..k], cap) == (ms[..Whole(ms, k)], EndOf(ms, k))
  {
    assert EncodeAll(ms)[..k] == Encoded(ms[0])[..k];
    ReadCut(ms[0], k, cap);
  }

  lemma WholeStep(ms: seq<Message>, k: nat, tail: (seq<Message>, ReadError), all: (seq<Message>, ReadError))
    requires ms != [] && Size(ms[0]) <= k && Whole(ms[1..], k - Size(ms[0])) < |ms|
    requires tail == (ms[1..][..Whole(ms[1..], k - Size(ms[0]))], EndOf(ms[1..], k - Size(ms[0])))
    requires all == ([ms[0]] + tail.0, tail.1)
    ensures Whole(ms, k) <= |ms| && all == (ms[..Whole(ms, k)], EndOf(ms, k))
  {
    var j := Whole(ms[1..], k - Size(ms[0]));
    assert ms[..j + 1] == [ms[0]] + ms[1..][..j];
  }

  lemma TruncatedStep(ms: seq<Message>, k: nat, cap: nat)
    requires ms != [] && AllFit(ms, cap) && Size(ms[0]) <= k <= |EncodeAll(ms)|
    ensures
      var (rest, e) := ReadAll(EncodeAll(ms[1..])[..k - Size(ms[0])], cap);
      ReadAll(EncodeAll(ms)[..k], cap) == ([ms[0]] + rest, e)
  {
    var rest := EncodeAll(ms[1..])[..k - Size(ms[0])];
    assert EncodeAll(ms)[..k] == Encoded(ms[0]) + rest;
    ReadAllStep(ms[0], rest, cap);
  }

  /** In full: every sequence of messages within the cap is read back unchanged, and the reader stops with plain EOF. */
  lemma {:induction false} ReadAllEncodeAll(ms: seq<Message>, cap: nat)
    requires AllFit(ms, cap)
    ensures ReadAll(EncodeAll(ms), cap) == (ms, Eof)
    decreases |ms|
  {
    if ms != [] {
      ReadAllStep(ms[0], EncodeAll(ms[1..]), cap);
      ReadAllEncodeAll(ms[1..], cap);
      assert ms == [ms[0]] + ms[1..];
    }
  }

  /** When the end of a cut stream is plain EOF: exactly where the two cases of the reader say. */
  lemma {:induction false} EofIff(ms: seq<Message>, k: nat)
    requires k <= |EncodeAll(ms)|
    ensures Whole(ms, k) <= |ms|
    ensures var n := |EncodeAll(ms[..Whole(ms, k)])|; EndOf(ms, k) == Eof <==> k == n || k == n + PREFIX
    decreases |ms|
  {
    if ms != [] && k >= Size(ms[0]) {
      EofIff(ms[1..], k - Size(ms[0]));
      var j := Whole(ms, k);
      assert ms[..j][1..] == ms[1..][..j - 1];
    }
  }

  /** Any input at all: the messages read are the bytes consumed. */
  lemma {:induction false} ReadAllConsumes(s: Bytes, cap: nat)
    ensures var ms := ReadAll(s, cap).0;
      AllFit(ms, cap) && |EncodeAll(ms)| <= |s| && s[..|EncodeAll(ms)|] == EncodeAll(ms)
    decreases |s|
  {
    if ReadOne(s, cap).Ok? {
      var m := ReadOne(s, cap).value;
      var n := Size(m);
      ReadOneConsumes(s, cap);
      ReadAllConsumes(s[n..], cap);
      var ms := ReadAll(s, cap).0;
      assert ms[1..] == ReadAll(s[n..], cap).0;
      assert s == s[..n] + s[n..];
      assert s[..|EncodeAll(ms)|] == s[..n] + s[n..][..|EncodeAll(ms[1..])|];
    }
  }

  /** The framing is unambiguous: two message sequences with the same bytes are the same. */
  lemma EncodeAllInjective(a: seq<Message>, b: seq<Message>)
    requires AllFit(a, TWO_32 - 1) && AllFit(b, TWO_32 - 1) && EncodeAll(a) == EncodeAll(b)
    ensures a == b
  {
    ReadAllEncodeAll(a, TWO_32 - 1);
    ReadAllEncodeAll(b, TWO_32 - 1);
  }
}
