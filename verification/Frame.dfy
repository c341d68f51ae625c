/** The framed wire format: a 64-byte little-endian header, then the payload,
    protected by a CRC32C; and the incremental decoder that is fed the byte
    stream in arbitrary pieces and hands out at most one frame per call. */
module Frame {
  import opened Basics
  import opened LittleEndian
  import opened Streaming
  import Crc32c

  const HEADER_SIZE := 64
  const MAGIC: nat := 0x5446_5200
  const VERSION: nat := 1
  const MAX_PAYLOAD: nat := 0x100_0000

  /** The header fields that the sender chooses. */
  datatype Header = Header(
    kind: Byte,
    flags: Byte,
    idHi: U64,
    idLo: U64,
    chunkId: U64,
    offset: U64,
    length: U64)

  datatype Frame = Frame(header: Header, crc: nat, payload: Bytes)

  // ---- The wire format ----------------------------------------------------

  function WireIds(h: Header): (b: Bytes)
    ensures |b| == 40
  {
    Put(h.idHi, 8) + Put(h.idLo, 8) + Put(h.chunkId, 8) + Put(h.offset, 8) + Put(h.length, 8)
  }

  function WirePrefix(h: Header, payloadLen: nat): (b: Bytes)
    ensures |b| == 12
  {
    Put(MAGIC, 4) + Put(VERSION, 2) + [h.kind, h.flags] + Put(payloadLen, 4)
  }

  /** Magic at 0, version at 4, type at 6, flags at 7, payload length at 8, the
      two halves of the transfer id at 12 and 20, chunk id at 28, offset at 36,
      length at 44, CRC at 52, eight reserved bytes at 56. */
  function WireHeader(h: Header, payloadLen: nat, crc: nat): (b: Bytes)
    ensures |b| == HEADER_SIZE
  {
    WirePrefix(h, payloadLen) + WireIds(h) + Put(crc, 4) + Zeros(8)
  }

  /** The CRC field: left at zero when there is no payload. */
  ghost function StoredCrc(payload: Bytes): nat {
    if payload == [] then 0 else Crc32c.Crc(payload)
  }

  ghost function Wire(h: Header, payload: Bytes): (b: Bytes)
    ensures |b| == HEADER_SIZE + |payload|
  {
    WireHeader(h, |payload|, StoredCrc(payload)) + payload
  }

  // ---- Parsing ------------------------------------------------------------

  function Field(b: Bytes, at: nat, n: nat): nat
    requires at + n <= |b|
  {
    Get(b[at..at + n])
  }

  function ReadHeader(b: Bytes): Header
    requires |b| >= HEADER_SIZE
  {
    PutGet(b[12..20]);
    PutGet(b[20..28]);
    PutGet(b[28..36]);
    PutGet(b[36..44]);
    PutGet(b[44..52]);
    Pow256Values();
    Header(b[6], b[7], Field(b, 12, 8), Field(b, 20, 8), Field(b, 28, 8), Field(b, 36, 8), Field(b, 44, 8))
  }

  /** The payload length that the header announces, if the header is sound. */
  function CheckHeader(b: Bytes): (r: Result<nat>)
    requires |b| >= HEADER_SIZE
    ensures r.Ok? ==> r.value <= MAX_PAYLOAD
  {
    if Field(b, 0, 4) != MAGIC then Err(InvalidRequest)
    else if Field(b, 4, 2) != VERSION then Err(InvalidRequest)
    else if Field(b, 8, 4) > MAX_PAYLOAD then Err(InvalidRequest)
    else Ok(Field(b, 8, 4))
  }

  ghost function CheckBody(b: Bytes, n: nat): (r: Parsed<Frame>)
    requires HEADER_SIZE + n <= |b|
    ensures r.Got? ==> r.size == HEADER_SIZE + n
  {
    var payload := b[HEADER_SIZE..HEADER_SIZE + n];
    var crc := Field(b, 52, 4);
    if n > 0 && crc != 0 && Crc32c.Crc(payload) != crc then Bad(IntegrityFailure)
    else Got(Frame(ReadHeader(b), crc, payload), HEADER_SIZE + n)
  }

  /** What the decoder makes of its buffer. */
  ghost function Parse(b: Bytes): (r: Parsed<Frame>)
    ensures r.Got? ==> HEADER_SIZE <= r.size <= |b|
  {
    if |b| < HEADER_SIZE then NeedMore else
      match CheckHeader(b)
      case Err(e) => Bad(e)
      case Ok(n) => if |b| < HEADER_SIZE + n then NeedMore else CheckBody(b, n)
  }

  lemma SliceOfAppend(b: Bytes, more: Bytes, i: nat, j: nat)
    requires i <= j <= |b|
    ensures (b + more)[i..j] == b[i..j]
  {
  }

  lemma HeaderOfAppend(b: Bytes, more: Bytes)
    requires |b| >= HEADER_SIZE
    ensures ReadHeader(b + more) == ReadHeader(b)
    ensures Field(b + more, 0, 4) == Field(b, 0, 4) && Field(b + more, 4, 2) == Field(b, 4, 2)
    ensures Field(b + more, 8, 4) == Field(b, 8, 4) && Field(b + more, 52, 4) == Field(b, 52, 4)
  {
    SliceOfAppend(b, more, 0, 4);
    SliceOfAppend(b, more, 4, 6);
    SliceOfAppend(b, more, 8, 12);
    SliceOfAppend(b, more, 12, 20);
    SliceOfAppend(b, more, 20, 28);
    SliceOfAppend(b, more, 28, 36);
    SliceOfAppend(b, more, 36, 44);
    SliceOfAppend(b, more, 44, 52);
    SliceOfAppend(b, more, 52, 56);
  }

  lemma BodyOfAppend(b: Bytes, more: Bytes, n: nat)
    requires HEADER_SIZE + n <= |b|
    ensures CheckBody(b + more, n) == CheckBody(b, n)
  {
    HeaderOfAppend(b, more);
    SliceOfAppend(b, more, HEADER_SIZE, HEADER_SIZE + n);
  }

  /** A verdict on a buffer does not change when more bytes arrive. */
  lemma ParseStable(b: Bytes, more: Bytes)
    requires !Parse(b).NeedMore?
    ensures Parse(b + more) == Parse(b)
  {
    HeaderOfAppend(b, more);
    var r := CheckHeader(b);
    assert CheckHeader(b + more) == r;
    if r.Ok? { BodyOfAppend(b, more, r.value); }
  }

  // ---- Encoding, then parsing ---------------------------------------------

  lemma SliceMiddle(a: Bytes, m: Bytes, c: Bytes)
    ensures (a + m + c)[|a|..|a| + |m|] == m
  {
  }

  lemma PrefixFields(h: Header, payloadLen: nat, rest: Bytes)
    ensures var b := WirePrefix(h, payloadLen) + rest;
      b[0..4] == Put(MAGIC, 4) && b[4..6] == Put(VERSION, 2) && b[6] == h.kind && b[7] == h.flags
      && b[8..12] == Put(payloadLen, 4)
  {
    var b := WirePrefix(h, payloadLen) + rest;
    assert b[0..4] == Put(MAGIC, 4);
    assert b[4..6] == Put(VERSION, 2);
    assert b[8..12] == Put(payloadLen, 4);
  }

  lemma IdFields(h: Header, pre: Bytes, rest: Bytes)
    requires |pre| == 12
    ensures var b := pre + WireIds(h) + rest;
      b[12..20] == Put(h.idHi, 8) && b[20..28] == Put(h.idLo, 8) && b[28..36] == Put(h.chunkId, 8)
      && b[36..44] == Put(h.offset, 8) && b[44..52] == Put(h.length, 8)
  {
    var b := pre + WireIds(h) + rest;
    assert b[12..20] == Put(h.idHi, 8);
    assert b[20..28] == Put(h.idLo, 8);
    assert b[28..36] == Put(h.chunkId, 8);
    assert b[36..44] == Put(h.offset, 8);
    assert b[44..52] == Put(h.length, 8);
  }

  lemma CrcField(pre: Bytes, crc: nat, rest: Bytes)
    requires |pre| == 52
    ensures (pre + Put(crc, 4) + rest)[52..56] == Put(crc, 4)
  {
  }

  lemma Regroup(a: Bytes, b: Bytes, c: Bytes, d: Bytes, e: Bytes)
    ensures a + b + c + d + e == a + (b + c + d + e)
    ensures a + b + c + d + e == a + b + (c + d + e)
    ensures a + b + c + d + e == (a + b) + c + (d + e)
  {
  }

  lemma WireSlices(h: Header, n: nat, crc: nat, tail: Bytes)
    ensures var b := WireHeader(h, n, crc) + tail;
      && b[0..4] == Put(MAGIC, 4) && b[4..6] == Put(VERSION, 2) && b[6] == h.kind && b[7] == h.flags
      && b[8..12] == Put(n, 4)
      && b[12..20] == Put(h.idHi, 8) && b[20..28] == Put(h.idLo, 8) && b[28..36] == Put(h.chunkId, 8)
      && b[36..44] == Put(h.offset, 8) && b[44..52] == Put(h.length, 8)
      && b[52..56] == Put(crc, 4)
  {
    var p, ids, c, z := WirePrefix(h, n), WireIds(h), Put(crc, 4), Zeros(8);
    Regroup(p, ids, c, z, tail);
    PrefixFields(h, n, ids + c + z + tail);
    IdFields(h, p, c + z + tail);
    CrcField(p + ids, crc, z + tail);
  }

  /** The low `n` bytes of `v` stand at `at`, byte `k` with the weight 256^k. */
  ghost predicate Holds(b: Bytes, at: nat, v: nat, n: nat) {
    at + n <= |b| && forall k :: 0 <= k < n ==> b[at + k] == v / Pow256(k) % 256
  }

  lemma PutHolds(b: Bytes, at: nat, v: nat, n: nat)
    requires at + n <= |b| && b[at..at + n] == Put(v, n)
    ensures Holds(b, at, v, n)
  {
    forall k | 0 <= k < n ensures b[at + k] == v / Pow256(k) % 256 {
      PutAt(v, n, k);
      assert b[at..at + n][k] == b[at + k];
    }
  }

  /** Where each field of an encoded frame stands. */
  lemma WireLayout(h: Header, payload: Bytes)
    ensures var b := Wire(h, payload);
      && b[..8] == [0x00, 0x52, 0x46, 0x54, 0x01, 0x00, h.kind, h.flags]
      && Holds(b, 8, |payload|, 4)
      && Holds(b, 12, h.idHi, 8) && Holds(b, 20, h.idLo, 8)
      && Holds(b, 28, h.chunkId, 8) && Holds(b, 36, h.offset, 8) && Holds(b, 44, h.length, 8)
      && Holds(b, 52, if payload == [] then 0 else Crc32c.Crc(payload), 4)
      && b[56..64] == [0, 0, 0, 0, 0, 0, 0, 0] && b[64..] == payload
  {
    var b := Wire(h, payload);
    var crc := StoredCrc(payload);
    WireSlices(h, |payload|, crc, payload);
    Opening(b, h);
    ReservedField(WirePrefix(h, |payload|) + WireIds(h) + Put(crc, 4), payload);
    PutHolds(b, 8, |payload|, 4);
    PutHolds(b, 12, h.idHi, 8);
    PutHolds(b, 20, h.idLo, 8);
    PutHolds(b, 28, h.chunkId, 8);
    PutHolds(b, 36, h.offset, 8);
    PutHolds(b, 44, h.length, 8);
    PutHolds(b, 52, crc, 4);
  }

  lemma Opening(b: Bytes, h: Header)
    requires |b| >= 8 && b[0..4] == Put(MAGIC, 4) && b[4..6] == Put(VERSION, 2) && b[6] == h.kind && b[7] == h.flags
    ensures b[..8] == [0x00, 0x52, 0x46, 0x54, 0x01, 0x00, h.kind, h.flags]
  {
    OpeningBytes();
    assert b[..8] == b[0..4] + b[4..6] + [b[6], b[7]];
  }

  lemma OpeningBytes()
    ensures Put(MAGIC, 4) == [0x00, 0x52, 0x46, 0x54] && Put(VERSION, 2) == [0x01, 0x00]
  {
    assert Put(0x54, 1) == [0x54];
    assert Put(0x5446, 2) == [0x46] + Put(0x54, 1);
    assert Put(0x54_4652, 3) == [0x52] + Put(0x5446, 2);
    assert Put(MAGIC, 4) == [0x00] + Put(0x54_4652, 3);
    assert Put(0, 1) == [0x00];
  }

  lemma ReservedField(front: Bytes, tail: Bytes)
    requires |front| == 56
    ensures var b := front + Zeros(8) + tail;
      b[56..64] == [0, 0, 0, 0, 0, 0, 0, 0] && b[64..] == tail
  {
  }

  /** Conversely, what the decoder accepts is, apart from the reserved bytes, the
      encoding of the frame it hands out; and the payload has the stored CRC
      unless that is zero. */
  lemma AcceptedIsWire(b: Bytes)
    requires Parse(b).Got?
    ensures var f, n := Parse(b).frame, Parse(b).size;
      && n == HEADER_SIZE + |f.payload| && |f.payload| <= MAX_PAYLOAD
      && b[..56] == WirePrefix(f.header, |f.payload|) + WireIds(f.header) + Put(f.crc, 4)
      && b[64..n] == f.payload
      && (f.payload == [] || f.crc == 0 || f.crc == Crc32c.Crc(f.payload))
  {
    var f := Parse(b).frame;
    AcceptedPrefix(b);
    AcceptedIds(b);
    PutGet(b[52..56]);
    assert b[..56] == b[..12] + b[12..52] + b[52..56];
  }

  lemma AcceptedPrefix(b: Bytes)
    requires Parse(b).Got?
    ensures b[..12] == WirePrefix(Parse(b).frame.header, |Parse(b).frame.payload|)
  {
    PutGet(b[0..4]);
    PutGet(b[4..6]);
    PutGet(b[8..12]);
    assert b[..12] == b[0..4] + b[4..6] + [b[6], b[7]] + b[8..12];
  }

  lemma FieldBytes(b: Bytes, at: nat, n: nat)
    requires at + n <= |b|
    ensures Put(Field(b, at, n), n) == b[at..at + n]
  {
    PutGet(b[at..at + n]);
  }

  lemma FiveFields(b: Bytes)
    requires |b| >= HEADER_SIZE
    ensures b[12..52] == b[12..20] + b[20..28] + b[28..36] + b[36..44] + b[44..52]
  {
  }

  lemma AcceptedIds(b: Bytes)
    requires |b| >= HEADER_SIZE
    ensures b[12..52] == WireIds(ReadHeader(b))
  {
    FieldBytes(b, 12, 8);
    FieldBytes(b, 20, 8);
    FieldBytes(b, 28, 8);
    FieldBytes(b, 36, 8);
    FieldBytes(b, 44, 8);
    FiveFields(b);
  }

  /** The header survives the wire. */
  lemma HeaderRoundTrip(h: Header, n: nat, crc: nat, tail: Bytes)
    requires n < 0x1_0000_0000 && crc < 0x1_0000_0000
    ensures var b := WireHeader(h, n, crc) + tail;
      && Field(b, 0, 4) == MAGIC && Field(b, 4, 2) == VERSION
      && Field(b, 8, 4) == n && Field(b, 52, 4) == crc
      && ReadHeader(b) == h
  {
    WireSlices(h, n, crc, tail);
    Pow256Values();
    GetPut(MAGIC, 4);
    GetPut(VERSION, 2);
    GetPut(n, 4);
    GetPut(crc, 4);
    GetPut(h.idHi, 8);
    GetPut(h.idLo, 8);
    GetPut(h.chunkId, 8);
    GetPut(h.offset, 8);
    GetPut(h.length, 8);
  }

  lemma StoredCrcBounded(payload: Bytes)
    ensures StoredCrc(payload) < 0x1_0000_0000
  {
    if payload != [] { Crc32c.CrcBounded(payload); }
  }

  /** What is decoded from the wire form of a frame. */
  ghost function Decoded(h: Header, payload: Bytes): Frame {
    Frame(h, StoredCrc(payload), payload)
  }

  /** A header that announces a payload, whatever bytes stand in its place. */
  lemma ParseHeaderAnd(h: Header, crc: nat, q: Bytes, tail: Bytes)
    requires |q| <= MAX_PAYLOAD && crc < 0x1_0000_0000
    ensures Parse(WireHeader(h, |q|, crc) + q + tail) ==
      if q != [] && crc != 0 && Crc32c.Crc(q) != crc then Bad(IntegrityFailure)
      else Got(Frame(h, crc, q), HEADER_SIZE + |q|)
  {
    var w := WireHeader(h, |q|, crc);
    HeaderRoundTrip(h, |q|, crc, q + tail);
    assert w + q + tail == w + (q + tail);
    SliceMiddle(w, q, tail);
  }

  /** Decoding what was encoded gives the header and payload back, whatever
      follows on the stream. */
  lemma ParseWire(h: Header, payload: Bytes, tail: Bytes)
    requires |payload| <= MAX_PAYLOAD
    ensures Parse(Wire(h, payload) + tail) == Got(Decoded(h, payload), HEADER_SIZE + |payload|)
  {
    StoredCrcBounded(payload);
    ParseHeaderAnd(h, StoredCrc(payload), payload, tail);
  }

  /** Part of a frame is never enough, and never an error. */
  lemma ParsePartial(h: Header, payload: Bytes, k: nat)
    requires |payload| <= MAX_PAYLOAD && k < |Wire(h, payload)|
    ensures Parse(Wire(h, payload)[..k]) == NeedMore
  {
    var w := Wire(h, payload);
    var b, rest := w[..k], w[k..];
    assert w == b + rest;
    if k >= HEADER_SIZE {
      StoredCrcBounded(payload);
      HeaderRoundTrip(h, |payload|, StoredCrc(payload), payload);
      HeaderOfAppend(b, rest);
    }
  }

  // ---- Damage -------------------------------------------------------------

  /** A frame whose payload was damaged on the way is refused exactly when its
      stored CRC is nonzero and differs from the damaged payload's. */
  lemma DamagedPayload(h: Header, p: Bytes, q: Bytes, tail: Bytes)
    requires 0 < |p| == |q| <= MAX_PAYLOAD
    ensures Parse(WireHeader(h, |p|, StoredCrc(p)) + q + tail).Bad? <==>
      Crc32c.Crc(p) != 0 && Crc32c.Crc(q) != Crc32c.Crc(p)
  {
    StoredCrcBounded(p);
    ParseHeaderAnd(h, StoredCrc(p), q, tail);
  }

  /** Damage within 32 consecutive bits is refused if and only if the stored CRC
      is nonzero, for payloads of every length. */
  lemma BurstRefused(h: Header, p: Bytes, q: Bytes, tail: Bytes, at: nat)
    requires 0 < |p| == |q| <= MAX_PAYLOAD && p != q
    requires Crc32c.WithinBurst(Crc32c.MessageBits(p), Crc32c.MessageBits(q), at)
    ensures Parse(WireHeader(h, |p|, StoredCrc(p)) + q + tail).Bad? <==> Crc32c.Crc(p) != 0
  {
    DamagedPayload(h, p, q, tail);
    Crc32c.BurstDetected(p, q, at);
  }

  /** The exception is real: a payload whose CRC happens to be zero travels
      unprotected, and any payload of its length is accepted in its place. */
  lemma ZeroCrcUnprotected(h: Header) returns (p: Bytes)
    ensures 0 < |p| <= MAX_PAYLOAD
    ensures forall q: Bytes, tail: Bytes :: |q| == |p| ==>
      Parse(WireHeader(h, |p|, StoredCrc(p)) + q + tail) == Got(Frame(h, 0, q), HEADER_SIZE + |q|)
  {
    p := Crc32c.ZeroCrcMessage();
    forall q: Bytes, tail: Bytes | |q| == |p|
      ensures Parse(WireHeader(h, |p|, StoredCrc(p)) + q + tail) == Got(Frame(h, 0, q), HEADER_SIZE + |q|)
    {
      ParseHeaderAnd(h, 0, q, tail);
    }
  }

  // ---- Encoded streams ----------------------------------------------------

  /** The frame parser is one the incremental decoder can be built on. */
  lemma ParseFinal()
    ensures Final(Parse)
  {
    forall b: Bytes, more: Bytes | !Parse(b).NeedMore? ensures Parse(b + more) == Parse(b) {
      ParseStable(b, more);
    }
  }

  datatype Message = Message(header: Header, payload: Bytes)

  predicate Sendable(ms: seq<Message>) {
    forall i :: 0 <= i < |ms| ==> |ms[i].payload| <= MAX_PAYLOAD
  }

  ghost function Stream(ms: seq<Message>): Bytes {
    if ms == [] then [] else Wire(ms[0].header, ms[0].payload) + Stream(ms[1..])
  }

  ghost function DecodedAll(ms: seq<Message>): (fs: seq<Frame>)
    ensures |fs| == |ms|
  {
    if ms == [] then [] else [Decoded(ms[0].header, ms[0].payload)] + DecodedAll(ms[1..])
  }

  lemma {:induction false} ParseAllStream(ms: seq<Message>)
    requires Sendable(ms) && Final(Parse)
    ensures ParseAll(Parse, Stream(ms)) == Batch(DecodedAll(ms), [], None)
  {
    if ms != [] {
      var m, rest := ms[0], Stream(ms[1..]);
      ParseWire(m.header, m.payload, rest);
      assert (Wire(m.header, m.payload) + rest)[HEADER_SIZE + |m.payload|..] == rest;
      ParseAllStream(ms[1..]);
    }
  }

  /** Feeding an encoded stream in any pieces and then draining hands out
      exactly the messages that were encoded, in order, and empties the buffer. */
  lemma StreamRoundTrip(ms: seq<Message>, pieces: seq<Bytes>, k: nat)
    requires Sendable(ms) && Concat(pieces) == Stream(ms) && |ms| <= k
    ensures Final(Parse) && FeedAll(Parse, [], pieces + Empties(k)) == Run(DecodedAll(ms), [])
  {
    ParseFinal();
    ParseAllStream(ms);
    FeedThenDrain(Parse, pieces, k);
  }

  // ---- The decoder object -------------------------------------------------

  /** The checks of `feed`, in order, on a full buffer. */
  method TryParse(buf: Bytes) returns (r: Parsed<Frame>)
    ensures r == Parse(buf)
  {
    if |buf| < HEADER_SIZE { return NeedMore; }
    if Field(buf, 0, 4) != MAGIC { return Bad(InvalidRequest); }
    if Field(buf, 4, 2) != VERSION { return Bad(InvalidRequest); }
    var n := Field(buf, 8, 4);
    if n > MAX_PAYLOAD { return Bad(InvalidRequest); }
    if |buf| < HEADER_SIZE + n { return NeedMore; }
    var crc := Field(buf, 52, 4);
    var payload := buf[HEADER_SIZE..HEADER_SIZE + n];
    if n > 0 {
      var actual := Crc32c.Compute(payload);
      if crc != 0 && actual != crc { return Bad(IntegrityFailure); }
    }
    r := Got(Frame(ReadHeader(buf), crc, payload), HEADER_SIZE + n);
  }

  class Decoder {
    var buf: Bytes

    constructor ()
      ensures buf == []
    {
      buf := [];
    }

    method Reset()
      modifies this
      ensures buf == []
    {
      buf := [];
    }

    /** Appends the data and tries to cut one frame off the front. */
    method Feed(data: Bytes) returns (frame: Option<Frame>, error: Option<Category>)
      modifies this
      ensures Final(Parse)
      ensures Fed(frame, error, buf) == FeedOnce(Parse, old(buf), data)
    {
      ParseFinal();
      buf := buf + data;
      var r := TryParse(buf);
      frame, error := None, None;
      match r
      case NeedMore =>
      case Bad(e) => error := Some(e);
      case Got(f, n) =>
        frame := Some(f);
        buf := buf[n..];
    }
  }

  // ---- The encoder --------------------------------------------------------

  /** A field written into the output buffer: `b` replaces `m`, which stands
      between `a` and `c`. */
  method PutField(out: array<Byte>, at: nat, b: Bytes, ghost a: Bytes, ghost m: Bytes, ghost c: Bytes)
    requires out[..] == a + m + c && |a| == at && |m| == |b|
    modifies out
    ensures out[..] == a + b + c
  {
    for i := 0 to |b|
      invariant forall x :: 0 <= x < out.Length ==>
        out[x] == if at <= x < at + i then b[x - at] else (a + m + c)[x]
    {
      out[at + i] := b[i];
    }
  }

  lemma SplitZeros(j: nat, k: nat)
    ensures Zeros(j + k) == Zeros(j) + Zeros(k)
  {
  }

  /** The header fields before the CRC, into a buffer of zeros. */
  method PutFields(out: array<Byte>, h: Header, payloadLen: nat)
    requires out.Length >= HEADER_SIZE && out[..] == Zeros(out.Length)
    modifies out
    ensures out[..] == WirePrefix(h, payloadLen) + WireIds(h) + Zeros(out.Length - 52)
  {
    ghost var n := out.Length;
    ghost var p := WirePrefix(h, payloadLen);
    SplitZeros(12, n - 12);
    assert out[..] == [] + Zeros(12) + Zeros(n - 12);
    PutField(out, 0, Put(MAGIC, 4) + Put(VERSION, 2) + [h.kind, h.flags] + Put(payloadLen, 4), [], Zeros(12),
             Zeros(n - 12));
    SplitZeros(40, n - 52);
    assert out[..] == p + Zeros(40) + Zeros(n - 52);
    PutField(out, 12, Put(h.idHi, 8) + Put(h.idLo, 8) + Put(h.chunkId, 8) + Put(h.offset, 8) + Put(h.length, 8),
             p, Zeros(40), Zeros(n - 52));
  }

  /** The payload after the header, when there is one; the CRC to store. */
  method PutPayload(out: array<Byte>, payload: Option<Bytes>, payloadLen: nat, ghost front: Bytes)
    returns (crc: nat, ghost body: Bytes)
    requires payload.Some? ==> |payload.value| == payloadLen
    requires |front| == 52 && out[..] == front + Zeros(12 + payloadLen)
    modifies out
    ensures out[..] == front + Zeros(12) + body
    ensures body == if payload.Some? then payload.value else Zeros(payloadLen)
    ensures crc == if payload.Some? then StoredCrc(payload.value) else 0
  {
    crc, body := 0, Zeros(payloadLen);
    SplitZeros(12, payloadLen);
    assert out[..] == front + Zeros(12) + body + [];
    if payload.Some? {
      if payloadLen > 0 {
        PutField(out, HEADER_SIZE, payload.value, front + Zeros(12), body, []);
        crc := Crc32c.Compute(payload.value);
      }
      body := payload.value;
    }
  }

  method PutCrc(out: array<Byte>, crc: nat, ghost front: Bytes, ghost body: Bytes)
    requires |front| == 52 && out[..] == front + Zeros(12) + body
    modifies out
    ensures out[..] == front + Put(crc, 4) + Zeros(8) + body
  {
    SplitZeros(4, 8);
    assert out[..] == front + Zeros(4) + (Zeros(8) + body);
    PutField(out, 52, Put(crc, 4), front, Zeros(4), Zeros(8) + body);
  }

  /** Encodes a header and a payload. `payload` is absent when the caller passes
      no data, in which case the announced bytes are zeros and the CRC is zero. */
  method Encode(h: Header, payload: Option<Bytes>, payloadLen: nat) returns (r: Result<Bytes>)
    requires payload.Some? ==> |payload.value| == payloadLen
    ensures r.Ok? <==> payloadLen <= MAX_PAYLOAD
    ensures r.Err? ==> r.error == InvalidRequest
    ensures r.Ok? && payload.Some? ==> r.value == Wire(h, payload.value)
    ensures r.Ok? && payload.None? ==> r.value == WireHeader(h, payloadLen, 0) + Zeros(payloadLen)
  {
    if payloadLen > MAX_PAYLOAD { return Err(InvalidRequest); }
    var out := new Byte[HEADER_SIZE + payloadLen](i => 0);
    PutFields(out, h, payloadLen);
    ghost var front := WirePrefix(h, payloadLen) + WireIds(h);
    ghost var body;
    var crc;
    crc, body := PutPayload(out, payload, payloadLen, front);
    PutCrc(out, crc, front, body);
    r := Ok(out[..]);
  }
}
