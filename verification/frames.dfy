/** The overlay frame codec and the endpoint that carries frames over one packet connection. */
module Frames {
  import opened Text

  type byte = b: int | 0 <= b < 256
  type uint64 = n: int | 0 <= n < 0x1_0000_0000_0000_0000
  type Bytes = seq<byte>

  const UINT64_LIMIT := 0x1_0000_0000_0000_0000
  const DATAGRAM_BUFFER_SIZE := 1600
  const STREAM_CHUNK_SIZE := 1024
  const MAX_FRAME_SIZE := 65536

  const HELLO: byte := 1
  const HELLO_ACK: byte := 2
  const HELLO_REJECT: byte := 3
  const DATAGRAM: byte := 4
  const STREAM_OPEN: byte := 5
  const STREAM_DATA: byte := 6
  const STREAM_CLOSE: byte := 7

  datatype FrameError = Empty | Malformed | UnsupportedKind | UnsupportedAdapter | TooLarge

  datatype Result<+T> = Ok(value: T) | Err(error: FrameError)

  /** One record for every kind; a kind uses only some of the fields. */
  datatype Frame = Frame(
    kind: byte,
    adapter: string,
    routeID: uint64,
    streamID: uint64,
    sequence: uint64,
    payload: Bytes,
    reason: Bytes)

  function HelloFrame(kind: byte, adapter: string): Frame { Frame(kind, adapter, 0, 0, 0, [], []) }

  function RejectFrame(reason: Bytes): Frame { Frame(HELLO_REJECT, "", 0, 0, 0, [], reason) }

  function DatagramFrame(routeID: uint64, payload: Bytes): Frame { Frame(DATAGRAM, "", routeID, 0, 0, payload, []) }

  function OpenFrame(id: uint64): Frame { Frame(STREAM_OPEN, "", 0, id, 0, [], []) }

  function DataFrame(id: uint64, sequence: uint64, payload: Bytes): Frame {
    Frame(STREAM_DATA, "", 0, id, sequence, payload, [])
  }

  function CloseFrame(id: uint64): Frame { Frame(STREAM_CLOSE, "", 0, id, 0, [], []) }

  // ----- adapter names

  function NormalizeAdapter(kind: string): string {
    var t := TrimSpace(kind);
    if t == "" || t == "udp" then "udp" else if t == "tcp" then "tcp" else kind
  }

  predicate SupportedPair(ingress: string, egress: string) {
    var i, e := NormalizeAdapter(ingress), NormalizeAdapter(egress);
    (i == "udp" && e == "udp") || (i == "tcp" && e == "tcp")
  }

  /** Two adapters go together exactly if both names, trimmed, are tcp, or both are udp or empty. */
  lemma PairsExactly(ingress: string, egress: string)
    ensures var i, e := TrimSpace(ingress), TrimSpace(egress);
            SupportedPair(ingress, egress) <==> (i in {"", "udp"} && e in {"", "udp"}) || (i == "tcp" && e == "tcp")
  {
    NormalizedExactly(ingress);
    NormalizedExactly(egress);
  }

  lemma NormalizedExactly(kind: string)
    ensures NormalizeAdapter(kind) == "udp" <==> TrimSpace(kind) in {"", "udp"}
    ensures NormalizeAdapter(kind) == "tcp" <==> TrimSpace(kind) == "tcp"
  {
    NormalizedNames();
  }

  function AdapterCode(kind: string): Result<byte> {
    match NormalizeAdapter(kind)
    case "udp" => Ok(1)
    case "tcp" => Ok(2)
    case _ => Err(UnsupportedAdapter)
  }

  function AdapterFromCode(code: byte): Result<string> {
    if code == 1 then Ok("udp") else if code == 2 then Ok("tcp") else Err(UnsupportedAdapter)
  }

  lemma NormalizeIsIdempotent(kind: string)
    ensures NormalizeAdapter(NormalizeAdapter(kind)) == NormalizeAdapter(kind)
  {
    NormalizedNames();
  }

  lemma NormalizedNames()
    ensures NormalizeAdapter("udp") == "udp" && NormalizeAdapter("tcp") == "tcp" && NormalizeAdapter("") == "udp"
  {
    assert TrimLeft("udp") == "udp" && TrimRight("udp") == "udp";
    assert TrimLeft("tcp") == "tcp" && TrimRight("tcp") == "tcp";
  }

  // ----- big-endian integers

  function Pow256(n: nat): nat {
    if n == 0 then 1 else 256 * Pow256(n - 1)
  }

  function BigEndian(width: nat, x: nat): (b: Bytes)
    ensures |b| == width
  {
    if width == 0 then [] else BigEndian(width - 1, x / 256) + [x % 256]
  }

  function FromBigEndian(b: Bytes): (x: nat)
    ensures x < Pow256(|b|)
  {
    if b == [] then 0 else FromBigEndian(b[..|b| - 1]) * 256 + b[|b| - 1]
  }

  lemma {:induction false} BigEndianRoundTrip(width: nat, x: nat)
    requires x < Pow256(width)
    ensures FromBigEndian(BigEndian(width, x)) == x
  {
    if width > 0 {
      BigEndianRoundTrip(width - 1, x / 256);
      var b := BigEndian(width, x);
      assert b[..width - 1] == BigEndian(width - 1, x / 256);
    }
  }

  lemma {:induction false} BigEndianUnique(b: Bytes)
    ensures BigEndian(|b|, FromBigEndian(b)) == b
  {
    if b != [] {
      BigEndianUnique(b[..|b| - 1]);
      assert b == b[..|b| - 1] + [b[|b| - 1]];
    }
  }

  lemma Pow256Of8()
    ensures Pow256(8) == UINT64_LIMIT
  {
    assert Pow256(4) == 0x1_0000_0000;
    assert Pow256(8) == 256 * 256 * 256 * 256 * Pow256(4);
  }

  function PutUint64(x: uint64): (b: Bytes)
    ensures |b| == 8
  {
    BigEndian(8, x)
  }

  function Uint64(b: Bytes): uint64
    requires |b| == 8
  {
    Pow256Of8();
    FromBigEndian(b)
  }

  // ----- the codec

  function MarshalBinary(f: Frame): Result<Bytes> {
    if f.kind == HELLO || f.kind == HELLO_ACK then
      match AdapterCode(f.adapter)
      case Ok(code) => Ok([f.kind, code])
      case Err(e) => Err(e)
    else if f.kind == HELLO_REJECT then
      Ok([f.kind] + f.reason)
    else if f.kind == DATAGRAM then
      Ok([f.kind] + PutUint64(f.routeID) + f.payload)
    else if f.kind == STREAM_OPEN || f.kind == STREAM_CLOSE then
      Ok([f.kind] + PutUint64(f.streamID))
    else if f.kind == STREAM_DATA then
      Ok([f.kind] + PutUint64(f.streamID) + PutUint64(f.sequence) + f.payload)
    else
      Err(UnsupportedKind)
  }

  const Blank := Frame(0, "", 0, 0, 0, [], [])

  function UnmarshalFrame(data: Bytes): Result<Frame> {
    if data == [] then Err(Empty) else
    var kind, payload := data[0], data[1..];
    if kind == HELLO || kind == HELLO_ACK then
      if |payload| != 1 then Err(Malformed) else
      match AdapterFromCode(payload[0])
      case Ok(adapter) => Ok(Blank.(kind := kind, adapter := adapter))
      case Err(e) => Err(e)
    else if kind == HELLO_REJECT then
      Ok(Blank.(kind := kind, reason := payload))
    else if kind == DATAGRAM then
      if |payload| < 8 then Err(Malformed) else
      Ok(Blank.(kind := kind, routeID := Uint64(payload[..8]), payload := payload[8..]))
    else if kind == STREAM_OPEN || kind == STREAM_CLOSE then
      if |payload| != 8 then Err(Malformed) else
      Ok(Blank.(kind := kind, streamID := Uint64(payload[..8])))
    else if kind == STREAM_DATA then
      if |payload| < 16 then Err(Malformed) else
      Ok(Blank.(kind := kind, streamID := Uint64(payload[..8]), sequence := Uint64(payload[8..16]),
                payload := payload[16..]))
    else
      Err(UnsupportedKind)
  }

  /** The frame a receiver can learn from an encoding: the fields its kind does not use are cleared
      and the adapter is written by its normal name. */
  function Canonical(f: Frame): Frame {
    if f.kind == HELLO || f.kind == HELLO_ACK then Blank.(kind := f.kind, adapter := NormalizeAdapter(f.adapter))
    else if f.kind == HELLO_REJECT then Blank.(kind := f.kind, reason := f.reason)
    else if f.kind == DATAGRAM then Blank.(kind := f.kind, routeID := f.routeID, payload := f.payload)
    else if f.kind == STREAM_OPEN || f.kind == STREAM_CLOSE then Blank.(kind := f.kind, streamID := f.streamID)
    else if f.kind == STREAM_DATA then
      Blank.(kind := f.kind, streamID := f.streamID, sequence := f.sequence, payload := f.payload)
    else f
  }

  lemma Uint64RoundTrip(x: uint64)
    ensures Uint64(PutUint64(x)) == x
  {
    Pow256Of8();
    BigEndianRoundTrip(8, x);
  }

  lemma Uint64Unique(b: Bytes)
    requires |b| == 8
    ensures PutUint64(Uint64(b)) == b
  {
    BigEndianUnique(b);
  }

  /** An encoding fails exactly for a kind outside 1..7 and for a hello with an unknown adapter. */
  lemma EncodingFailsExactly(f: Frame)
    ensures MarshalBinary(f).Ok? <==>
            (HELLO <= f.kind <= STREAM_CLOSE &&
             (f.kind <= HELLO_ACK ==> NormalizeAdapter(f.adapter) in {"udp", "tcp"}))
  {
    var n := NormalizeAdapter(f.adapter);
    assert n == "udp" || n == "tcp" || (n != "udp" && n != "tcp");
  }

  /** Decoding an encoded frame gives its canonical form. */
  lemma DecodeEncode(f: Frame)
    requires MarshalBinary(f).Ok?
    ensures UnmarshalFrame(MarshalBinary(f).value) == Ok(Canonical(f))
  {
    var b := MarshalBinary(f).value;
    var p := b[1..];
    if f.kind == DATAGRAM {
      Uint64RoundTrip(f.routeID);
      assert p == PutUint64(f.routeID) + f.payload;
      assert p[..8] == PutUint64(f.routeID) && p[8..] == f.payload;
    } else if f.kind == STREAM_OPEN || f.kind == STREAM_CLOSE {
      Uint64RoundTrip(f.streamID);
      assert p[..8] == PutUint64(f.streamID);
    } else if f.kind == STREAM_DATA {
      Uint64RoundTrip(f.streamID);
      Uint64RoundTrip(f.sequence);
      assert p == PutUint64(f.streamID) + PutUint64(f.sequence) + f.payload;
      assert p[..8] == PutUint64(f.streamID) && p[8..16] == PutUint64(f.sequence) && p[16..] == f.payload;
    } else if f.kind == HELLO_REJECT {
      assert p == f.reason;
    } else {
      NormalizedNames();
    }
  }

  /** Every byte string the decoder accepts is the encoding of what it decodes to. */
  lemma EncodeDecode(b: Bytes)
    requires UnmarshalFrame(b).Ok?
    ensures MarshalBinary(UnmarshalFrame(b).value) == Ok(b)
  {
    var kind, p := b[0], b[1..];
    assert b == [kind] + p;
    if kind == DATAGRAM {
      Uint64Unique(p[..8]);
      assert b == [kind] + p[..8] + p[8..];
    } else if kind == STREAM_OPEN || kind == STREAM_CLOSE {
      Uint64Unique(p[..8]);
      assert p == p[..8];
    } else if kind == STREAM_DATA {
      Uint64Unique(p[..8]);
      Uint64Unique(p[8..16]);
      assert b == [kind] + p[..8] + p[8..16] + p[16..];
    } else if kind != HELLO_REJECT {
      NormalizedNames();
      assert b == [kind, p[0]];
    }
  }

  /** Two frames have one encoding exactly when a receiver cannot tell them apart. */
  lemma EncodingsAreUnique(f: Frame, g: Frame)
    requires MarshalBinary(f).Ok? && MarshalBinary(g).Ok?
    ensures MarshalBinary(f) == MarshalBinary(g) <==> Canonical(f) == Canonical(g)
  {
    DecodeEncode(f);
    DecodeEncode(g);
    EncodeDecode(MarshalBinary(f).value);
    EncodeDecode(MarshalBinary(g).value);
  }

  // ----- the layout on the wire

  /** x stands at this place, the most significant of its eight bytes first. */
  predicate HasNumber(b: Bytes, at: nat, x: uint64) {
    at + 8 <= |b| &&
    x == ((((((b[at] as int * 256 + b[at + 1]) * 256 + b[at + 2]) * 256 + b[at + 3]) * 256 + b[at + 4]) * 256 + b[at + 5]) * 256
          + b[at + 6]) * 256 + b[at + 7]
  }

  lemma OneMoreByte(b: Bytes, n: nat)
    requires n < |b|
    ensures FromBigEndian(b[..n + 1]) == FromBigEndian(b[..n]) * 256 + b[n]
  {
    assert b[..n + 1][..n] == b[..n];
  }

  lemma NumberOf(x: uint64)
    ensures HasNumber(PutUint64(x), 0, x)
  {
    var b := PutUint64(x);
    Uint64RoundTrip(x);
    assert b[..8] == b && b[..0] == [];
    OneMoreByte(b, 0);
    OneMoreByte(b, 1);
    OneMoreByte(b, 2);
    OneMoreByte(b, 3);
    OneMoreByte(b, 4);
    OneMoreByte(b, 5);
    OneMoreByte(b, 6);
    OneMoreByte(b, 7);
  }

  lemma NumberAt(a: Bytes, x: uint64, c: Bytes)
    ensures HasNumber(a + PutUint64(x) + c, |a|, x)
  {
    NumberOf(x);
    var b := a + PutUint64(x) + c;
    assert forall i :: 0 <= i < 8 ==> b[|a| + i] == PutUint64(x)[i];
  }

  /** Where each kind of frame has its fields: the kind in the first byte, then eight bytes for each number, the rest for
      the payload or the reason; a hello has one byte for its adapter. */
  lemma WireLayout(f: Frame)
    requires MarshalBinary(f).Ok?
    ensures var b := MarshalBinary(f).value;
            && |b| > 0 && b[0] == f.kind
            && (f.kind in {1, 2} ==> |b| == 2 && b[1] == (if TrimSpace(f.adapter) == "tcp" then 2 else 1))
            && (f.kind == 3 ==> b[1..] == f.reason)
            && (f.kind == 4 ==> HasNumber(b, 1, f.routeID) && b[9..] == f.payload)
            && (f.kind in {5, 7} ==> |b| == 9 && HasNumber(b, 1, f.streamID))
            && (f.kind == 6 ==> HasNumber(b, 1, f.streamID) && HasNumber(b, 9, f.sequence) && b[17..] == f.payload)
  {
    var b := MarshalBinary(f).value;
    if f.kind in {1, 2} {
      NormalizedExactly(f.adapter);
    } else if f.kind == 4 {
      NumberAt([f.kind], f.routeID, f.payload);
    } else if f.kind in {5, 7} {
      NumberAt([f.kind], f.streamID, []);
      assert b == [f.kind] + PutUint64(f.streamID) + [];
    } else if f.kind == 6 {
      DataLayout(f);
    }
  }

  lemma DataLayout(f: Frame)
    requires f.kind == STREAM_DATA
    ensures var b := MarshalBinary(f).value;
            && MarshalBinary(f).Ok? && |b| >= 17 && b[0] == f.kind
            && HasNumber(b, 1, f.streamID) && HasNumber(b, 9, f.sequence) && b[17..] == f.payload
  {
    var b := MarshalBinary(f).value;
    NumberAt([f.kind], f.streamID, PutUint64(f.sequence) + f.payload);
    NumberAt([f.kind] + PutUint64(f.streamID), f.sequence, f.payload);
    assert b == [f.kind] + PutUint64(f.streamID) + (PutUint64(f.sequence) + f.payload);
  }

  // ----- the endpoint

  /** What an endpoint makes of one datagram: one that fills the read buffer counts as truncated. */
  function ReadDatagram(datagram: Bytes): Result<Frame> {
    if |datagram| >= MAX_FRAME_SIZE then Err(TooLarge) else UnmarshalFrame(datagram)
  }

  /** Frames as the forwarding loops build them: one read of a bounded local buffer. */
  predicate LoopFrame(f: Frame) {
    || (f.kind == DATAGRAM && f == DatagramFrame(f.routeID, f.payload) && |f.payload| <= DATAGRAM_BUFFER_SIZE)
    || f == OpenFrame(f.streamID)
    || (f == DataFrame(f.streamID, f.sequence, f.payload) && |f.payload| <= STREAM_CHUNK_SIZE)
    || f == CloseFrame(f.streamID)
  }

  function Wire(f: Frame): Bytes
    requires LoopFrame(f)
  {
    MarshalBinary(f).value
  }

  /** Every frame the loops build fits the peer's read buffer and arrives unchanged. */
  lemma LoopFramesArrive(f: Frame)
    requires LoopFrame(f)
    ensures MarshalBinary(f).Ok?
    ensures |Wire(f)| <= 9 + DATAGRAM_BUFFER_SIZE < MAX_FRAME_SIZE
    ensures ReadDatagram(Wire(f)) == Ok(f)
  {
    DecodeEncode(f);
  }

  /** A datagram is read exactly if it does not fill the buffer and is the encoding of some frame. */
  lemma DatagramsReadExactly(datagram: Bytes)
    ensures ReadDatagram(datagram).Ok? <==> |datagram| < 65536 && exists f :: MarshalBinary(f) == Ok(datagram)
  {
    if UnmarshalFrame(datagram).Ok? {
      EncodeDecode(datagram);
    }
    if f :| MarshalBinary(f) == Ok(datagram) {
      DecodeEncode(f);
    }
  }

  /** One packet connection with its reusable read buffer. */
  class Endpoint {
    const buf: array<byte>

    constructor ()
      ensures fresh(buf) && buf.Length == MAX_FRAME_SIZE
    {
      buf := new byte[MAX_FRAME_SIZE](_ => 0);
    }

    /** A datagram longer than the buffer is cut off by the connection's Read. The payload is copied out
        of the buffer, so the result depends only on the datagram, not on what the buffer held. */
    method ReadFrame(datagram: Bytes) returns (r: Result<Frame>)
      requires buf.Length == MAX_FRAME_SIZE
      modifies buf
      ensures r == ReadDatagram(datagram)
    {
      var n := 0;
      while n < buf.Length && n < |datagram|
        invariant 0 <= n <= buf.Length && n <= |datagram|
        invariant buf[..n] == datagram[..n]
      {
        buf[n] := datagram[n];
        n := n + 1;
      }
      if n == buf.Length {
        return Err(TooLarge);
      }
      assert buf[..n] == datagram;
      r := UnmarshalFrame(buf[..n]);
    }
  }
}
