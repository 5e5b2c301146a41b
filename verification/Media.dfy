/** Media datagrams (sp-protocol/src/media.rs), alone and inside a typed stream. */
module Media {
  import opened Common
  import opened BigEndian
  import Framing

  const MEDIA_HEADER_VERSION: byte := 1
  const MAX_MEDIA_PAYLOAD: nat := 1100

  type u32 = n: int | 0 <= n < 0x1_0000_0000

  datatype Codec = PcmS16Le | Opus

  /** Flags are kept as they are: any of the 256 values is legal. */
  datatype Header = Header(route: byte, codec: Codec, flags: byte, timestamp: u64, sequence: u32)

  datatype Packet = Packet(header: Header, payload: seq<byte>)

  datatype Error =
    | TooShort(len: nat, need: nat)
    | PayloadTooLarge(size: nat, max: nat)
    | UnsupportedVersion(version: byte)
    | UnknownCodec(code: byte)

  datatype Result<+T> = Ok(value: T) | Err(error: Error)

  function Code(c: Codec): byte { if c == PcmS16Le then 1 else 2 }

  function FromCode(b: byte): Result<Codec> {
    if b == 1 then Ok(PcmS16Le) else if b == 2 then Ok(Opus) else Err(UnknownCodec(b))
  }

  function HeaderBytes(h: Header): (b: seq<byte>)
    ensures |b| == Framing.MEDIA_HEADER_LEN
  {
    [MEDIA_HEADER_VERSION, h.route, Code(h.codec), h.flags] + Bytes(h.timestamp, 8) + Bytes(h.sequence, 4)
  }

  function Encode(p: Packet): Result<seq<byte>> {
    if |p.payload| > MAX_MEDIA_PAYLOAD then Err(PayloadTooLarge(|p.payload|, MAX_MEDIA_PAYLOAD))
    else Ok(HeaderBytes(p.header) + p.payload)
  }

  /** A receiver accepts larger payloads than a sender produces. */
  function Decode(d: seq<byte>): Result<Packet> {
    if |d| < 16 then Err(TooShort(|d|, 16))
    else if |d| - 16 > Framing.MAX_ACCEPTED_MEDIA_PAYLOAD then
      Err(PayloadTooLarge(|d| - 16, Framing.MAX_ACCEPTED_MEDIA_PAYLOAD))
    else if d[0] != MEDIA_HEADER_VERSION then Err(UnsupportedVersion(d[0]))
    else match FromCode(d[2])
      case Err(e) => Err(e)
      case Ok(codec) => Ok(Packet(Header(d[1], codec, d[3], Stamp(d[4..12]), Sequence(d[12..16])), d[16..]))
  }

  function Stamp(b: seq<byte>): u64
    requires |b| == 8
  {
    Pow256Values();
    BytesValue(b);
    Value(b)
  }

  function Sequence(b: seq<byte>): u32
    requires |b| == 4
  {
    Pow256Values();
    BytesValue(b);
    Value(b)
  }

  /** Which datagrams are refused, and with what. */
  lemma RefusesExactly(d: seq<byte>)
    ensures Decode(d).Ok? <==> 16 <= |d| <= 1216 && d[0] == 1 && (d[2] == 1 || d[2] == 2)
    ensures |d| < 16 ==> Decode(d) == Err(TooShort(|d|, 16))
    ensures |d| > 1216 ==> Decode(d) == Err(PayloadTooLarge(|d| - 16, 1200))
    ensures 16 <= |d| <= 1216 && d[0] != 1 ==> Decode(d) == Err(UnsupportedVersion(d[0]))
    ensures 16 <= |d| <= 1216 && d[0] == 1 && d[2] != 1 && d[2] != 2 ==> Decode(d) == Err(UnknownCodec(d[2]))
  {
  }

  /** Every packet a sender can produce is decoded to itself. */
  lemma DecodesBack(p: Packet)
    requires Encode(p).Ok?
    ensures Decode(Encode(p).value) == Ok(p)
  {
    var h, d := p.header, Encode(p).value;
    Pow256Values();
    ValueBytes(h.timestamp, 8);
    ValueBytes(h.sequence, 4);
    assert d[4..12] == Bytes(h.timestamp, 8);
    assert d[12..16] == Bytes(h.sequence, 4);
    assert d[16..] == p.payload;
  }

  /** Every datagram a receiver accepts is the encoding of the packet it decodes to; so decoding is
      injective. The sender's smaller limit alone decides whether it could have been sent. */
  lemma EncodesBack(d: seq<byte>)
    requires Decode(d).Ok?
    ensures var p := Decode(d).value;
            && d == HeaderBytes(p.header) + p.payload
            && (|d| <= 16 + MAX_MEDIA_PAYLOAD <==> Encode(p) == Ok(d))
  {
    BytesValue(d[4..12]);
    BytesValue(d[12..16]);
    assert d == [d[0], d[1], d[2], d[3]] + d[4..12] + d[12..16] + d[16..];
  }

  /** The frame that carries a packet on a stream. */
  function Carrier(p: Packet): Framing.Frame
    requires Encode(p).Ok?
  {
    Framing.Frame(Some(Framing.Datagram), Encode(p).value)
  }

  /** An encodable packet always fits a Datagram frame. */
  lemma PacketFits(p: Packet)
    requires Encode(p).Ok?
    ensures Framing.Encodable(Framing.Typed, Carrier(p))
  {
  }

  ghost predicate AllSendable(ps: seq<Packet>) { forall i :: 0 <= i < |ps| ==> Encode(ps[i]).Ok? }

  ghost function Carriers(ps: seq<Packet>): (fs: seq<Framing.Frame>)
    requires AllSendable(ps)
    ensures |fs| == |ps| && forall i :: 0 <= i < |ps| ==> fs[i] == Carrier(ps[i])
  {
    seq(|ps|, i requires 0 <= i < |ps| => Carrier(ps[i]))
  }

  /** Packets sent over a stream arrive as they were, however the stream is cut into chunks. */
  lemma PacketsSurviveStream(ps: seq<Packet>, chunks: seq<seq<byte>>)
    requires AllSendable(ps) && Framing.Concat(chunks) == Framing.WireAll(Carriers(ps))
    ensures var d := Framing.DrainChunks(Framing.Typed, chunks);
            && d.error.None? && d.buf == [] && |d.frames| == |ps|
            && forall i :: 0 <= i < |ps| ==>
                 d.frames[i].kind == Some(Framing.Datagram) && Decode(d.frames[i].payload) == Ok(ps[i])
  {
    var fs := Carriers(ps);
    forall i | 0 <= i < |ps| ensures Framing.Encodable(Framing.Typed, fs[i]) && Decode(fs[i].payload) == Ok(ps[i]) {
      PacketFits(ps[i]);
      DecodesBack(ps[i]);
    }
    Framing.ChunkingIrrelevant(Framing.Typed, chunks);
    Framing.DecodesBack(Framing.Typed, fs);
    hide Decode, Encode, Framing.Encodable;
  }

  /** The encoder as it runs: fields are put one after the other. */
  method EncodePacket(p: Packet) returns (r: Result<seq<byte>>)
    ensures r == Encode(p)
  {
    if |p.payload| > MAX_MEDIA_PAYLOAD { return Err(PayloadTooLarge(|p.payload|, MAX_MEDIA_PAYLOAD)); }
    var buf: seq<byte> := [MEDIA_HEADER_VERSION];
    buf := buf + [p.header.route];
    buf := buf + [Code(p.header.codec)];
    buf := buf + [p.header.flags];
    assert buf == [MEDIA_HEADER_VERSION, p.header.route, Code(p.header.codec), p.header.flags];
    buf := buf + Bytes(p.header.timestamp, 8);
    buf := buf + Bytes(p.header.sequence, 4);
    buf := buf + p.payload;
    return Ok(buf);
  }

  /** The decoder as it runs: a cursor advances over the datagram. */
  method DecodePacket(datagram: seq<byte>) returns (r: Result<Packet>)
    ensures r == Decode(datagram)
  {
    if |datagram| < 16 { return Err(TooShort(|datagram|, 16)); }
    var size := |datagram| - 16;
    if size > Framing.MAX_ACCEPTED_MEDIA_PAYLOAD { return Err(PayloadTooLarge(size, Framing.MAX_ACCEPTED_MEDIA_PAYLOAD)); }
    var version, rest := datagram[0], datagram[1..];
    if version != MEDIA_HEADER_VERSION { return Err(UnsupportedVersion(version)); }
    var route := rest[0];
    rest := rest[1..];
    var codec := FromCode(rest[0]);
    if codec.Err? { return Err(codec.error); }
    rest := rest[1..];
    var flags := rest[0];
    rest := rest[1..];
    assert rest == datagram[4..];
    assert rest[..8] == datagram[4..12] && rest[8..][..4] == datagram[12..16] && rest[12..] == datagram[16..];
    var stamp := Stamp(rest[..8]);
    rest := rest[8..];
    var sequence := Sequence(rest[..4]);
    rest := rest[4..];
    return Ok(Packet(Header(route, codec.value, flags, stamp, sequence), rest));
  }
}
