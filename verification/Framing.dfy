/** Big-endian integers of any width. */
module BigEndian {
  import opened Common

  function Pow256(k: nat): nat { if k == 0 then 1 else 256 * Pow256(k - 1) }

  /** The lowest `k` bytes of `n`, most significant first. */
  function Bytes(n: nat, k: nat): (b: seq<byte>)
    ensures |b| == k
  {
    if k == 0 then [] else Bytes(n / 256, k - 1) + [n % 256]
  }

  function Value(b: seq<byte>): nat {
    if b == [] then 0 else 256 * Value(b[..|b| - 1]) + b[|b| - 1]
  }

  lemma {:induction false} ValueBytes(n: nat, k: nat)
    requires n < Pow256(k)
    ensures Value(Bytes(n, k)) == n
  {
    if k > 0 {
      ValueBytes(n / 256, k - 1);
      assert Bytes(n, k)[..k - 1] == Bytes(n / 256, k - 1);
    }
  }

  lemma {:induction false} BytesValue(b: seq<byte>)
    ensures Bytes(Value(b), |b|) == b && Value(b) < Pow256(|b|)
  {
    if b != [] {
      BytesValue(b[..|b| - 1]);
      assert b == b[..|b| - 1] + [b[|b| - 1]];
    }
  }

  lemma Pow256Values()
    ensures Pow256(2) == 0x1_0000 && Pow256(4) == 0x1_0000_0000 && Pow256(8) == 0x1_0000_0000_0000_0000
  {
    assert Pow256(2) == 0x1_0000;
    assert Pow256(4) == 0x1_0000_0000;
    assert Pow256(6) == 0x1_0000_0000_0000;
  }
}

/**
 Length-prefixed framing of byte streams (sp-protocol/src/framing.rs): plain control frames and the
 typed frames multiplexed on one TLS-over-TCP stream.
 */
module Framing {
  import opened Common
  import opened BigEndian

  const MAX_CONTROL_FRAME: nat := 64 * 1024
  const MEDIA_HEADER_LEN: nat := 16
  const MAX_ACCEPTED_MEDIA_PAYLOAD: nat := 1200
  const MAX_MEDIA_FRAME: nat := MEDIA_HEADER_LEN + MAX_ACCEPTED_MEDIA_PAYLOAD
  const MAX_SMALL_FRAME: nat := 256
  const U32_SPAN: nat := 0x1_0000_0000

  datatype Kind = Control | Datagram | Ping | Pong | Close

  datatype Error = FrameTooLarge(len: nat, max: nat) | UnknownFrameKind(code: byte)

  datatype Result<+T> = Ok(value: T) | Err(error: Error)

  function Code(kind: Kind): byte {
    match kind case Control => 1 case Datagram => 2 case Ping => 3 case Pong => 4 case Close => 5
  }

  function FromCode(code: byte): Result<Kind> {
    match code
    case 1 => Ok(Control)
    case 2 => Ok(Datagram)
    case 3 => Ok(Ping)
    case 4 => Ok(Pong)
    case 5 => Ok(Close)
    case other => Err(UnknownFrameKind(other))
  }

  function MaxLen(kind: Kind): nat {
    match kind
    case Control => MAX_CONTROL_FRAME
    case Datagram => MAX_MEDIA_FRAME
    case _ => MAX_SMALL_FRAME
  }

  /** The two formats: `length | payload` with a given limit, and `kind | length | payload`. */
  datatype Format = Plain(max: nat) | Typed

  /** A frame; plain frames have no kind. */
  datatype Frame = Frame(kind: Option<Kind>, payload: seq<byte>)

  function HeaderLen(fmt: Format): nat { if fmt.Plain? then 4 else 5 }

  function Limit(fmt: Format, kind: Option<Kind>): nat {
    match fmt
    case Plain(max) => max
    case Typed => if kind.Some? then MaxLen(kind.value) else 0
  }

  /** The largest payload of any frame of the format. */
  function Largest(fmt: Format): nat { if fmt.Plain? then fmt.max else MAX_CONTROL_FRAME }

  predicate Belongs(fmt: Format, kind: Option<Kind>) { fmt.Plain? <==> kind.None? }

  // ---------------------------------------------------------------- encoding

  function Prefix(kind: Option<Kind>): seq<byte> { if kind.Some? then [Code(kind.value)] else [] }

  /** The bytes of a frame; the length is cast to 32 bits. */
  function Wire(f: Frame): seq<byte> { Prefix(f.kind) + Bytes(|f.payload|, 4) + f.payload }

  function Encode(fmt: Format, f: Frame): Result<seq<byte>> {
    if |f.payload| > Limit(fmt, f.kind) then Err(FrameTooLarge(|f.payload|, Limit(fmt, f.kind))) else Ok(Wire(f))
  }

  /** Frames the encoder accepts and whose length the 32-bit field can hold. */
  predicate Encodable(fmt: Format, f: Frame) {
    Belongs(fmt, f.kind) && Encode(fmt, f).Ok? && |f.payload| < U32_SPAN
  }

  ghost predicate AllEncodable(fmt: Format, frames: seq<Frame>) {
    forall i :: 0 <= i < |frames| ==> Encodable(fmt, frames[i])
  }

  function WireAll(frames: seq<Frame>): seq<byte> {
    if frames == [] then [] else Wire(frames[0]) + WireAll(frames[1..])
  }

  // ---------------------------------------------------------------- decoding

  /** What the first bytes of the buffer announce. */
  function Header(fmt: Format, h: seq<byte>): Result<(Option<Kind>, nat)>
    requires |h| == HeaderLen(fmt)
  {
    match fmt
    case Plain(max) => CheckLen(None, Value(h), max)
    case Typed =>
      match FromCode(h[0])
      case Err(e) => Err(e)
      case Ok(kind) => CheckLen(Some(kind), Value(h[1..]), MaxLen(kind))
  }

  function CheckLen(kind: Option<Kind>, len: nat, max: nat): Result<(Option<Kind>, nat)> {
    if len > max then Err(FrameTooLarge(len, max)) else Ok((kind, len))
  }

  datatype Parse = NeedMore | Bad(error: Error) | Got(frame: Frame, rest: seq<byte>)

  /** One call of `next_frame`. */
  function Next(fmt: Format, buf: seq<byte>): (p: Parse)
    ensures p.Got? ==> |p.rest| < |buf|
  {
    var n := HeaderLen(fmt);
    if |buf| < n then NeedMore else
    match Header(fmt, buf[..n])
    case Err(e) => Bad(e)
    case Ok(h) =>
      if |buf| < n + h.1 then NeedMore
      else Got(Frame(h.0, buf[n..n + h.1]), buf[n + h.1..])
  }

  /** What calling `next_frame` until it has no more yields. */
  datatype Drained = Drained(frames: seq<Frame>, buf: seq<byte>, error: Option<Error>)

  function Drain(fmt: Format, buf: seq<byte>): Drained
    decreases |buf|
  {
    match Next(fmt, buf)
    case NeedMore => Drained([], buf, None)
    case Bad(e) => Drained([], buf, Some(e))
    case Got(f, rest) =>
      var d := Drain(fmt, rest);
      d.(frames := [f] + d.frames)
  }

  /** Draining what one more chunk adds to a drained buffer. */
  function Feed(fmt: Format, d: Drained, chunk: seq<byte>): Drained {
    var e := Drain(fmt, d.buf + chunk);
    e.(frames := d.frames + e.frames)
  }

  /** Draining after each chunk of a stream. */
  function DrainChunks(fmt: Format, chunks: seq<seq<byte>>): Drained {
    if chunks == [] then Drained([], [], None)
    else Feed(fmt, DrainChunks(fmt, chunks[..|chunks| - 1]), chunks[|chunks| - 1])
  }

  function Concat(chunks: seq<seq<byte>>): seq<byte> {
    if chunks == [] then [] else Concat(chunks[..|chunks| - 1]) + chunks[|chunks| - 1]
  }

  // ---------------------------------------------------------------- independence from chunking

  lemma NextStable(fmt: Format, buf: seq<byte>, more: seq<byte>)
    ensures Next(fmt, buf).Bad? ==> Next(fmt, buf + more) == Next(fmt, buf)
    ensures Next(fmt, buf).Got? ==> Next(fmt, buf + more) == Got(Next(fmt, buf).frame, Next(fmt, buf).rest + more)
  {
    var n := HeaderLen(fmt);
    if |buf| >= n {
      assert (buf + more)[..n] == buf[..n];
      match Header(fmt, buf[..n])
      case Err(_) =>
      case Ok(h) =>
        if |buf| >= n + h.1 {
          assert (buf + more)[n..n + h.1] == buf[n..n + h.1];
          assert (buf + more)[n + h.1..] == buf[n + h.1..] + more;
        }
    }
  }

  lemma {:induction false} DrainAppend(fmt: Format, buf: seq<byte>, more: seq<byte>)
    ensures Drain(fmt, buf + more) == Feed(fmt, Drain(fmt, buf), more)
    decreases |buf|
  {
    NextStable(fmt, buf, more);
    match Next(fmt, buf)
    case Got(f, rest) =>
      DrainAppend(fmt, rest, more);
      var d := Drain(fmt, rest);
      assert [f] + (d.frames + Drain(fmt, d.buf + more).frames) == ([f] + d.frames) + Drain(fmt, d.buf + more).frames;
    case _ =>
      assert [] + Drain(fmt, buf + more).frames == Drain(fmt, buf + more).frames;
  }

  /** However a stream is split, draining after each chunk yields the frames, the error and the
      leftover bytes of draining it whole. */
  lemma {:induction false} ChunkingIrrelevant(fmt: Format, chunks: seq<seq<byte>>)
    ensures DrainChunks(fmt, chunks) == Drain(fmt, Concat(chunks))
  {
    if chunks != [] {
      ChunkingIrrelevant(fmt, chunks[..|chunks| - 1]);
      DrainAppend(fmt, Concat(chunks[..|chunks| - 1]), chunks[|chunks| - 1]);
    }
  }

  /** An error is final: whatever arrives later, the same error is returned and no frame. */
  lemma {:induction false} ErrorSticky(fmt: Format, buf: seq<byte>, more: seq<byte>)
    requires Drain(fmt, buf).error.Some?
    ensures Next(fmt, Drain(fmt, buf).buf + more) == Bad(Drain(fmt, buf).error.value)
    ensures Drain(fmt, buf + more).frames == Drain(fmt, buf).frames && Drain(fmt, buf + more).error == Drain(fmt, buf).error
    decreases |buf|
  {
    NextStable(fmt, buf, more);
    if Next(fmt, buf).Got? { ErrorSticky(fmt, Next(fmt, buf).rest, more); }
  }

  /** A drained buffer without an error is shorter than a header plus the largest payload. */
  lemma {:induction false} LeftoverBounded(fmt: Format, buf: seq<byte>)
    requires Drain(fmt, buf).error.None?
    ensures |Drain(fmt, buf).buf| < HeaderLen(fmt) + Largest(fmt) || |Drain(fmt, buf).buf| < HeaderLen(fmt)
    decreases |buf|
  {
    if Next(fmt, buf).Got? { LeftoverBounded(fmt, Next(fmt, buf).rest); }
  }

  // ---------------------------------------------------------------- round trips

  lemma HeaderOfEncoded(fmt: Format, f: Frame)
    requires Encodable(fmt, f)
    ensures var b := Wire(f);
            && |b| == HeaderLen(fmt) + |f.payload|
            && Header(fmt, b[..HeaderLen(fmt)]) == Ok((f.kind, |f.payload|))
            && b[HeaderLen(fmt)..] == f.payload
  {
    Pow256Values();
    ValueBytes(|f.payload|, 4);
    if fmt.Plain? {
      assert Wire(f)[..4] == Bytes(|f.payload|, 4);
    } else {
      assert Wire(f)[..5][1..] == Bytes(|f.payload|, 4);
    }
  }

  lemma NextOfEncoded(fmt: Format, f: Frame, more: seq<byte>)
    requires Encodable(fmt, f)
    ensures Next(fmt, Wire(f) + more) == Got(f, more)
  {
    hide Wire, Header;
    HeaderOfEncoded(fmt, f);
    var b, n := Wire(f), HeaderLen(fmt);
    assert (b + more)[..n] == b[..n];
    assert (b + more)[n..n + |f.payload|] == b[n..];
    assert (b + more)[n + |f.payload|..] == more;
  }

  /** Any list of encodable frames decodes back exactly, with nothing left over. */
  lemma {:induction false} DecodesBack(fmt: Format, frames: seq<Frame>)
    requires AllEncodable(fmt, frames)
    ensures Drain(fmt, WireAll(frames)) == Drained(frames, [], None)
    decreases |frames|
  {
    hide Wire, Next, Encodable;
    if frames == [] {
      NothingToDrain(fmt);
    } else {
      NextOfEncoded(fmt, frames[0], WireAll(frames[1..]));
      DecodesBack(fmt, frames[1..]);
      assert [frames[0]] + frames[1..] == frames;
    }
  }

  lemma NothingToDrain(fmt: Format)
    ensures Drain(fmt, []) == Drained([], [], None)
  {
  }

  lemma HeaderIsEncoded(fmt: Format, h: seq<byte>)
    requires |h| == HeaderLen(fmt) && Header(fmt, h).Ok?
    ensures var (kind, len) := Header(fmt, h).value;
            && Belongs(fmt, kind) && len <= Limit(fmt, kind) && len < U32_SPAN
            && h == Prefix(kind) + Bytes(len, 4)
  {
    Pow256Values();
    if fmt.Plain? {
      BytesValue(h);
    } else {
      BytesValue(h[1..]);
      assert h == [h[0]] + h[1..];
    }
  }

  lemma NextIsEncoded(fmt: Format, buf: seq<byte>)
    requires Next(fmt, buf).Got?
    ensures var p := Next(fmt, buf); Encodable(fmt, p.frame) && Wire(p.frame) + p.rest == buf
  {
    hide Header, Bytes, Prefix, Limit;
    var n := HeaderLen(fmt);
    HeaderIsEncoded(fmt, buf[..n]);
    var p := Next(fmt, buf);
    var (kind, len) := Header(fmt, buf[..n]).value;
    assert p.frame == Frame(kind, buf[n..n + len]) && p.rest == buf[n + len..];
    assert buf[..n] == Prefix(kind) + Bytes(len, 4);
    assert buf == buf[..n] + buf[n..n + len] + buf[n + len..];
  }

  /** Nothing is lost or invented: the decoded frames, encoded again, followed by the leftover bytes
      are the bytes that came in. */
  lemma {:induction false} DrainConserves(fmt: Format, buf: seq<byte>)
    ensures AllEncodable(fmt, Drain(fmt, buf).frames)
    ensures WireAll(Drain(fmt, buf).frames) + Drain(fmt, buf).buf == buf
    decreases |buf|
  {
    hide Wire, Next, Encodable;
    match Next(fmt, buf)
    case Got(f, rest) =>
      NextIsEncoded(fmt, buf);
      NextShorter(fmt, buf);
      DrainConserves(fmt, rest);
      var d := Drain(fmt, rest);
      assert ([f] + d.frames)[1..] == d.frames;
      assert WireAll([f] + d.frames) + d.buf == Wire(f) + (WireAll(d.frames) + d.buf);
    case _ =>
  }

  lemma NextShorter(fmt: Format, buf: seq<byte>)
    ensures Next(fmt, buf).Got? ==> |Next(fmt, buf).rest| < |buf|
  {
  }

  // ---------------------------------------------------------------- the decoders

  /** Append a frame to `out`. */
  method EncodeFrame(payload: seq<byte>, max: nat, out: seq<byte>) returns (r: Result<seq<byte>>)
    ensures match Encode(Plain(max), Frame(None, payload))
            case Err(e) => r == Err(e)
            case Ok(bytes) => r == Ok(out + bytes)
  {
    if |payload| > max { return Err(FrameTooLarge(|payload|, max)); }
    var buf := out + Bytes(|payload|, 4);
    buf := buf + payload;
    assert buf == out + ([] + Bytes(|payload|, 4) + payload);
    return Ok(buf);
  }

  method EncodeStreamFrame(kind: Kind, payload: seq<byte>, out: seq<byte>) returns (r: Result<seq<byte>>)
    ensures match Encode(Typed, Frame(Some(kind), payload))
            case Err(e) => r == Err(e)
            case Ok(bytes) => r == Ok(out + bytes)
  {
    if |payload| > MaxLen(kind) { return Err(FrameTooLarge(|payload|, MaxLen(kind))); }
    var buf := out + [Code(kind)];
    buf := buf + Bytes(|payload|, 4);
    buf := buf + payload;
    assert buf == out + ([Code(kind)] + Bytes(|payload|, 4) + payload);
    return Ok(buf);
  }

  /** The incremental decoder of either format. */
  class Decoder {
    const fmt: Format
    var buf: seq<byte>

    constructor (fmt: Format)
      ensures this.fmt == fmt && buf == []
    {
      this.fmt, buf := fmt, [];
    }

    method Extend(data: seq<byte>)
      modifies this
      ensures buf == old(buf) + data
    {
      buf := buf + data;
    }

    /** The next complete frame, if any. An error leaves the buffer as it is. */
    method NextFrame() returns (r: Result<Option<Frame>>)
      modifies this
      ensures match Next(fmt, old(buf))
              case NeedMore => r == Ok(None) && buf == old(buf)
              case Bad(e) => r == Err(e) && buf == old(buf)
              case Got(f, rest) => r == Ok(Some(f)) && buf == rest
    {
      var n := HeaderLen(fmt);
      if |buf| < n { return Ok(None); }
      var h := Header(fmt, buf[..n]);
      if h.Err? { return Err(h.error); }
      var (kind, len) := h.value;
      if |buf| < n + len { return Ok(None); }
      assert buf[n..][..len] == buf[n..n + len] && buf[n..][len..] == buf[n + len..];
      buf := buf[n..];
      var payload := buf[..len];
      buf := buf[len..];
      return Ok(Some(Frame(kind, payload)));
    }

    /** A reader takes one chunk and then every frame that is complete. */
    method TakeChunk(data: seq<byte>) returns (frames: seq<Frame>, error: Option<Error>)
      modifies this
      ensures Drained(frames, buf, error) == Drain(fmt, old(buf) + data)
    {
      hide Next;
      Extend(data);
      ghost var all := Drain(fmt, buf);
      frames, error := [], None;
      while true
        invariant all == Drain(fmt, buf).(frames := frames + Drain(fmt, buf).frames)
        decreases |buf|
      {
        ghost var before := buf;
        NextShorter(fmt, before);
        var r := NextFrame();
        match r {
          case Err(e) => return frames, Some(e);
          case Ok(None) => return frames, None;
          case Ok(Some(f)) =>
            assert frames + Drain(fmt, before).frames == frames + [f] + Drain(fmt, buf).frames;
            frames := frames + [f];
        }
      }
    }
  }
}
