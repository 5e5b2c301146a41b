/** The pairing code shown as a QR symbol (sp-security/src/pairing.rs). */
module QrCode {
  import opened Common
  import opened BigEndian
  import Base32

  const QR_PREFIX: string := "SP1:"
  const CODE_VERSION: byte := 1
  const MAX_QR_ADDRESSES: nat := 3
  const MAX_TEXT: nat := 256

  type Array4 = b: seq<byte> | |b| == 4 witness [0, 0, 0, 0]
  type Array16 = b: seq<byte> | |b| == 16 witness [0, 0, 0, 0, 0, 0, 0, 0, 0, 0, 0, 0, 0, 0, 0, 0]
  type u16 = n: int | 0 <= n < 0x1_0000

  datatype Ip = V4(v4: Array4) | V6(v6: Array16)

  datatype Address = Address(ip: Ip, port: u16)

  datatype Payload = Payload(deviceId: Array16, addresses: seq<Address>, secret: Array16, expires: nat)

  datatype Error = TooLong | NotACode | Encoding | Truncated | Version | Addresses | AddressType | TrailingData

  datatype Result<+T> = Ok(value: T) | Err(error: Error)

  // ---------------------------------------------------------------- encoding

  function Port(p: Payload): u16 { if p.addresses == [] then 0 else p.addresses[0].port }

  function WithPort(addrs: seq<Address>, port: u16): seq<Ip> {
    if addrs == [] then [] else
    var n := |addrs| - 1;
    WithPort(addrs[..n], port) + if addrs[n].port == port then [addrs[n].ip] else []
  }

  /** The first three addresses on the first address's port. */
  function Kept(p: Payload): (ips: seq<Ip>)
    ensures |ips| <= MAX_QR_ADDRESSES
  {
    var ips := WithPort(p.addresses, Port(p));
    if |ips| > MAX_QR_ADDRESSES then ips[..MAX_QR_ADDRESSES] else ips
  }

  function IpBytes(ip: Ip): seq<byte> {
    match ip case V4(b) => [4] + b case V6(b) => [6] + b
  }

  function AllIpBytes(ips: seq<Ip>): seq<byte> {
    if ips == [] then [] else AllIpBytes(ips[..|ips| - 1]) + IpBytes(ips[|ips| - 1])
  }

  function Layout(p: Payload): seq<byte> {
    [CODE_VERSION] + p.deviceId + p.secret + Bytes(Port(p), 2) + [|Kept(p)|] + AllIpBytes(Kept(p))
  }

  function ToUri(p: Payload): string { QR_PREFIX + Base32.Encoded(Layout(p)) }

  // ---------------------------------------------------------------- decoding

  /** Unicode White_Space. */
  predicate IsSpace(c: char) {
    var x := c as int;
    9 <= x <= 13 || x == 32 || x == 0x85 || x == 0xA0 || x == 0x1680 || 0x2000 <= x <= 0x200A
    || x == 0x2028 || x == 0x2029 || x == 0x202F || x == 0x205F || x == 0x3000
  }

  function TrimStart(s: string): string { if s != "" && IsSpace(s[0]) then TrimStart(s[1..]) else s }

  function TrimEnd(s: string): string {
    if s != "" && IsSpace(s[|s| - 1]) then TrimEnd(s[..|s| - 1]) else s
  }

  function Utf8Len(s: string): nat {
    if s == "" then 0 else
    var c := s[|s| - 1] as int;
    Utf8Len(s[..|s| - 1]) + if c < 0x80 then 1 else if c < 0x800 then 2 else if c < 0x1_0000 then 3 else 4
  }

  /** One address: its type byte, then its octets. */
  function ParseIp(b: seq<byte>): Result<(Ip, seq<byte>)> {
    if b == [] then Err(Truncated)
    else if b[0] == 4 then if |b| < 5 then Err(Truncated) else Ok((V4(b[1..5]), b[5..]))
    else if b[0] == 6 then if |b| < 17 then Err(Truncated) else Ok((V6(b[1..17]), b[17..]))
    else Err(AddressType)
  }

  /** `count` addresses, after those already read. */
  function ParseIps(b: seq<byte>, count: nat, done: seq<Ip>): Result<(seq<Ip>, seq<byte>)>
    decreases count
  {
    if count == 0 then Ok((done, b)) else
    match ParseIp(b)
    case Err(e) => Err(e)
    case Ok(r) => ParseIps(r.1, count - 1, done + [r.0])
  }

  function OnPort(ips: seq<Ip>, port: u16): (a: seq<Address>)
    ensures |a| == |ips|
  {
    seq(|ips|, i requires 0 <= i < |ips| => Address(ips[i], port))
  }

  function PortAt(b: seq<byte>): u16
    requires |b| == 2
  {
    Pow256Values();
    BytesValue(b);
    Value(b)
  }

  function ParseBody(b: seq<byte>): Result<Payload> {
    if b == [] then Err(Truncated)
    else if b[0] != CODE_VERSION then Err(Version)
    else if |b| < 36 then Err(Truncated)
    else
      var port, count := PortAt(b[33..35]), b[35];
      if count == 0 || count > MAX_QR_ADDRESSES || port == 0 then Err(Addresses) else
      match ParseIps(b[36..], count, [])
      case Err(e) => Err(e)
      case Ok(r) =>
        if r.1 != [] then Err(TrailingData)
        else Ok(Payload(b[1..17], OnPort(r.0, port), b[17..33], 0))
  }

  function FromUri(text: string): Result<Payload> {
    var s := TrimEnd(TrimStart(text));
    if Utf8Len(s) > MAX_TEXT then Err(TooLong)
    else if !(QR_PREFIX <= s) then Err(NotACode)
    else match Base32.Decoded(s[|QR_PREFIX|..])
      case None => Err(Encoding)
      case Some(b) => ParseBody(b)
  }

  // ---------------------------------------------------------------- round trips

  lemma ParseIpBack(ip: Ip, more: seq<byte>)
    ensures ParseIp(IpBytes(ip) + more) == Ok((ip, more))
  {
    var b := IpBytes(ip) + more;
    if ip.V4? { assert b[1..5] == ip.v4 && b[5..] == more; } else { assert b[1..17] == ip.v6 && b[17..] == more; }
  }

  lemma AllIpBytesNext(ips: seq<Ip>, ip: Ip)
    ensures AllIpBytes(ips + [ip]) == AllIpBytes(ips) + IpBytes(ip)
  {
    hide IpBytes;
    assert (ips + [ip])[..|ips|] == ips;
  }

  lemma AllIpBytesOne(ip: Ip)
    ensures AllIpBytes([ip]) == IpBytes(ip) && AllIpBytes([]) == []
  {
    hide IpBytes;
    var none: seq<Ip> := [];
    AllIpBytesNext(none, ip);
    assert none + [ip] == [ip];
  }

  lemma {:induction false} AllIpBytesFront(ips: seq<Ip>)
    requires ips != []
    ensures AllIpBytes(ips) == IpBytes(ips[0]) + AllIpBytes(ips[1..])
  {
    hide IpBytes, AllIpBytes;
    var n := |ips| - 1;
    var front, last := ips[..n], ips[n];
    assert ips == front + [last];
    if n == 0 {
      AllIpBytesOne(last);
      assert ips == [last] && ips[1..] == [];
    } else {
      AllIpBytesFront(front);
      AllIpBytesNext(front, last);
      AllIpBytesNext(front[1..], last);
      assert ips[1..] == front[1..] + [last];
    }
  }

  lemma {:induction false} ParseIpsBack(ips: seq<Ip>, done: seq<Ip>)
    ensures ParseIps(AllIpBytes(ips), |ips|, done) == Ok((done + ips, []))
    decreases |ips|
  {
    hide ParseIp, IpBytes;
    if ips == [] {
      assert done + ips == done;
    } else {
      AllIpBytesFront(ips);
      ParseIpBack(ips[0], AllIpBytes(ips[1..]));
      ParseIpsBack(ips[1..], done + [ips[0]]);
      assert done + [ips[0]] + ips[1..] == done + ips;
    }
  }

  /** What the scanner gets from a shown code. */
  function Scanned(p: Payload): Result<Payload> {
    if p.addresses == [] || Port(p) == 0 then Err(Addresses)
    else Ok(Payload(p.deviceId, OnPort(Kept(p), Port(p)), p.secret, 0))
  }

  lemma {:induction false} FirstIsKept(addrs: seq<Address>, port: u16)
    requires addrs != [] && addrs[0].port == port
    ensures WithPort(addrs, port) != []
  {
    if |addrs| > 1 { FirstIsKept(addrs[..|addrs| - 1], port); }
  }

  lemma LayoutFields(p: Payload)
    ensures var b := Layout(p);
            && |b| >= 36 && b[0] == CODE_VERSION && b[1..17] == p.deviceId && b[17..33] == p.secret
            && b[33..35] == Bytes(Port(p), 2) && b[35] == |Kept(p)| && b[36..] == AllIpBytes(Kept(p))
  {
  }

  lemma ParsesBack(p: Payload)
    ensures ParseBody(Layout(p)) == Scanned(p)
  {
    hide Layout, Kept, AllIpBytes;
    LayoutFields(p);
    Pow256Values();
    ValueBytes(Port(p), 2);
    ParseIpsBack(Kept(p), []);
    assert [] + Kept(p) == Kept(p);
    KeptCount(p);
  }

  lemma KeptCount(p: Payload)
    ensures p.addresses != [] ==> |Kept(p)| > 0
    ensures p.addresses == [] ==> |Kept(p)| == 0 && Port(p) == 0
  {
    if p.addresses != [] { FirstIsKept(p.addresses, Port(p)); }
  }

  lemma {:induction false} AsciiLength(s: string)
    requires forall i :: 0 <= i < |s| ==> s[i] < 128 as char
    ensures Utf8Len(s) == |s|
  {
    if s != "" { AsciiLength(s[..|s| - 1]); }
  }

  lemma {:induction false} AllIpBytesLength(ips: seq<Ip>)
    ensures |AllIpBytes(ips)| <= 17 * |ips|
  {
    if ips != [] { AllIpBytesLength(ips[..|ips| - 1]); }
  }

  lemma CodeIsAscii(d: Base32.digit)
    ensures Base32.CharOf(d) < 128 as char && !IsSpace(Base32.CharOf(d))
  {
    Base32.DigitOfChar(d);
  }

  /** A code is plain ASCII without white space, and short. */
  lemma UriShape(p: Payload)
    ensures var s := ToUri(p);
            && Utf8Len(s) <= MAX_TEXT && TrimEnd(TrimStart(s)) == s
            && QR_PREFIX <= s && s[|QR_PREFIX|..] == Base32.Encoded(Layout(p))
  {
    var s, body := ToUri(p), Base32.Encoded(Layout(p));
    AllIpBytesLength(Kept(p));
    assert |Layout(p)| <= 87;
    assert |body| <= 140;
    var ds := Base32.Digits(Base32.Shl(Value(Layout(p)), Base32.Fill(|Layout(p)|)), Base32.TextLen(|Layout(p)|));
    forall i | 0 <= i < |body| ensures body[i] < 128 as char && !IsSpace(body[i]) {
      assert body[i] == Base32.CharOf(ds[i]);
      CodeIsAscii(ds[i]);
    }
    hide Base32.Encoded, Layout;
    assert forall i :: 0 <= i < |s| ==> s[i] < 128 as char && !IsSpace(s[i]);
    AsciiLength(s);
  }

  /** Exactly what a code round-trips to: id, secret and the first three addresses on the first
      address's port; and an error exactly when there is no address or its port is zero. */
  lemma {:induction false} UriRoundTrip(p: Payload)
    ensures FromUri(ToUri(p)) == Scanned(p)
  {
    hide ToUri, TrimEnd, TrimStart, Utf8Len, Base32.Encoded, Base32.Decoded, Layout, ParseBody, Scanned;
    UriShape(p);
    Base32.RoundTrip(Layout(p));
    ParsesBack(p);
  }

  lemma {:induction false} WithPortAll(addrs: seq<Address>, port: u16)
    requires forall i :: 0 <= i < |addrs| ==> addrs[i].port == port
    ensures |WithPort(addrs, port)| == |addrs| && OnPort(WithPort(addrs, port), port) == addrs
  {
    if addrs != [] {
      WithPortAll(addrs[..|addrs| - 1], port);
      assert addrs == addrs[..|addrs| - 1] + [addrs[|addrs| - 1]];
    }
  }

  /** One to three addresses sharing a nonzero port come back unchanged. */
  lemma {:induction false} SharedPortRoundTrip(p: Payload)
    requires 1 <= |p.addresses| <= MAX_QR_ADDRESSES && Port(p) != 0
    requires forall i :: 0 <= i < |p.addresses| ==> p.addresses[i].port == Port(p)
    ensures FromUri(ToUri(p)) == Ok(p.(expires := 0))
  {
    UriRoundTrip(p);
    WithPortAll(p.addresses, Port(p));
  }

  lemma {:induction false} ParseIpsCount(b: seq<byte>, count: nat, done: seq<Ip>)
    requires ParseIps(b, count, done).Ok?
    ensures |ParseIps(b, count, done).value.0| == |done| + count
    decreases count
  {
    if count > 0 { ParseIpsCount(ParseIp(b).value.1, count - 1, done + [ParseIp(b).value.0]); }
  }

  /** Any text that parses, canonical or not, stands for a payload whose own code parses to it. */
  lemma {:induction false} ReencodeParses(text: string)
    requires FromUri(text).Ok?
    ensures FromUri(ToUri(FromUri(text).value)) == FromUri(text)
  {
    hide ToUri, TrimEnd, TrimStart, Utf8Len, Base32.Decoded;
    var p := FromUri(text).value;
    var b := Base32.Decoded(TrimEnd(TrimStart(text))[|QR_PREFIX|..]).value;
    ParseIpsCount(b[36..], b[35], []);
    SharedPortRoundTrip(p);
  }

  // ---------------------------------------------------------------- as it runs

  method KeptAddresses(p: Payload) returns (ips: seq<Ip>)
    ensures ips == Kept(p)
  {
    var port: u16 := if p.addresses == [] then 0 else p.addresses[0].port;
    ips := [];
    for i := 0 to |p.addresses|
      invariant ips == WithPort(p.addresses[..i], port)
    {
      assert p.addresses[..i + 1][..i] == p.addresses[..i];
      if p.addresses[i].port == port { ips := ips + [p.addresses[i].ip]; }
    }
    assert p.addresses[..|p.addresses|] == p.addresses;
    if |ips| > MAX_QR_ADDRESSES { ips := ips[..MAX_QR_ADDRESSES]; }
  }

  method AddressBytes(ips: seq<Ip>) returns (body: seq<byte>)
    ensures body == AllIpBytes(ips)
  {
    hide IpBytes;
    body := [];
    for i := 0 to |ips|
      invariant body == AllIpBytes(ips[..i])
    {
      assert ips[..i + 1][..i] == ips[..i];
      body := body + IpBytes(ips[i]);
    }
    assert ips[..|ips|] == ips;
  }

  method MakeUri(p: Payload) returns (uri: string)
    ensures uri == ToUri(p)
  {
    hide Kept, AllIpBytes, Base32.Encoded, Bytes;
    var ips := KeptAddresses(p);
    var bytes := [CODE_VERSION] + p.deviceId + p.secret + Bytes(Port(p), 2) + [|ips|];
    var body := AddressBytes(ips);
    var text := Base32.Encode(bytes + body);
    uri := QR_PREFIX + text;
  }

  /** A cursor over the decoded bytes. */
  class Reader {
    const buf: seq<byte>
    var pos: nat

    ghost predicate Valid()
      reads this
    {
      pos <= |buf|
    }

    ghost function Left(): seq<byte>
      requires Valid()
      reads this
    {
      buf[pos..]
    }

    constructor (buf: seq<byte>)
      ensures Valid() && Left() == buf && this.buf == buf
    {
      this.buf, pos := buf, 0;
    }

    /** The next `n` bytes, if there are that many. */
    method Take(n: nat) returns (r: Option<seq<byte>>)
      requires Valid()
      modifies this
      ensures Valid()
      ensures n <= |old(Left())| ==> r == Some(old(Left())[..n]) && Left() == old(Left())[n..]
      ensures n > |old(Left())| ==> r.None? && Left() == old(Left())
    {
      if |buf| - pos < n { return None; }
      assert buf[pos..][..n] == buf[pos..pos + n] && buf[pos..][n..] == buf[pos + n..];
      r := Some(buf[pos..pos + n]);
      pos := pos + n;
    }
  }

  method ReadIp(r: Reader) returns (ip: Result<Ip>)
    requires r.Valid()
    modifies r
    ensures r.Valid()
    ensures match ParseIp(old(r.Left()))
            case Ok(v) => ip == Ok(v.0) && r.Left() == v.1
            case Err(e) => ip == Err(e)
  {
    ghost var b0 := r.Left();
    var kind := r.Take(1);
    if kind.None? { return Err(Truncated); }
    assert |b0| >= 5 ==> b0[1..][..4] == b0[1..5] && b0[1..][4..] == b0[5..];
    assert |b0| >= 17 ==> b0[1..][..16] == b0[1..17] && b0[1..][16..] == b0[17..];
    if kind.value[0] == 4 {
      var b := r.Take(4);
      if b.None? { return Err(Truncated); }
      return Ok(V4(b.value));
    } else if kind.value[0] == 6 {
      var b := r.Take(16);
      if b.None? { return Err(Truncated); }
      return Ok(V6(b.value));
    }
    return Err(AddressType);
  }

  method ReadIps(r: Reader, count: nat) returns (ips: Result<seq<Ip>>)
    requires r.Valid()
    modifies r
    ensures r.Valid()
    ensures match ParseIps(old(r.Left()), count, [])
            case Ok(v) => ips == Ok(v.0) && r.Left() == v.1
            case Err(e) => ips == Err(e)
  {
    hide ParseIp;
    var done: seq<Ip> := [];
    for i := 0 to count
      invariant r.Valid()
      invariant ParseIps(r.Left(), count - i, done) == ParseIps(old(r.Left()), count, [])
    {
      var ip := ReadIp(r);
      if ip.Err? { return Err(ip.error); }
      done := done + [ip.value];
    }
    return Ok(done);
  }

  /** Version, device id and secret. */
  method ReadKeys(r: Reader) returns (keys: Result<(Array16, Array16)>)
    requires r.Valid() && r.pos == 0
    modifies r
    ensures r.Valid()
    ensures var b := old(r.Left());
            if b == [] then keys == Err(Truncated)
            else if b[0] != CODE_VERSION then keys == Err(Version)
            else if |b| < 33 then keys == Err(Truncated)
            else keys == Ok((b[1..17], b[17..33])) && r.Left() == b[33..]
  {
    ghost var b := r.Left();
    var version := r.Take(1);
    if version.None? { return Err(Truncated); }
    if version.value[0] != CODE_VERSION { return Err(Version); }
    var id := r.Take(16);
    if id.None? { return Err(Truncated); }
    assert id.value == b[1..17] && r.Left() == b[17..];
    var secret := r.Take(16);
    if secret.None? { return Err(Truncated); }
    assert secret.value == b[17..33] && r.Left() == b[33..];
    return Ok((id.value, secret.value));
  }

  method ReadBody(bytes: seq<byte>) returns (p: Result<Payload>)
    ensures p == ParseBody(bytes)
  {
    hide ParseIps, PortAt;
    var r := new Reader(bytes);
    var keys := ReadKeys(r);
    if keys.Err? { return Err(keys.error); }
    var portBytes := r.Take(2);
    if portBytes.None? { return Err(Truncated); }
    assert portBytes.value == bytes[33..35] && r.Left() == bytes[35..];
    var countByte := r.Take(1);
    if countByte.None? { return Err(Truncated); }
    assert countByte.value[0] == bytes[35] && r.Left() == bytes[36..];
    var port, count := PortAt(portBytes.value), countByte.value[0];
    if count == 0 || count > MAX_QR_ADDRESSES || port == 0 { return Err(Addresses); }
    var ips := ReadIps(r, count);
    if ips.Err? { return Err(ips.error); }
    if r.pos != |r.buf| { return Err(TrailingData); }
    return Ok(Payload(keys.value.0, OnPort(ips.value, port), keys.value.1, 0));
  }

  method ParseUri(text: string) returns (p: Result<Payload>)
    ensures p == FromUri(text)
  {
    var s := TrimEnd(TrimStart(text));
    if Utf8Len(s) > MAX_TEXT { return Err(TooLong); }
    if !(QR_PREFIX <= s) { return Err(NotACode); }
    var bytes := Base32.Decode(s[|QR_PREFIX|..]);
    if bytes.None? { return Err(Encoding); }
    p := ReadBody(bytes.value);
  }
}
