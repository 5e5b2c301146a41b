/** What a scanner makes of texts that are not quite a shown code (sp-security/src/pairing.rs). */
module QrLimits {
  import opened Common
  import opened BigEndian
  import Base32
  import opened QrCode

  // ---------------------------------------------------------------- white space

  predicate Blank(s: string) { forall i :: 0 <= i < |s| ==> s[i] in " \t\r\n" }

  lemma {:induction false} BlankStart(pre: string, s: string)
    requires Blank(pre)
    ensures TrimStart(pre + s) == TrimStart(s)
  {
    if pre == "" {
      assert pre + s == s;
    } else {
      assert (pre + s)[1..] == pre[1..] + s && IsSpace(pre[0]);
      BlankStart(pre[1..], s);
    }
  }

  lemma {:induction false} BlankEnd(s: string, post: string)
    requires Blank(post)
    ensures TrimEnd(s + post) == TrimEnd(s)
  {
    if post == "" {
      assert s + post == s;
    } else {
      var n := |post| - 1;
      assert (s + post)[..|s + post| - 1] == s + post[..n] && IsSpace(post[n]);
      BlankEnd(s, post[..n]);
    }
  }

  /** Trimming the front of a text with blanks after it. */
  lemma {:induction false} StartThenBlank(s: string, post: string)
    requires Blank(post)
    ensures TrimStart(s + post) == TrimStart(s) + post || (TrimStart(s) == "" && TrimStart(s + post) == TrimStart(post))
  {
    if s == "" {
      assert s + post == post;
    } else if IsSpace(s[0]) {
      assert (s + post)[1..] == s[1..] + post;
      StartThenBlank(s[1..], post);
    } else {
      assert (s + post)[0] == s[0];
    }
  }

  /** Blanks around a code make no difference. */
  lemma BlanksIrrelevant(pre: string, text: string, post: string)
    requires Blank(pre) && Blank(post)
    ensures FromUri(pre + text + post) == FromUri(text)
  {
    assert pre + text + post == pre + (text + post);
    BlankStart(pre, text + post);
    StartThenBlank(text, post);
    BlankEnd(TrimStart(text), post);
    if TrimStart(text) == "" {
      BlankStart(post, "");
      assert post + "" == post && "" + post == post;
    }
  }

  // ---------------------------------------------------------------- length

  function Pow2(n: nat): nat { if n == 0 then 1 else 2 * Pow2(n - 1) }

  /** UTF-8 writes a character in the fewest bytes that carry it: one byte carries 7 bits, and `n` bytes
      `5 n + 1` (section 3 of RFC 3629). */
  lemma Utf8Fewest(c: char) returns (n: nat)
    ensures 1 <= n <= 4 && Utf8Len([c]) == n
    ensures (c as int) < Pow2(if n == 1 then 7 else 5 * n + 1)
    ensures n > 1 ==> (c as int) >= Pow2(if n == 2 then 7 else 5 * (n - 1) + 1)
  {
    n := Utf8Len([c]);
    assert Utf8Len("") == 0 && [c][..0] == "";
    Powers();
  }

  lemma Powers()
    ensures Pow2(7) == 0x80 && Pow2(11) == 0x800 && Pow2(16) == 0x1_0000 && Pow2(21) == 0x20_0000
  {
    assert Pow2(4) == 16;
    assert Pow2(8) == 256;
    assert Pow2(12) == 4096;
    assert Pow2(16) == 65536;
    assert Pow2(20) == 1048576;
  }

  lemma {:induction false} Utf8Adds(s: string, t: string)
    ensures Utf8Len(s + t) == Utf8Len(s) + Utf8Len(t)
    decreases |t|
  {
    if t == "" {
      assert s + t == s;
    } else {
      var n := |t| - 1;
      assert (s + t)[..|s + t| - 1] == s + t[..n];
      Utf8Adds(s, t[..n]);
    }
  }

  /** A text of more than 256 bytes is refused for its length, and no shorter one is. */
  lemma LongRefused(text: string)
    ensures FromUri(text) == Err(TooLong) <==> Utf8Len(TrimEnd(TrimStart(text))) > 256
  {
    hide TrimEnd, TrimStart, Utf8Len, ParseIps;
    var s := TrimEnd(TrimStart(text));
    if "SP1:" <= s {
      var body := Base32.Decoded(s[4..]);
      if body.Some? && |body.value| >= 36 { IpErrors(body.value[36..], body.value[35], []); }
    }
  }

  lemma {:induction false} IpErrors(b: seq<byte>, count: nat, done: seq<Ip>)
    ensures ParseIps(b, count, done) != Err(TooLong)
    decreases count
  {
    if count > 0 && ParseIp(b).Ok? { IpErrors(ParseIp(b).value.1, count - 1, done + [ParseIp(b).value.0]); }
  }

  // ---------------------------------------------------------------- the bytes of a code

  lemma {:induction false} MoreAfter(b: seq<byte>, count: nat, done: seq<Ip>, extra: seq<byte>)
    requires ParseIps(b, count, done).Ok?
    ensures ParseIps(b + extra, count, done) == Ok((ParseIps(b, count, done).value.0, ParseIps(b, count, done).value.1 + extra))
    decreases count
  {
    if count > 0 {
      hide ParseIp;
      var r := ParseIp(b).value;
      OneMore(b, extra);
      MoreAfter(r.1, count - 1, done + [r.0], extra);
    }
  }

  lemma OneMore(b: seq<byte>, extra: seq<byte>)
    requires ParseIp(b).Ok?
    ensures ParseIp(b + extra) == Ok((ParseIp(b).value.0, ParseIp(b).value.1 + extra))
  {
    var c := b + extra;
    if b[0] == 4 { assert c[1..5] == b[1..5] && c[5..] == b[5..] + extra; }
    else { assert c[1..17] == b[1..17] && c[17..] == b[17..] + extra; }
  }

  lemma {:induction false} CutShort(b: seq<byte>, count: nat, done: seq<Ip>, n: nat)
    requires ParseIps(b, count, done).Ok? && ParseIps(b, count, done).value.1 == [] && n < |b|
    ensures ParseIps(b[..n], count, done) == Err(Truncated)
    decreases count
  {
    var r := ParseIp(b).value;
    var k := |b| - |r.1|;
    if n >= k {
      assert b[..n][k..] == b[k..][..n - k] && b[k..] == r.1;
      OneShorter(b, n);
      CutShort(r.1, count - 1, done + [r.0], n - k);
    }
  }

  lemma OneShorter(b: seq<byte>, n: nat)
    requires ParseIp(b).Ok? && |b| - |ParseIp(b).value.1| <= n <= |b|
    ensures var r := ParseIp(b).value; ParseIp(b[..n]) == Ok((r.0, r.1[..n - (|b| - |r.1|)]))
  {
    var c := b[..n];
    if b[0] == 4 { assert c[1..5] == b[1..5] && c[5..] == b[5..][..n - 5]; }
    else { assert c[1..17] == b[1..17] && c[17..] == b[17..][..n - 17]; }
  }

  /** A payload is read from its bytes and no others: with more it has trailing data, with fewer it is truncated,
      with another first byte it is of an unknown version. */
  lemma BodyExactly(b: seq<byte>, extra: seq<byte>, n: nat, version: byte)
    requires ParseBody(b).Ok?
    ensures extra != [] ==> ParseBody(b + extra) == Err(TrailingData)
    ensures n < |b| ==> ParseBody(b[..n]) == Err(Truncated)
    ensures b[0] == 1 && (version != 1 ==> ParseBody([version] + b[1..]) == Err(Version))
  {
    hide ParseIps, PortAt, OnPort;
    var ips := b[36..];
    if extra != [] {
      assert (b + extra)[36..] == ips + extra && (b + extra)[33..35] == b[33..35] && (b + extra)[35] == b[35];
      MoreAfter(ips, b[35], [], extra);
    }
    if 36 <= n < |b| {
      assert b[..n][36..] == ips[..n - 36] && b[..n][33..35] == b[33..35];
      CutShort(ips, b[35], [], n - 36);
    }
  }

  /** An address of neither kind is refused. */
  lemma OtherAddressRefused(b: seq<byte>)
    requires b != [] && b[0] != 4 && b[0] != 6
    ensures ParseIp(b) == Err(AddressType)
  {
  }

  // ---------------------------------------------------------------- which addresses are shown

  lemma {:induction false} WithPortExactly(addrs: seq<Address>, port: u16, ip: Ip)
    ensures ip in WithPort(addrs, port) <==> Address(ip, port) in addrs
  {
    if addrs != [] { WithPortExactly(addrs[..|addrs| - 1], port, ip); }
  }

  /** Every address in a code is one of the device's on the first one's port; and if one of these is missing, the
      code has three. */
  lemma ShowsFirstPort(p: Payload, ip: Ip)
    requires p.addresses != []
    ensures ip in Kept(p) ==> Address(ip, p.addresses[0].port) in p.addresses
    ensures Address(ip, p.addresses[0].port) in p.addresses ==> ip in Kept(p) || |Kept(p)| == 3
  {
    WithPortExactly(p.addresses, p.addresses[0].port, ip);
  }
}
