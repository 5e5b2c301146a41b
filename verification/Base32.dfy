/**
 Base32 (section 6 of RFC 4648, uppercase, no padding) as sp-security/src/pairing.rs computes it with a
 32-bit shift register, against the reading of both texts as one number.
 */
module Base32 {
  import opened Common
  import opened BigEndian

  const ALPHABET: string := "ABCDEFGHIJKLMNOPQRSTUVWXYZ234567"
  const U32_SPAN: nat := 0x1_0000_0000

  type digit = n: int | 0 <= n < 32

  // ---------------------------------------------------------------- numbers

  function Exp2(k: nat): (e: nat)
    ensures e > 0
  {
    if k == 0 then 1 else 2 * Exp2(k - 1)
  }

  /** Shifts of unbounded numbers. */
  function Shr(v: nat, k: nat): nat { if k == 0 then v else Shr(v / 2, k - 1) }

  function Shl(v: nat, k: nat): nat { if k == 0 then v else 2 * Shl(v, k - 1) }

  /** The number a digit sequence stands for, most significant digit first. */
  function Number(ds: seq<digit>): nat {
    if ds == [] then 0 else 32 * Number(ds[..|ds| - 1]) + ds[|ds| - 1]
  }

  /** The lowest `k` base-32 digits of `n`. */
  function Digits(n: nat, k: nat): (ds: seq<digit>)
    ensures |ds| == k
  {
    if k == 0 then [] else Digits(n / 32, k - 1) + [n % 32]
  }

  lemma Exp2Steps(k: nat)
    ensures Exp2(k + 5) == 32 * Exp2(k) && Exp2(k + 8) == 256 * Exp2(k)
  {
    assert Exp2(k + 2) == 4 * Exp2(k);
    assert Exp2(k + 4) == 16 * Exp2(k);
    assert Exp2(k + 6) == 64 * Exp2(k);
  }

  lemma {:induction false} NumberDigits(n: nat, k: nat)
    requires n < Exp2(5 * k)
    ensures Number(Digits(n, k)) == n
  {
    if k > 0 {
      Exp2Steps(5 * (k - 1));
      NumberDigits(n / 32, k - 1);
      assert Digits(n, k)[..k - 1] == Digits(n / 32, k - 1);
    }
  }

  lemma {:induction false} DigitsNumber(ds: seq<digit>)
    ensures Digits(Number(ds), |ds|) == ds
  {
    if ds != [] {
      DigitsNumber(ds[..|ds| - 1]);
      assert ds == ds[..|ds| - 1] + [ds[|ds| - 1]];
    }
  }

  lemma {:induction false} Pow256IsExp2(n: nat)
    ensures Pow256(n) == Exp2(8 * n)
  {
    if n > 0 {
      Pow256IsExp2(n - 1);
      Exp2Steps(8 * (n - 1));
    }
  }

  lemma {:induction false} ShlBound(v: nat, j: nat, k: nat)
    requires v < Exp2(j)
    ensures Shl(v, k) < Exp2(j + k)
  {
    if k > 0 { ShlBound(v, j, k - 1); }
  }

  lemma {:induction false} ShrShl(v: nat, k: nat)
    ensures Shr(Shl(v, k), k) == v
  {
    if k > 0 { ShrShl(v, k - 1); }
  }

  lemma {:induction false} ShrAdd(v: nat, a: nat, b: nat)
    ensures Shr(v, a + b) == Shr(Shr(v, a), b)
  {
    if a > 0 { ShrAdd(v / 2, a - 1, b); }
  }

  lemma ShrQuarter(v: nat, k: nat)
    requires k >= 2
    ensures Shr(v, k) == Shr(v / 4, k - 2)
  {
    assert Shr(v, k) == Shr(v / 2, k - 1) == Shr(v / 2 / 2, k - 2);
    assert v / 2 / 2 == v / 4;
  }

  lemma ShrSteps(v: nat)
    ensures Shr(v, 2) == v / 4 && Shr(v, 3) == v / 8 && Shr(v, 4) == v / 16
    ensures Shr(v, 5) == v / 32 && Shr(v, 8) == v / 256
  {
    assert v / 4 / 4 == v / 16 && v / 16 / 4 == v / 64 && v / 64 / 4 == v / 256;
    ShrQuarter(v, 2);
    ShrQuarter(v, 3);
    ShrQuarter(v, 4);
    ShrQuarter(v / 4, 2);
    ShrQuarter(v, 5);
    ShrQuarter(v / 4, 3);
    ShrQuarter(v, 8);
    ShrQuarter(v / 4, 6);
    ShrQuarter(v / 16, 4);
    ShrQuarter(v / 64, 2);
    assert v / 4 / 2 == v / 8 && v / 16 / 2 == v / 32;
    assert Shr(v / 4, 1) == v / 4 / 2 && Shr(v / 16, 1) == v / 16 / 2;
  }

  // ---------------------------------------------------------------- the texts

  function CharOf(d: digit): char { ALPHABET[d] }

  function Text(ds: seq<digit>): (s: string)
    ensures |s| == |ds|
  {
    seq(|ds|, i requires 0 <= i < |ds| => CharOf(ds[i]))
  }

  /** The digit a character stands for; lower case is accepted. */
  function DigitOf(c: char): Option<digit> {
    if 'A' <= c <= 'Z' then Some(c as int - 'A' as int)
    else if 'a' <= c <= 'z' then Some(c as int - 'a' as int)
    else if '2' <= c <= '7' then Some(c as int - '2' as int + 26)
    else None
  }

  predicate IsText(s: string) { forall i :: 0 <= i < |s| ==> DigitOf(s[i]).Some? }

  function DigitsOf(s: string): (ds: seq<digit>)
    requires IsText(s)
    ensures |ds| == |s|
  {
    seq(|s|, i requires 0 <= i < |s| => DigitOf(s[i]).value)
  }

  lemma DigitOfChar(d: digit)
    ensures DigitOf(CharOf(d)) == Some(d)
  {
    if d < 16 { assert DigitOf(ALPHABET[d]) == Some(d); } else { assert DigitOf(ALPHABET[d]) == Some(d); }
  }

  lemma DigitsOfText(ds: seq<digit>)
    ensures IsText(Text(ds)) && DigitsOf(Text(ds)) == ds
  {
    forall i | 0 <= i < |ds| ensures DigitOf(Text(ds)[i]) == Some(ds[i]) { DigitOfChar(ds[i]); }
  }

  /** Characters needed for `n` bytes, and the zero bits that fill the last one. */
  function TextLen(n: nat): nat { (8 * n + 4) / 5 }

  function Fill(n: nat): nat { 5 * TextLen(n) - 8 * n }

  /** The bytes as one number, filled up with zero bits to whole characters, in base 32. */
  function Encoded(b: seq<byte>): string { Text(Digits(Shl(Value(b), Fill(|b|)), TextLen(|b|))) }

  /** The characters as one number, its spare low bits dropped, in base 256. */
  function Decoded(s: string): Option<seq<byte>> {
    if IsText(s) then Some(Bytes(Shr(Number(DigitsOf(s)), 5 * |s| % 8), 5 * |s| / 8)) else None
  }

  /** The text in lower case. */
  function Lower(s: string): (r: string)
    ensures |r| == |s|
  {
    seq(|s|, i requires 0 <= i < |s| => if 'A' <= s[i] <= 'Z' then (s[i] as int + 32) as char else s[i])
  }

  /** Lower case reads the same. */
  lemma CaseIrrelevant(s: string)
    ensures Decoded(Lower(s)) == Decoded(s)
  {
    forall i | 0 <= i < |s| ensures DigitOf(Lower(s)[i]) == DigitOf(s[i]) {}
    hide DigitOf, Number, Shr, Bytes;
    if IsText(s) { assert DigitsOf(Lower(s)) == DigitsOf(s); }
    if i :| 0 <= i < |s| && DigitOf(s[i]).None? { assert DigitOf(Lower(s)[i]).None?; }
  }

  /** Decoding an encoding gives the bytes back. */
  lemma RoundTrip(b: seq<byte>)
    ensures Decoded(Encoded(b)) == Some(b)
  {
    hide Shl, Shr, Number, Digits, Value, Bytes, Exp2, Pow256, Text, DigitsOf;
    var n, m, x := |b|, TextLen(|b|), Shl(Value(b), Fill(|b|));
    var ds := Digits(x, m);
    LengthsMatch(n);
    BytesValue(b);
    Pow256IsExp2(n);
    ShlBound(Value(b), 8 * n, Fill(n));
    NumberDigits(x, m);
    DigitsOfText(ds);
    ShrShl(Value(b), Fill(n));
    assert |Text(ds)| == m;
  }

  lemma LengthsMatch(n: nat)
    ensures 5 * TextLen(n) == 8 * n + Fill(n) && 5 * TextLen(n) / 8 == n && 5 * TextLen(n) % 8 == Fill(n)
  {
  }

  // ---------------------------------------------------------------- the shift register

  /** The low `k` bits. */
  function Low(v: nat, k: nat): nat { if k == 0 then 0 else v % 2 + 2 * Low(v / 2, k - 1) }

  /** Shifting the low bits of a number gives the low bits of the shifted number. */
  lemma {:induction false} ShrLow(v: nat, j: nat, k: nat)
    ensures Shr(Low(v, j + k), k) == Low(Shr(v, k), j)
  {
    if k > 0 { ShrLow(v / 2, j, k - 1); }
  }

  lemma LowTwo(v: nat, k: nat)
    ensures Low(v, k + 2) == v % 4 + 4 * Low(v / 4, k)
  {
    assert Low(v, k + 2) == v % 2 + 2 * Low(v / 2, k + 1);
    assert Low(v / 2, k + 1) == v / 2 % 2 + 2 * Low(v / 2 / 2, k);
    assert v / 2 / 2 == v / 4 && v % 2 + 2 * (v / 2 % 2) == v % 4;
  }

  lemma LowFour(v: nat, k: nat)
    ensures Low(v, k + 4) == v % 16 + 16 * Low(v / 16, k)
  {
    LowTwo(v, k + 2);
    LowTwo(v / 4, k);
    assert v / 4 / 4 == v / 16 && v % 4 + 4 * (v / 4 % 4) == v % 16;
  }

  lemma LowFive(v: nat, k: nat)
    ensures Low(v, k + 5) == v % 32 + 32 * Low(v / 32, k)
  {
    LowFour(v, k + 1);
    assert Low(v / 16, k + 1) == v / 16 % 2 + 2 * Low(v / 16 / 2, k);
    assert v / 16 / 2 == v / 32 && v % 16 + 16 * (v / 16 % 2) == v % 32;
  }

  lemma LowEight(v: nat, k: nat)
    ensures Low(v, k + 8) == v % 256 + 256 * Low(v / 256, k)
  {
    LowFour(v, k + 4);
    LowFour(v / 16, k);
    assert v / 16 / 16 == v / 256 && v % 16 + 16 * (v / 16 % 16) == v % 256;
  }

  lemma LowSixteen(v: nat, k: nat)
    ensures Low(v, k + 16) == v % 65536 + 65536 * Low(v / 65536, k)
  {
    hide Low;
    LowEight(v, k + 8);
    LowEight(v / 256, k);
    TwoBytes(v);
  }

  lemma TwoBytes(v: nat)
    ensures v / 256 / 256 == v / 65536 && v % 256 + 256 * (v / 256 % 256) == v % 65536
  {
  }

  lemma TwoHalves(v: nat)
    ensures v % 65536 + 65536 * (v / 65536 % 65536) == v % U32_SPAN
  {
  }

  /** A 32-bit register keeps the low 32 bits. */
  lemma LowIsRegister(v: nat)
    ensures Low(v, 32) == v % U32_SPAN
  {
    LowSixteen(v, 16);
    LowSixteen(v / 65536, 0);
    assert Low(v / 65536 / 65536, 0) == 0;
    TwoHalves(v);
    hide Low;
  }

  lemma DropHigh(a: nat, t: nat)
    ensures a < 32 ==> (a + 32 * t) % 32 == a
    ensures a < 256 ==> (a + 256 * t) % 256 == a
  {
  }

  /** The register holds the low 32 bits of everything shifted in; what is read from it is as if it
      had never overflowed. */
  lemma RegisterReads(v: nat, bits: nat)
    requires bits <= 7
    ensures Shr(v % U32_SPAN, bits) % 32 == Shr(v, bits) % 32
    ensures Shr(v % U32_SPAN, bits) % 256 == Shr(v, bits) % 256
  {
    hide Low, Shr;
    var x := Shr(v, bits);
    LowIsRegister(v);
    ShrLow(v, 32 - bits, bits);
    LowFive(x, 27 - bits);
    LowEight(x, 24 - bits);
    DropHigh(x % 32, Low(x / 32, 27 - bits));
    DropHigh(x % 256, Low(x / 256, 24 - bits));
  }

  lemma Wraps(y: nat, t: nat)
    ensures (y + U32_SPAN * t) % U32_SPAN == y % U32_SPAN
  {
  }

  /** Shifting bits into the register keeps it congruent to the whole number. */
  lemma RegisterShift(v: nat, x: nat)
    ensures (v % U32_SPAN * 256 + x) % U32_SPAN == (v * 256 + x) % U32_SPAN
    ensures (v % U32_SPAN * 32 + x) % U32_SPAN == (v * 32 + x) % U32_SPAN
  {
    var q := v / U32_SPAN;
    assert v == v % U32_SPAN + U32_SPAN * q;
    Wraps(v % U32_SPAN * 256 + x, 256 * q);
    Wraps(v % U32_SPAN * 32 + x, 32 * q);
  }

  /** Shifting bits in does not change what is above them. */
  lemma ShiftInByte(v: nat, x: byte, bits: nat)
    ensures Shr(v * 256 + x, 8 + bits) == Shr(v, bits)
  {
    ShrAdd(v * 256 + x, 8, bits);
    ShrSteps(v * 256 + x);
  }

  lemma ShiftInDigit(v: nat, x: digit, bits: nat)
    ensures Shr(v * 32 + x, 5 + bits) == Shr(v, bits)
  {
    ShrAdd(v * 32 + x, 5, bits);
    ShrSteps(v * 32 + x);
  }

  /** A group of bits read at `bits` extends what was read above it. */
  lemma ReadOn(v: nat, bits: nat)
    ensures Shr(v, bits + 5) * 32 + Shr(v, bits) % 32 == Shr(v, bits)
    ensures Shr(v, bits + 8) * 256 + Shr(v, bits) % 256 == Shr(v, bits)
  {
    ShrAdd(v, bits, 5);
    ShrAdd(v, bits, 8);
    ShrSteps(Shr(v, bits));
  }

  /** The final character: the remaining bits, filled up with zeros. */
  lemma LastDigit(v: nat, bits: nat)
    requires 0 < bits < 5
    ensures Shl(v % U32_SPAN, 5 - bits) % U32_SPAN % 32 == Shl(v, 5 - bits) % 32
    ensures Shr(v, bits) * 32 + Shl(v, 5 - bits) % 32 == Shl(v, 5 - bits)
  {
    ShlSteps(v);
    ShlSteps(v % U32_SPAN);
    ShrSteps(v);
    assert Shr(v, 1) == v / 2;
    hide Shl, Shr;
    if bits == 1 { FillBits(v, 2, 16); } else if bits == 2 { FillBits(v, 4, 8); }
    else if bits == 3 { FillBits(v, 8, 4); } else { FillBits(v, 16, 2); }
  }

  lemma ShlSteps(v: nat)
    ensures Shl(v, 1) == 2 * v && Shl(v, 2) == 4 * v && Shl(v, 3) == 8 * v && Shl(v, 4) == 16 * v
  {
    assert Shl(v, 1) == 2 * Shl(v, 0);
    assert Shl(v, 2) == 2 * Shl(v, 1);
    assert Shl(v, 3) == 2 * Shl(v, 2);
    assert Shl(v, 4) == 2 * Shl(v, 3);
  }

  lemma FillBits(v: nat, d: nat, f: nat)
    requires (d, f) == (2, 16) || (d, f) == (4, 8) || (d, f) == (8, 4) || (d, f) == (16, 2)
    ensures v / d * 32 + f * v % 32 == f * v
    ensures f * (v % U32_SPAN) % U32_SPAN % 32 == f * v % 32
  {
    var q, r := v / U32_SPAN, v % U32_SPAN;
    assert v == r + U32_SPAN * q;
    if f == 16 { LowDigit(16 * r, 16 * q); HalfBits(v); }
    else if f == 8 { LowDigit(8 * r, 8 * q); QuarterBits(v); }
    else if f == 4 { LowDigit(4 * r, 4 * q); EighthBits(v); }
    else { LowDigit(2 * r, 2 * q); SixteenthBits(v); }
  }

  /** Overflowing the register does not change its low five bits. */
  lemma LowDigit(y: nat, t: nat)
    ensures y % U32_SPAN % 32 == (y + U32_SPAN * t) % 32
  {
    assert y == y % U32_SPAN + 32 * (U32_SPAN / 32 * (y / U32_SPAN));
    assert U32_SPAN * t == 32 * (U32_SPAN / 32 * t);
  }

  lemma HalfBits(v: nat)
    ensures v / 2 * 32 + 16 * v % 32 == 16 * v
  {
    assert 16 * v == 32 * (v / 2) + 16 * (v % 2);
  }

  lemma QuarterBits(v: nat)
    ensures v / 4 * 32 + 8 * v % 32 == 8 * v
  {
    assert 8 * v == 32 * (v / 4) + 8 * (v % 4);
  }

  lemma EighthBits(v: nat)
    ensures v / 8 * 32 + 4 * v % 32 == 4 * v
  {
    assert 4 * v == 32 * (v / 8) + 4 * (v % 8);
  }

  lemma SixteenthBits(v: nat)
    ensures v / 16 * 32 + 2 * v % 32 == 2 * v
  {
    assert 2 * v == 32 * (v / 16) + 2 * (v % 16);
  }

  // ---------------------------------------------------------------- the loops

  lemma NumberPush(ds: seq<digit>, d: digit)
    ensures Number(ds + [d]) == 32 * Number(ds) + d && Text(ds + [d]) == Text(ds) + [CharOf(d)]
  {
    assert (ds + [d])[..|ds|] == ds;
  }

  lemma ValuePush(b: seq<byte>, i: nat)
    requires i < |b|
    ensures Value(b[..i + 1]) == Value(b[..i]) * 256 + b[i]
  {
    assert b[..i + 1][..i] == b[..i];
  }

  /** The lengths alone decide how many bits are left over. */
  lemma EncodedLength(n: nat, m: nat, bits: nat)
    requires 8 * n == 5 * m + bits && bits < 5
    ensures bits == 0 ==> TextLen(n) == m && Fill(n) == 0
    ensures bits > 0 ==> TextLen(n) == m + 1 && Fill(n) == 5 - bits
  {
  }

  method Encode(bytes: seq<byte>) returns (out: string)
    ensures out == Encoded(bytes)
  {
    hide Shr, Shl, Number, Value, Text, Digits;
    ghost var ds: seq<digit> := [];
    out := "";
    var buffer: nat, bits: nat := 0, 0;
    EmptyNumbers();
    for i := 0 to |bytes|
      invariant bits < 5 && 8 * i == 5 * |ds| + bits && out == Text(ds)
      invariant buffer == Value(bytes[..i]) % U32_SPAN
      invariant Number(ds) == Shr(Value(bytes[..i]), bits)
    {
      ghost var v := Value(bytes[..i]);
      ghost var w := v * 256 + bytes[i];
      ValuePush(bytes, i);
      RegisterShift(v, bytes[i]);
      ShiftInByte(v, bytes[i], bits);
      buffer := (buffer * 256 + bytes[i]) % U32_SPAN;
      bits := bits + 8;
      while bits >= 5
        invariant bits <= 12 && 8 * (i + 1) == 5 * |ds| + bits && out == Text(ds)
        invariant Number(ds) == Shr(w, bits)
      {
        bits := bits - 5;
        RegisterReads(w, bits);
        ReadOn(w, bits);
        var d: digit := Shr(buffer, bits) % 32;
        NumberPush(ds, d);
        ds, out := ds + [d], out + [CharOf(d)];
      }
    }
    assert bytes[..|bytes|] == bytes;
    EncodedLength(|bytes|, |ds|, bits);
    if bits > 0 {
      LastDigit(Value(bytes), bits);
      var d: digit := Shl(buffer, 5 - bits) % U32_SPAN % 32;
      NumberPush(ds, d);
      ds, out := ds + [d], out + [CharOf(d)];
    } else {
      NoShift(Value(bytes));
    }
    DigitsNumber(ds);
  }

  lemma NoShift(v: nat)
    ensures Shr(v, 0) == v && Shl(v, 0) == v
  {
  }

  lemma EmptyNumbers()
    ensures Number([]) == 0 && Value([]) == 0 && Shr(0, 0) == 0 && Text([]) == ""
  {
  }

  lemma BytesPush(b: seq<byte>, x: byte)
    ensures Value(b + [x]) == 256 * Value(b) + x
  {
    assert (b + [x])[..|b|] == b;
  }

  lemma PrefixNumber(s: string, i: nat)
    requires i < |s| && IsText(s[..i]) && DigitOf(s[i]).Some?
    ensures IsText(s[..i + 1])
    ensures Number(DigitsOf(s[..i + 1])) == Number(DigitsOf(s[..i])) * 32 + DigitOf(s[i]).value
  {
    assert DigitsOf(s[..i + 1]) == DigitsOf(s[..i]) + [DigitOf(s[i]).value];
    NumberPush(DigitsOf(s[..i]), DigitOf(s[i]).value);
  }

  method Decode(text: string) returns (r: Option<seq<byte>>)
    ensures r == Decoded(text)
  {
    hide Shr, Number, Value, DigitsOf, Bytes;
    var out: seq<byte> := [];
    var buffer: nat, bits: nat := 0, 0;
    EmptyNumbers();
    assert DigitsOf(text[..0]) == [];
    for i := 0 to |text|
      invariant IsText(text[..i])
      invariant bits < 8 && 5 * i == 8 * |out| + bits
      invariant buffer == Number(DigitsOf(text[..i])) % U32_SPAN
      invariant Value(out) == Shr(Number(DigitsOf(text[..i])), bits)
    {
      var value := DigitOf(text[i]);
      if value.None? { return None; }
      ghost var v := Number(DigitsOf(text[..i]));
      ghost var w := v * 32 + value.value;
      PrefixNumber(text, i);
      RegisterShift(v, value.value);
      ShiftInDigit(v, value.value, bits);
      buffer := (buffer * 32 + value.value) % U32_SPAN;
      bits := bits + 5;
      if bits >= 8 {
        bits := bits - 8;
        RegisterReads(w, bits);
        ReadOn(w, bits);
        var b: byte := Shr(buffer, bits) % 256;
        BytesPush(out, b);
        out := out + [b];
      }
    }
    assert text[..|text|] == text;
    BytesValue(out);
    return Some(out);
  }
}
