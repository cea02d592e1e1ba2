/**
 * Byte strings and the three text encodings the core uses: lowercase hex
 * (`bytes.hex()`, `hexdigest()`, `bytes.fromhex`), UTF-8 (`str.encode` and the
 * strict `bytes.decode('utf-8')`) and standard base64 (`base64.b64encode`).
 */
module Bytes {
  import opened Wrappers

  type Byte = x: int | 0 <= x < 256

  // ---------------------------------------------------------------- hex

  const HexAlphabet: string := "0123456789abcdef"

  predicate IsLowerHexDigit(c: char) {
    '0' <= c <= '9' || 'a' <= c <= 'f'
  }

  function HexDigit(n: nat): (c: char)
    requires n < 16
    ensures IsLowerHexDigit(c)
  {
    HexAlphabet[n]
  }

  /** The value of a hex digit of either case, as `bytes.fromhex` reads it. */
  function HexValue(c: char): (r: Option<nat>)
    ensures r.Some? ==> r.value < 16
  {
    if '0' <= c <= '9' then Some(c as int - '0' as int)
    else if 'a' <= c <= 'f' then Some(c as int - 'a' as int + 10)
    else if 'A' <= c <= 'F' then Some(c as int - 'A' as int + 10)
    else None
  }

  lemma HexDigitValue(n: nat)
    requires n < 16
    ensures HexValue(HexDigit(n)) == Some(n)
  {
  }

  function HexByte(b: Byte): string {
    [HexDigit(b / 16), HexDigit(b % 16)]
  }

  /** `bytes.hex()`: two lowercase hex digits per byte, high nibble first. */
  function Hex(bs: seq<Byte>): (s: string)
    ensures |s| == 2 * |bs|
    ensures forall i :: 0 <= i < |s| ==> IsLowerHexDigit(s[i])
  {
    if bs == [] then ""
    else
      var tail := Hex(bs[1..]);
      assert forall i :: 2 <= i < 2 + |tail| ==> (HexByte(bs[0]) + tail)[i] == tail[i - 2];
      HexByte(bs[0]) + tail
  }

  lemma {:induction false} HexAppend(a: seq<Byte>, b: seq<Byte>)
    ensures Hex(a + b) == Hex(a) + Hex(b)
  {
    if a != [] {
      assert (a + b)[1..] == a[1..] + b;
      HexAppend(a[1..], b);
      assert Hex(a + b) == HexByte(a[0]) + Hex(a[1..] + b);
      assert Hex(a) == HexByte(a[0]) + Hex(a[1..]);
    } else {
      assert a + b == b;
    }
  }

  /** The hex form of `a + b` ends with the hex form of `b`. */
  lemma HexSuffix(a: seq<Byte>, b: seq<Byte>)
    ensures Hex(a + b)[2 * |a|..] == Hex(b)
  {
    HexAppend(a, b);
  }

  /** `bytes.fromhex(s)` on a string of hex-digit pairs (None where it raises). */
  function FromHex(s: string): Option<seq<Byte>>
    decreases |s|
  {
    if s == [] then Some([])
    else if |s| == 1 then None
    else
      var hi, lo, rest := HexValue(s[0]), HexValue(s[1]), FromHex(s[2..]);
      if hi.Some? && lo.Some? && rest.Some? then Some([hi.value * 16 + lo.value] + rest.value) else None
  }

  /** Decoding a leading pair of digits that spell `b`. */
  lemma FromHexPair(s: string, b: Byte, rest: seq<Byte>)
    requires |s| >= 2 && s[0] == HexDigit(b / 16) && s[1] == HexDigit(b % 16)
    requires FromHex(s[2..]) == Some(rest)
    ensures FromHex(s) == Some([b] + rest)
  {
    HexDigitValue(b / 16);
    HexDigitValue(b % 16);
  }

  /** `bytes.fromhex(b.hex()) == b`. */
  lemma {:induction false} FromHexOfHex(bs: seq<Byte>)
    ensures FromHex(Hex(bs)) == Some(bs)
  {
    if bs != [] {
      var s := Hex(bs);
      assert s == HexByte(bs[0]) + Hex(bs[1..]);
      assert s[2..] == Hex(bs[1..]);
      FromHexOfHex(bs[1..]);
      FromHexPair(s, bs[0], bs[1..]);
      assert bs == [bs[0]] + bs[1..];
    }
  }

  /** Hex is injective: distinct byte strings have distinct hex forms. */
  lemma HexInjective(a: seq<Byte>, b: seq<Byte>)
    requires Hex(a) == Hex(b)
    ensures a == b
  {
    FromHexOfHex(a);
    FromHexOfHex(b);
  }

  // ---------------------------------------------------------------- UTF-8

  predicate IsContinuation(b: Byte) {
    0x80 <= b < 0xC0
  }

  /** The UTF-8 encoding of one code point (one to four bytes). */
  function EncodeChar(c: char): (bs: seq<Byte>)
    ensures 1 <= |bs| <= 4
    ensures (|bs| == 1) == (c as int < 0x80)
  {
    var n := c as int;
    var d0, m1 := n % 64, n / 64;
    var d1, m2 := m1 % 64, m1 / 64;
    var d2, m3 := m2 % 64, m2 / 64;
    if n < 0x80 then [n]
    else if n < 0x800 then [0xC0 + m1, 0x80 + d0]
    else if n < 0x10000 then [0xE0 + m2, 0x80 + d1, 0x80 + d0]
    else [0xF0 + m3, 0x80 + d2, 0x80 + d1, 0x80 + d0]
  }

  /** `s.encode("utf-8")`. */
  function Utf8Encode(s: string): seq<Byte> {
    if s == [] then [] else EncodeChar(s[0]) + Utf8Encode(s[1..])
  }

  lemma {:induction false} Utf8EncodeAppend(a: string, b: string)
    ensures Utf8Encode(a + b) == Utf8Encode(a) + Utf8Encode(b)
  {
    if a != [] {
      assert (a + b)[1..] == a[1..] + b;
      Utf8EncodeAppend(a[1..], b);
      assert Utf8Encode(a + b) == EncodeChar(a[0]) + Utf8Encode(a[1..] + b);
    } else {
      assert a + b == b;
    }
  }

  /** An ASCII-only string encodes to its own code points, one byte each. */
  lemma {:induction false} Utf8EncodeAscii(s: string)
    requires forall i :: 0 <= i < |s| ==> s[i] as int < 0x80
    ensures |Utf8Encode(s)| == |s|
    ensures forall i :: 0 <= i < |s| ==> Utf8Encode(s)[i] == s[i] as int
  {
    if s != [] {
      Utf8EncodeAscii(s[1..]);
      assert Utf8Encode(s) == [s[0] as int] + Utf8Encode(s[1..]);
    }
  }

  /**
   * Strict decoding of the code point at the front of `bs`: its character and
   * its length in bytes, or None where Python raises UnicodeDecodeError
   * (bad lead or continuation byte, overlong form, surrogate, beyond U+10FFFF,
   * truncated sequence).
   */
  function DecodeChar(bs: seq<Byte>): (r: Option<(char, nat)>)
    ensures r.Some? ==> 1 <= r.value.1 <= |bs|
  {
    if bs == [] then None
    else
      var b0: int := bs[0];
      if b0 < 0x80 then Some((b0 as char, 1))
      else if 0xC0 <= b0 < 0xE0 && |bs| >= 2 && IsContinuation(bs[1]) then
        var n: int := (b0 - 0xC0) * 64 + (bs[1] - 0x80);
        if n < 0x80 then None else Some((n as char, 2))
      else if 0xE0 <= b0 < 0xF0 && |bs| >= 3 && IsContinuation(bs[1]) && IsContinuation(bs[2]) then
        var n: int := ((b0 - 0xE0) * 64 + (bs[1] - 0x80)) * 64 + (bs[2] - 0x80);
        if n < 0x800 || (0xD800 <= n < 0xE000) then None else Some((n as char, 3))
      else if 0xF0 <= b0 < 0xF8 && |bs| >= 4 && IsContinuation(bs[1]) && IsContinuation(bs[2])
              && IsContinuation(bs[3]) then
        var n: int := (((b0 - 0xF0) * 64 + (bs[1] - 0x80)) * 64 + (bs[2] - 0x80)) * 64 + (bs[3] - 0x80);
        if n < 0x10000 || n > 0x10FFFF then None else Some((n as char, 4))
      else None
  }

  /** `bs.decode("utf-8")`: the text, or None when the bytes are not valid UTF-8. */
  function Utf8Decode(bs: seq<Byte>): Option<string>
    decreases |bs|
  {
    if bs == [] then Some("")
    else
      match DecodeChar(bs)
      case None => None
      case Some((c, k)) =>
        match Utf8Decode(bs[k..])
        case None => None
        case Some(rest) => Some([c] + rest)
  }

  /** Decoding the encoding of one character gives that character back. */
  lemma DecodeEncodeChar(c: char, rest: seq<Byte>)
    ensures DecodeChar(EncodeChar(c) + rest) == Some((c, |EncodeChar(c)|))
  {
  }

  /** Every decodable front is the encoding of the decoded character. */
  lemma DecodedCharEncodes(bs: seq<Byte>)
    requires DecodeChar(bs).Some?
    ensures bs[..DecodeChar(bs).value.1] == EncodeChar(DecodeChar(bs).value.0)
  {
    if 0xC0 <= bs[0] < 0xE0 {
      DecodedTwoEncodes(bs);
    } else if 0xE0 <= bs[0] < 0xF0 {
      DecodedThreeEncodes(bs);
    } else if 0xF0 <= bs[0] < 0xF8 {
      DecodedFourEncodes(bs);
    }
  }

  lemma DecodedTwoEncodes(bs: seq<Byte>)
    requires DecodeChar(bs).Some? && 0xC0 <= bs[0] < 0xE0
    ensures bs[..DecodeChar(bs).value.1] == EncodeChar(DecodeChar(bs).value.0)
  {
    var b0: int := bs[0];
    var n: int := (b0 - 0xC0) * 64 + (bs[1] - 0x80);
    assert n / 64 == b0 - 0xC0 && n % 64 == bs[1] - 0x80;
  }

  lemma DecodedThreeEncodes(bs: seq<Byte>)
    requires DecodeChar(bs).Some? && 0xE0 <= bs[0] < 0xF0
    ensures bs[..DecodeChar(bs).value.1] == EncodeChar(DecodeChar(bs).value.0)
  {
    var b0: int := bs[0];
    var m1: int := (b0 - 0xE0) * 64 + (bs[1] - 0x80);
    var n: int := m1 * 64 + (bs[2] - 0x80);
    assert n / 64 == m1 && n % 64 == bs[2] - 0x80;
    assert m1 / 64 == b0 - 0xE0 && m1 % 64 == bs[1] - 0x80;
  }

  lemma DecodedFourEncodes(bs: seq<Byte>)
    requires DecodeChar(bs).Some? && 0xF0 <= bs[0] < 0xF8
    ensures bs[..DecodeChar(bs).value.1] == EncodeChar(DecodeChar(bs).value.0)
  {
    var b0: int := bs[0];
    var m2: int := (b0 - 0xF0) * 64 + (bs[1] - 0x80);
    var m1: int := m2 * 64 + (bs[2] - 0x80);
    var n: int := m1 * 64 + (bs[3] - 0x80);
    assert n / 64 == m1 && n % 64 == bs[3] - 0x80;
    assert m1 / 64 == m2 && m1 % 64 == bs[2] - 0x80;
    assert m2 / 64 == b0 - 0xF0 && m2 % 64 == bs[1] - 0x80;
  }

  /** `s.encode("utf-8").decode("utf-8") == s`. */
  lemma {:induction false} Utf8RoundTrip(s: string)
    ensures Utf8Decode(Utf8Encode(s)) == Some(s)
  {
    if s != [] {
      var e := EncodeChar(s[0]);
      DecodeEncodeChar(s[0], Utf8Encode(s[1..]));
      assert Utf8Encode(s) == e + Utf8Encode(s[1..]);
      assert Utf8Encode(s)[|e|..] == Utf8Encode(s[1..]);
      Utf8RoundTrip(s[1..]);
      assert Utf8Decode(Utf8Encode(s)) == Some([s[0]] + s[1..]);
      assert s == [s[0]] + s[1..];
    }
  }

  /** Whatever decodes, decodes to the one string whose encoding it is. */
  lemma {:induction false} Utf8DecodeSound(bs: seq<Byte>)
    requires Utf8Decode(bs).Some?
    ensures Utf8Encode(Utf8Decode(bs).value) == bs
    decreases |bs|
  {
    if bs != [] {
      var k := DecodeChar(bs).value.1;
      DecodedCharEncodes(bs);
      Utf8DecodeSound(bs[k..]);
      var s := Utf8Decode(bs).value;
      assert s[1..] == Utf8Decode(bs[k..]).value;
      assert bs == bs[..k] + bs[k..];
    }
  }

  // ---------------------------------------------------------------- base64

  function Base64Char(n: nat): char
    requires n < 64
  {
    if n < 26 then ('A' as int + n) as char
    else if n < 52 then ('a' as int + n - 26) as char
    else if n < 62 then ('0' as int + n - 52) as char
    else if n == 62 then '+'
    else '/'
  }

  predicate IsBase64Char(c: char) {
    'A' <= c <= 'Z' || 'a' <= c <= 'z' || '0' <= c <= '9' || c == '+' || c == '/'
  }

  function Base64Value(c: char): Option<nat> {
    if 'A' <= c <= 'Z' then Some(c as int - 'A' as int)
    else if 'a' <= c <= 'z' then Some(c as int - 'a' as int + 26)
    else if '0' <= c <= '9' then Some(c as int - '0' as int + 52)
    else if c == '+' then Some(62)
    else if c == '/' then Some(63)
    else None
  }

  lemma Base64CharValue(n: nat)
    requires n < 64
    ensures IsBase64Char(Base64Char(n)) && Base64Value(Base64Char(n)) == Some(n)
  {
  }

  /** The four characters for the three bytes `a b c` (`c` absent: `=` padding as `b64encode` pads). */
  function Quad(a: Byte, b: Byte, c: Byte, count: nat): string
    requires 1 <= count <= 3
  {
    var c0 := Base64Char(a / 4);
    var c1 := Base64Char((a % 4) * 16 + b / 16);
    var c2 := Base64Char((b % 16) * 4 + c / 64);
    var c3 := Base64Char(c % 64);
    if count == 3 then [c0, c1, c2, c3]
    else if count == 2 then [c0, c1, c2, '=']
    else [c0, c1, '=', '=']
  }

  /** `base64.b64encode(bs).decode()`. */
  function Base64Encode(bs: seq<Byte>): (s: string)
    ensures |s| == 4 * ((|bs| + 2) / 3)
  {
    if |bs| == 0 then ""
    else if |bs| == 1 then Quad(bs[0], 0, 0, 1)
    else if |bs| == 2 then Quad(bs[0], bs[1], 0, 2)
    else Quad(bs[0], bs[1], bs[2], 3) + Base64Encode(bs[3..])
  }

  /** Base64 output is drawn from the 64-letter alphabet, with `=` only as padding at the end. */
  lemma {:induction false} Base64Alphabet(bs: seq<Byte>)
    ensures forall i :: 0 <= i < |Base64Encode(bs)| ==>
              IsBase64Char(Base64Encode(bs)[i]) || (Base64Encode(bs)[i] == '=' && i >= |Base64Encode(bs)| - 2)
  {
    if |bs| >= 3 {
      Base64Alphabet(bs[3..]);
    }
  }

  /** Decoding of four base64 characters into up to three bytes (`=` marks padding). */
  function DecodeQuad(q: string): Option<seq<Byte>>
    requires |q| == 4
  {
    var v0, v1, v2, v3 := Base64Value(q[0]), Base64Value(q[1]), Base64Value(q[2]), Base64Value(q[3]);
    if v0.None? || v1.None? then None
    else if v2.Some? && v3.Some? then
      Some([v0.value * 4 + v1.value / 16, (v1.value % 16) * 16 + v2.value / 4, (v2.value % 4) * 64 + v3.value])
    else if v2.Some? && q[3] == '=' then
      Some([v0.value * 4 + v1.value / 16, (v1.value % 16) * 16 + v2.value / 4])
    else if q[2] == '=' && q[3] == '=' then
      Some([v0.value * 4 + v1.value / 16])
    else None
  }

  /** `base64.b64decode` on well-padded input. */
  function Base64Decode(s: string): Option<seq<Byte>>
    decreases |s|
  {
    if s == [] then Some([])
    else if |s| < 4 then None
    else
      var head, rest := DecodeQuad(s[..4]), Base64Decode(s[4..]);
      if head.Some? && rest.Some? then Some(head.value + rest.value) else None
  }

  lemma SplitFirst(a: Byte, b: Byte)
    ensures (a / 4) * 4 + ((a % 4) * 16 + b / 16) / 16 == a
  {
    assert ((a % 4) * 16 + b / 16) / 16 == a % 4;
  }

  lemma SplitSecond(a: Byte, b: Byte, c: Byte)
    ensures (((a % 4) * 16 + b / 16) % 16) * 16 + ((b % 16) * 4 + c / 64) / 4 == b
  {
    assert ((a % 4) * 16 + b / 16) % 16 == b / 16;
    assert ((b % 16) * 4 + c / 64) / 4 == b % 16;
  }

  lemma SplitThird(b: Byte, c: Byte)
    ensures (((b % 16) * 4 + c / 64) % 4) * 64 + c % 64 == c
  {
    assert ((b % 16) * 4 + c / 64) % 4 == c / 64;
  }

  lemma DecodeFullQuad(a: Byte, b: Byte, c: Byte)
    ensures DecodeQuad(Quad(a, b, c, 3)) == Some([a, b, c])
  {
    SplitFirst(a, b);
    SplitSecond(a, b, c);
    SplitThird(b, c);
    Base64CharValue(a / 4);
    Base64CharValue((a % 4) * 16 + b / 16);
    Base64CharValue((b % 16) * 4 + c / 64);
    Base64CharValue(c % 64);
  }

  lemma DecodeTwoByteQuad(a: Byte, b: Byte)
    ensures DecodeQuad(Quad(a, b, 0, 2)) == Some([a, b])
  {
    SplitFirst(a, b);
    SplitSecond(a, b, 0);
    Base64CharValue(a / 4);
    Base64CharValue((a % 4) * 16 + b / 16);
    Base64CharValue((b % 16) * 4);
  }

  lemma DecodeOneByteQuad(a: Byte)
    ensures DecodeQuad(Quad(a, 0, 0, 1)) == Some([a])
  {
    SplitFirst(a, 0);
    Base64CharValue(a / 4);
    Base64CharValue((a % 4) * 16);
  }

  lemma RoundTripShort(bs: seq<Byte>)
    requires 1 <= |bs| <= 2
    ensures Base64Decode(Base64Encode(bs)) == Some(bs)
  {
    var s := Base64Encode(bs);
    if |bs| == 1 {
      DecodeOneByteQuad(bs[0]);
      assert s == Quad(bs[0], 0, 0, 1);
    } else {
      DecodeTwoByteQuad(bs[0], bs[1]);
      assert s == Quad(bs[0], bs[1], 0, 2);
    }
    assert s[..4] == s && s[4..] == [];
    assert bs == if |bs| == 1 then [bs[0]] else [bs[0], bs[1]];
    assert DecodeQuad(s[..4]) == Some(bs);
    assert Base64Decode(s[4..]) == Some([]);
    assert bs + [] == bs;
  }

  /** `b64decode(b64encode(bs)) == bs`. */
  lemma {:induction false} Base64RoundTrip(bs: seq<Byte>)
    ensures Base64Decode(Base64Encode(bs)) == Some(bs)
  {
    if 1 <= |bs| <= 2 {
      RoundTripShort(bs);
    } else if |bs| >= 3 {
      var s := Base64Encode(bs);
      DecodeFullQuad(bs[0], bs[1], bs[2]);
      assert s[..4] == Quad(bs[0], bs[1], bs[2], 3);
      assert s[4..] == Base64Encode(bs[3..]);
      Base64RoundTrip(bs[3..]);
      assert bs == [bs[0], bs[1], bs[2]] + bs[3..];
    }
  }
}
