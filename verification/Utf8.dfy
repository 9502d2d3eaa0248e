// Text as bytes: TextEncoder.encode and TextDecoder.decode, which drops a leading byte order mark.
module Utf8 {
  import opened Prelude
  import opened Base64Url

  const REPLACEMENT := 0xFFFD as char
  const BYTE_ORDER_MARK := 0xFEFF as char

  predicate IsScalar(x: int) {
    0 <= x < 0xD800 || 0xE000 <= x < 0x11_0000
  }

  function EncodeChar(c: char): (r: seq<Byte>)
    ensures 1 <= |r| <= 4
  {
    var x := c as int;
    if x < 0x80 then [x]
    else if x < 0x800 then [0xC0 + x / 64, 0x80 + x % 64]
    else if x < 0x1_0000 then [0xE0 + x / 4096, 0x80 + x / 64 % 64, 0x80 + x % 64]
    else [0xF0 + x / 262144, 0x80 + x / 4096 % 64, 0x80 + x / 64 % 64, 0x80 + x % 64]
  }

  function EncodeText(s: string): seq<Byte> {
    if s == "" then [] else EncodeChar(s[0]) + EncodeText(s[1..])
  }

  /** How many bytes follow a lead byte, and the bounds of the first of them; 0 for a byte that leads nothing. */
  function Following(b: Byte): nat {
    if 0xC2 <= b <= 0xDF then 1 else if 0xE0 <= b <= 0xEF then 2 else if 0xF0 <= b <= 0xF4 then 3 else 0
  }

  predicate Continues(lead: Byte, b: Byte) {
    (if lead == 0xE0 then 0xA0 else if lead == 0xF0 then 0x90 else 0x80) <= b
    <= (if lead == 0xED then 0x9F else if lead == 0xF4 then 0x8F else 0xBF)
  }

  predicate IsTrail(b: Byte) {
    0x80 <= b <= 0xBF
  }

  /** How many of the bytes that should follow the lead byte do. */
  function Matched(bytes: seq<Byte>): (n: nat)
    requires bytes != []
    ensures n < |bytes| && n <= Following(bytes[0])
    ensures n >= 1 ==> Continues(bytes[0], bytes[1])
    ensures n >= 2 ==> IsTrail(bytes[2])
    ensures n >= 3 ==> IsTrail(bytes[3])
  {
    if Following(bytes[0]) == 0 || |bytes| < 2 || !Continues(bytes[0], bytes[1]) then 0
    else if Following(bytes[0]) == 1 || |bytes| < 3 || !IsTrail(bytes[2]) then 1
    else if Following(bytes[0]) == 2 || |bytes| < 4 || !IsTrail(bytes[3]) then 2
    else 3
  }

  function Less(b: Byte, base: int): int {
    b as int - base
  }

  /** The scalar value of a complete sequence. */
  function Scalar(bytes: seq<Byte>): (x: int)
    requires bytes != [] && Following(bytes[0]) > 0 && Matched(bytes) == Following(bytes[0])
    ensures IsScalar(x)
  {
    var n := Following(bytes[0]);
    if n == 1 then Less(bytes[0], 0xC0) * 64 + Less(bytes[1], 0x80)
    else if n == 2 then Less(bytes[0], 0xE0) * 4096 + Less(bytes[1], 0x80) * 64 + Less(bytes[2], 0x80)
    else Less(bytes[0], 0xF0) * 262144 + Less(bytes[1], 0x80) * 4096 + Less(bytes[2], 0x80) * 64 + Less(bytes[3], 0x80)
  }

  /** The UTF-8 decoder: what does not continue a sequence ends it with a replacement character and is read again. */
  function DecodeBytes(bytes: seq<Byte>): string
    decreases |bytes|
  {
    if bytes == [] then ""
    else if bytes[0] < 0x80 then [bytes[0] as char] + DecodeBytes(bytes[1..])
    else
      var n := Matched(bytes);
      (if n > 0 && n == Following(bytes[0]) then [Scalar(bytes) as char] else [REPLACEMENT])
      + DecodeBytes(bytes[n + 1..])
  }

  const MARK_BYTES: seq<Byte> := [0xEF, 0xBB, 0xBF]

  function DecodeText(bytes: seq<Byte>): string {
    DecodeBytes(if MARK_BYTES <= bytes then bytes[3..] else bytes)
  }

  /** The text without a leading byte order mark. */
  function Unmarked(s: string): string {
    if s != "" && s[0] == BYTE_ORDER_MARK then s[1..] else s
  }

  // ---- Round trip --------------------------------------------------------------------------------

  lemma TwoByteRoundTrip(c: char, rest: seq<Byte>)
    requires 0x80 <= c as int < 0x800
    ensures DecodeBytes(EncodeChar(c) + rest) == [c] + DecodeBytes(rest)
  {
    var x, b := c as int, EncodeChar(c) + rest;
    assert b[0] == 0xC0 + x / 64 && b[1] == 0x80 + x % 64 && b[2..] == rest;
    assert Matched(b) == 1 == Following(b[0]);
    assert Scalar(b) == x;
    assert b[Matched(b) + 1..] == rest;
  }

  lemma ThreeByteRoundTrip(c: char, rest: seq<Byte>)
    requires 0x800 <= c as int < 0x1_0000
    ensures DecodeBytes(EncodeChar(c) + rest) == [c] + DecodeBytes(rest)
  {
    var x, b := c as int, EncodeChar(c) + rest;
    assert b[0] == 0xE0 + x / 4096 && b[1] == 0x80 + x / 64 % 64 && b[2] == 0x80 + x % 64 && b[3..] == rest;
    assert Continues(b[0], b[1]);
    assert Matched(b) == 2 == Following(b[0]);
    assert Scalar(b) == x;
    assert b[Matched(b) + 1..] == rest;
  }

  lemma FourParts(x: int)
    requires 0x1_0000 <= x < 0x11_0000
    ensures x == x / 262144 * 262144 + x / 4096 % 64 * 4096 + x / 64 % 64 * 64 + x % 64
    ensures 0 <= x / 262144 <= 4
    ensures x / 262144 == 0 ==> x / 4096 % 64 >= 0x10
    ensures x / 262144 == 4 ==> x / 4096 % 64 < 0x10
  {
  }

  lemma FourByteRoundTrip(c: char, rest: seq<Byte>)
    requires 0x1_0000 <= c as int
    ensures DecodeBytes(EncodeChar(c) + rest) == [c] + DecodeBytes(rest)
  {
    var x, b := c as int, EncodeChar(c) + rest;
    FourParts(x);
    var p, q, r, t := x / 262144, x / 4096 % 64, x / 64 % 64, x % 64;
    assert b[0] == 0xF0 + p && b[1] == 0x80 + q && b[2] == 0x80 + r && b[3] == 0x80 + t && b[4..] == rest;
    hide EncodeChar;
    assert Following(b[0]) == 3 && Continues(b[0], b[1]) && IsTrail(b[2]) && IsTrail(b[3]);
    assert Matched(b) == 3;
    hide Continues, Matched;
    assert Scalar(b) == x;
    assert b[Matched(b) + 1..] == rest;
  }

  lemma CharRoundTrip(c: char, rest: seq<Byte>)
    ensures DecodeBytes(EncodeChar(c) + rest) == [c] + DecodeBytes(rest)
  {
    var x := c as int;
    if x < 0x80 {
      assert (EncodeChar(c) + rest)[1..] == rest;
    } else if x < 0x800 {
      TwoByteRoundTrip(c, rest);
    } else if x < 0x1_0000 {
      ThreeByteRoundTrip(c, rest);
    } else {
      FourByteRoundTrip(c, rest);
    }
  }

  lemma {:induction false} BytesRoundTrip(s: string)
    ensures DecodeBytes(EncodeText(s)) == s
  {
    if s != "" {
      BytesRoundTrip(s[1..]);
      CharRoundTrip(s[0], EncodeText(s[1..]));
      hide DecodeBytes, EncodeChar;
      assert s == [s[0]] + s[1..];
    }
  }

  /** Only the byte order mark itself is written as the mark's bytes. */
  lemma MarkBytes(c: char, rest: seq<Byte>)
    ensures MARK_BYTES <= EncodeChar(c) + rest <==> c == BYTE_ORDER_MARK
  {
    var b := EncodeChar(c) + rest;
    if MARK_BYTES <= b {
      assert b[0] == 0xEF && b[1] == 0xBB && b[2] == 0xBF;
    }
    if c == BYTE_ORDER_MARK {
      assert EncodeChar(c) == MARK_BYTES;
    }
  }

  /** Decoding what was encoded gives the text back, less one leading byte order mark. */
  lemma TextRoundTrip(s: string)
    ensures DecodeText(EncodeText(s)) == Unmarked(s)
  {
    if s == "" {
    } else {
      MarkBytes(s[0], EncodeText(s[1..]));
      if s[0] == BYTE_ORDER_MARK {
        assert EncodeChar(s[0]) == MARK_BYTES;
        assert EncodeText(s)[3..] == EncodeText(s[1..]);
        BytesRoundTrip(s[1..]);
      } else {
        BytesRoundTrip(s);
      }
    }
  }
}
