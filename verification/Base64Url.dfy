// Base64url tokens over bytes (sdk/src/serialization.ts; section 5 of RFC 4648).
module Base64Url {
  import opened Prelude

  type Byte = b: int | 0 <= b < 256

  function Symbol(n: nat): char
    requires n < 64
  {
    if n < 26 then (n + 'A' as nat) as char
    else if n < 52 then (n - 26 + 'a' as nat) as char
    else if n < 62 then (n - 52 + '0' as nat) as char
    else if n == 62 then '+' else '/'
  }

  function Sextet(c: char): Option<nat> {
    if 'A' <= c <= 'Z' then Some(c as nat - 'A' as nat)
    else if 'a' <= c <= 'z' then Some(c as nat - 'a' as nat + 26)
    else if '0' <= c <= '9' then Some(c as nat - '0' as nat + 52)
    else if c == '+' then Some(62) else if c == '/' then Some(63) else None
  }

  // ---- Standard base64, padded -------------------------------------------------------------------

  /** Three bytes as four symbols. */
  function Quad(a: Byte, b: Byte, c: Byte): (r: string)
    ensures |r| == 4
  {
    [Symbol(a / 4), Symbol(a % 4 * 16 + b / 16), Symbol(b % 16 * 4 + c / 64), Symbol(c % 64)]
  }

  function Base64(bytes: seq<Byte>): string {
    if |bytes| == 0 then ""
    else if |bytes| == 1 then Quad(bytes[0], 0, 0)[..2] + "=="
    else if |bytes| == 2 then Quad(bytes[0], bytes[1], 0)[..3] + "="
    else Quad(bytes[0], bytes[1], bytes[2]) + Base64(bytes[3..])
  }

  /** The sextets of a text; characters outside the alphabet, padding included, are skipped. */
  function Sextets(text: string): (r: seq<nat>)
    ensures forall i :: 0 <= i < |r| ==> r[i] < 64
  {
    if text == "" then []
    else
      var rest := Sextets(text[1..]);
      if Sextet(text[0]).Some? then [Sextet(text[0]).value] + rest else rest
  }

  function FirstByte(p: nat, q: nat): Byte
    requires p < 64 && q < 64
  {
    p * 4 + q / 16
  }

  function SecondByte(q: nat, r: nat): Byte
    requires q < 64 && r < 64
  {
    q % 16 * 16 + r / 4
  }

  function ThirdByte(r: nat, s: nat): Byte
    requires r < 64 && s < 64
  {
    r % 4 * 64 + s
  }

  /** Whole bytes only: what is left of an incomplete group is dropped. */
  function Octets(s: seq<nat>): seq<Byte>
    requires forall i :: 0 <= i < |s| ==> s[i] < 64
  {
    if |s| < 2 then []
    else if |s| == 2 then [FirstByte(s[0], s[1])]
    else if |s| == 3 then [FirstByte(s[0], s[1]), SecondByte(s[1], s[2])]
    else [FirstByte(s[0], s[1]), SecondByte(s[1], s[2]), ThirdByte(s[2], s[3])] + Octets(s[4..])
  }

  function DecodeBase64(text: string): seq<Byte> {
    Octets(Sextets(text))
  }

  lemma SymbolSextet(n: nat)
    requires n < 64
    ensures Sextet(Symbol(n)) == Some(n) && Symbol(n) !in "-_="
  {
  }

  lemma {:induction false} SextetsSkipPadding(text: string)
    requires forall i :: 0 <= i < |text| ==> text[i] == '='
    ensures Sextets(text) == []
  {
    if text != "" { SextetsSkipPadding(text[1..]); }
  }

  lemma SextetsOf(n: nat, rest: string)
    requires n < 64
    ensures Sextets([Symbol(n)] + rest) == [n] + Sextets(rest)
  {
    SymbolSextet(n);
    assert ([Symbol(n)] + rest)[1..] == rest;
  }

  lemma SextetsOfQuad(a: Byte, b: Byte, c: Byte, rest: string)
    ensures Sextets(Quad(a, b, c) + rest) ==
              [a / 4, a % 4 * 16 + b / 16, b % 16 * 4 + c / 64, c % 64] + Sextets(rest)
  {
    hide Sextets, Symbol;
    var p, q, r, s := a / 4, a % 4 * 16 + b / 16, b % 16 * 4 + c / 64, c % 64;
    assert Quad(a, b, c) + rest == [Symbol(p)] + ([Symbol(q)] + ([Symbol(r)] + ([Symbol(s)] + rest)));
    SextetsOf(s, rest);
    SextetsOf(r, [Symbol(s)] + rest);
    SextetsOf(q, [Symbol(r)] + ([Symbol(s)] + rest));
    SextetsOf(p, [Symbol(q)] + ([Symbol(r)] + ([Symbol(s)] + rest)));
  }

  lemma SextetsOfTail(p: nat, q: nat, tail: string)
    requires p < 64 && q < 64
    ensures Sextets([Symbol(p), Symbol(q)] + tail) == [p, q] + Sextets(tail)
  {
    hide Sextets, Symbol;
    SextetsOf(q, tail);
    SextetsOf(p, [Symbol(q)] + tail);
    assert [Symbol(p), Symbol(q)] + tail == [Symbol(p)] + ([Symbol(q)] + tail);
  }

  lemma OctetsOfFour(p: nat, q: nat, r: nat, s: nat, rest: seq<nat>)
    requires p < 64 && q < 64 && r < 64 && s < 64 && forall i :: 0 <= i < |rest| ==> rest[i] < 64
    ensures Octets([p, q, r, s] + rest) == [FirstByte(p, q), SecondByte(q, r), ThirdByte(r, s)] + Octets(rest)
  {
    hide FirstByte, SecondByte, ThirdByte;
    var all := [p, q, r, s] + rest;
    assert all[0] == p && all[1] == q && all[2] == r && all[3] == s && all[4..] == rest;
  }

  /** Twenty-four bits cut into sextets and put together again. */
  lemma BitsRegroup(a: Byte, b: Byte, c: Byte)
    ensures var p, q, r, s := a / 4, a % 4 * 16 + b / 16, b % 16 * 4 + c / 64, c % 64;
            FirstByte(p, q) == a && SecondByte(q, r) == b && ThirdByte(r, s) == c
  {
  }

  lemma OctetsOfQuad(a: Byte, b: Byte, c: Byte, rest: seq<nat>)
    requires forall i :: 0 <= i < |rest| ==> rest[i] < 64
    ensures Octets([a / 4, a % 4 * 16 + b / 16, b % 16 * 4 + c / 64, c % 64] + rest) == [a, b, c] + Octets(rest)
  {
    BitsRegroup(a, b, c);
    hide FirstByte, SecondByte, ThirdByte, Octets;
    OctetsOfFour(a / 4, a % 4 * 16 + b / 16, b % 16 * 4 + c / 64, c % 64, rest);
  }

  lemma OneByte(a: Byte)
    ensures DecodeBase64(Base64([a])) == [a]
  {
    var p, q := a / 4, a % 4 * 16;
    SextetsSkipPadding("==");
    SextetsOfTail(p, q, "==");
    assert Base64([a]) == [Symbol(p), Symbol(q)] + "==";
    hide Sextets, Base64, Symbol;
    assert Sextets(Base64([a])) == [p, q];
  }

  lemma Base64OfTwo(a: Byte, b: Byte)
    ensures var p, q, r := a / 4, a % 4 * 16 + b / 16, b % 16 * 4;
            Base64([a, b]) == [Symbol(p), Symbol(q)] + ([Symbol(r)] + "=")
  {
    hide Symbol;
  }

  lemma TwoBytes(a: Byte, b: Byte)
    ensures DecodeBase64(Base64([a, b])) == [a, b]
  {
    hide Sextets, Base64, Symbol, FirstByte, SecondByte, ThirdByte;
    var p, q, r := a / 4, a % 4 * 16 + b / 16, b % 16 * 4;
    Base64OfTwo(a, b);
    SextetsSkipPadding("=");
    SextetsOf(r, "=");
    SextetsOfTail(p, q, [Symbol(r)] + "=");
    assert Sextets(Base64([a, b])) == [p, q, r];
    BitsRegroup(a, b, 0);
  }

  lemma {:induction false} Base64RoundTrip(bytes: seq<Byte>)
    ensures DecodeBase64(Base64(bytes)) == bytes
  {
    if |bytes| == 1 {
      assert bytes == [bytes[0]];
      OneByte(bytes[0]);
    } else if |bytes| == 2 {
      assert bytes == [bytes[0], bytes[1]];
      TwoBytes(bytes[0], bytes[1]);
    } else if |bytes| > 2 {
      Base64RoundTrip(bytes[3..]);
      SextetsOfQuad(bytes[0], bytes[1], bytes[2], Base64(bytes[3..]));
      OctetsOfQuad(bytes[0], bytes[1], bytes[2], Sextets(Base64(bytes[3..])));
      hide Sextets, Octets;
      assert bytes == [bytes[0], bytes[1], bytes[2]] + bytes[3..];
    }
  }

  // ---- The URL-safe alphabet without padding -----------------------------------------------------

  function ToUrl(c: char): char {
    if c == '+' then '-' else if c == '/' then '_' else c
  }

  function FromUrl(c: char): char {
    if c == '-' then '+' else if c == '_' then '/' else c
  }

  /** The two replacements, then every '=' removed. */
  function UrlSafe(text: string): string {
    if text == "" then ""
    else (if text[0] == '=' then [] else [ToUrl(text[0])]) + UrlSafe(text[1..])
  }

  function Standard(token: string): (r: string)
    ensures |r| == |token|
  {
    if token == "" then "" else [FromUrl(token[0])] + Standard(token[1..])
  }

  /** The padding that the length of a token calls for. */
  function Padding(token: string): string {
    seq((4 - |token| % 4) % 4, _ => '=')
  }

  function Encode(bytes: seq<Byte>): string {
    UrlSafe(Base64(bytes))
  }

  function Decode(token: string): seq<Byte> {
    DecodeBase64(Standard(token) + Padding(token))
  }

  predicate IsUrlChar(c: char) {
    'A' <= c <= 'Z' || 'a' <= c <= 'z' || '0' <= c <= '9' || c == '-' || c == '_'
  }

  lemma UrlSafeSymbol(n: nat, rest: string)
    requires n < 64
    ensures UrlSafe([Symbol(n)] + rest) == [ToUrl(Symbol(n))] + UrlSafe(rest)
    ensures FromUrl(ToUrl(Symbol(n))) == Symbol(n) && IsUrlChar(ToUrl(Symbol(n)))
  {
    assert ([Symbol(n)] + rest)[1..] == rest;
  }

  lemma StandardFirst(c: char, rest: string)
    ensures Standard([c] + rest) == [FromUrl(c)] + Standard(rest)
  {
    assert ([c] + rest)[1..] == rest;
  }

  ghost predicate UrlChars(token: string) {
    forall i :: 0 <= i < |token| ==> IsUrlChar(token[i])
  }

  /** The way to a token and back takes text to out, over n characters of the URL alphabet. */
  ghost predicate Travels(text: string, out: string, n: nat) {
    Standard(UrlSafe(text)) == out && |UrlSafe(text)| == n && UrlChars(UrlSafe(text))
  }

  lemma SymbolTravels(k: nat, text: string, out: string, n: nat)
    requires k < 64 && Travels(text, out, n)
    ensures Travels([Symbol(k)] + text, [Symbol(k)] + out, n + 1)
  {
    UrlSafeSymbol(k, text);
    StandardFirst(ToUrl(Symbol(k)), UrlSafe(text));
    hide UrlSafe, Standard, Symbol, IsUrlChar;
  }

  lemma {:induction false} PaddingTravels(text: string)
    requires forall i :: 0 <= i < |text| ==> text[i] == '='
    ensures Travels(text, "", 0)
  {
    if text != "" { PaddingTravels(text[1..]); }
  }

  lemma QuadTravels(a: Byte, b: Byte, c: Byte, text: string, out: string, n: nat)
    requires Travels(text, out, n)
    ensures Travels(Quad(a, b, c) + text, Quad(a, b, c) + out, n + 4)
  {
    var p, q, r, s := a / 4, a % 4 * 16 + b / 16, b % 16 * 4 + c / 64, c % 64;
    assert Quad(a, b, c) + text == [Symbol(p)] + ([Symbol(q)] + ([Symbol(r)] + ([Symbol(s)] + text)));
    assert Quad(a, b, c) + out == [Symbol(p)] + ([Symbol(q)] + ([Symbol(r)] + ([Symbol(s)] + out)));
    hide Symbol, Travels;
    SymbolTravels(s, text, out, n);
    SymbolTravels(r, [Symbol(s)] + text, [Symbol(s)] + out, n + 1);
    SymbolTravels(q, [Symbol(r)] + ([Symbol(s)] + text), [Symbol(r)] + ([Symbol(s)] + out), n + 2);
    SymbolTravels(p, [Symbol(q)] + ([Symbol(r)] + ([Symbol(s)] + text)),
                  [Symbol(q)] + ([Symbol(r)] + ([Symbol(s)] + out)), n + 3);
  }

  /** The unpadded part of a base64 text, and how much padding follows it. */
  lemma {:induction false} TokenTravels(bytes: seq<Byte>) returns (body: string)
    ensures Base64(bytes) == body + Padding(body)
    ensures Travels(Base64(bytes), body, |body|)
  {
    if bytes == [] {
      body := "";
      PaddingTravels("");
    } else if |bytes| == 1 {
      body := OneTravels(bytes[0]);
      assert bytes == [bytes[0]];
    } else if |bytes| == 2 {
      body := TwoTravels(bytes[0], bytes[1]);
      assert bytes == [bytes[0], bytes[1]];
    } else {
      var rest := TokenTravels(bytes[3..]);
      body := Quad(bytes[0], bytes[1], bytes[2]) + rest;
      QuadTravels(bytes[0], bytes[1], bytes[2], Base64(bytes[3..]), rest, |rest|);
      SamePadding(body, rest);
      hide Quad, Travels, Padding;
      Regroup(Quad(bytes[0], bytes[1], bytes[2]), rest, Padding(rest));
    }
  }

  lemma Regroup(a: string, b: string, c: string)
    ensures (a + b) + c == a + (b + c)
  {
  }

  lemma SamePadding(a: string, b: string)
    requires |a| == |b| + 4
    ensures Padding(a) == Padding(b)
  {
  }

  lemma OneTravels(a: Byte) returns (body: string)
    ensures Base64([a]) == body + Padding(body)
    ensures Travels(Base64([a]), body, |body|)
  {
    var p, q := a / 4, a % 4 * 16;
    body := [Symbol(p)] + ([Symbol(q)] + "");
    assert Base64([a]) == [Symbol(p)] + ([Symbol(q)] + "==");
    PaddingTravels("==");
    hide Travels, Symbol, Base64;
    SymbolTravels(q, "==", "", 0);
    SymbolTravels(p, [Symbol(q)] + "==", [Symbol(q)] + "", 1);
  }

  lemma TwoTravels(a: Byte, b: Byte) returns (body: string)
    ensures Base64([a, b]) == body + Padding(body)
    ensures Travels(Base64([a, b]), body, |body|)
  {
    hide Travels, Symbol, Base64;
    var p, q, r := a / 4, a % 4 * 16 + b / 16, b % 16 * 4;
    body := [Symbol(p)] + ([Symbol(q)] + ([Symbol(r)] + ""));
    Base64OfTwo(a, b);
    assert Base64([a, b]) == [Symbol(p)] + ([Symbol(q)] + ([Symbol(r)] + "="));
    PaddingTravels("=");
    SymbolTravels(r, "=", "", 0);
    SymbolTravels(q, [Symbol(r)] + "=", [Symbol(r)] + "", 1);
    SymbolTravels(p, [Symbol(q)] + ([Symbol(r)] + "="), [Symbol(q)] + ([Symbol(r)] + ""), 2);
  }

  /** Decoding restores the padding and the alphabet exactly, and so the bytes. */
  lemma TokenRoundTrip(bytes: seq<Byte>)
    ensures Decode(Encode(bytes)) == bytes
    ensures Standard(Encode(bytes)) + Padding(Encode(bytes)) == Base64(bytes)
    ensures UrlChars(Encode(bytes))
  {
    var body := TokenTravels(bytes);
    Base64RoundTrip(bytes);
    hide DecodeBase64, Base64, UrlSafe, Standard, UrlChars;
    assert Padding(Encode(bytes)) == Padding(body);
  }
}
