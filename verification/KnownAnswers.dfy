// Known answers: the alphabets and codes that round trips leave open, at published values.
module KnownAnswers {
  import opened Prelude
  import opened Base64Url
  import opened Utf8
  import opened Hex

  /** The alphabet of section 4 of RFC 4648. */
  lemma UpperLetters(n: nat)
    requires n < 26
    ensures Symbol(n) == "ABCDEFGHIJKLMNOPQRSTUVWXYZ"[n]
  {
  }

  lemma LowerLetters(n: nat)
    requires n < 26
    ensures Symbol(26 + n) == "abcdefghijklmnopqrstuvwxyz"[n]
  {
  }

  lemma OtherSymbols(n: nat)
    requires n < 12
    ensures Symbol(52 + n) == "0123456789+/"[n] && ToUrl(Symbol(52 + n)) == "0123456789-_"[n]
  {
  }

  /** Test vectors of section 10 of RFC 4648: f, fo and foo, and foobar. */
  lemma Base64Vectors()
    ensures Base64([0x66]) == "Zg==" && Base64([0x66, 0x6f]) == "Zm8=" && Base64([0x66, 0x6f, 0x6f]) == "Zm9v"
  {
  }

  lemma Base64LongVector()
    ensures Base64([0x66, 0x6f, 0x6f, 0x62, 0x61, 0x72]) == "Zm9vYmFy"
  {
    assert [0x66, 0x6f, 0x6f, 0x62, 0x61, 0x72][3..] == [0x62, 0x61, 0x72];
    assert Base64([0x62, 0x61, 0x72]) == "YmFy";
  }

  lemma LastSymbols()
    ensures Base64([0xfb, 0xff]) == "+/8="
  {
  }

  /** The two symbols that differ, and no padding. */
  lemma UrlVector()
    ensures Encode([0xfb, 0xff]) == "-_8"
  {
    hide Base64;
    LastSymbols();
    assert "+/8="[1..] == "/8=" && "/8="[1..] == "8=" && "8="[1..] == "=" && "="[1..] == "";
    assert UrlSafe("=") == "" && UrlSafe("8=") == "8" && UrlSafe("/8=") == "_8";
  }

  /** Characters of one, two, three and four bytes: a dollar, a cent, a euro and the Gothic letter hwair. */
  lemma Utf8Vectors()
    ensures EncodeChar('$') == [0x24] && EncodeChar(0xA2 as char) == [0xC2, 0xA2]
    ensures EncodeChar(0x20AC as char) == [0xE2, 0x82, 0xAC]
    ensures EncodeChar(0x10348 as char) == [0xF0, 0x90, 0x8D, 0x88]
  {
  }

  /** Bytes in hex. */
  lemma HexVector()
    ensures HexToBytes("0x00ff1A", 3) == Ok([0x00, 0xff, 0x1a])
  {
    var digits := "00ff1A";
    assert Bare("0x00ff1A") == digits && IsHex(digits);
    assert digits[2..] == "ff1A" && "ff1A"[2..] == "1A" && "1A"[2..] == "";
    assert Pairs("1A") == [0x1a] && Pairs("ff1A") == [0xff, 0x1a];
    assert Pairs(digits) == [0x00, 0xff, 0x1a];
  }

  lemma DigitsVector()
    ensures BytesToHex([0x00, 0xff, 0x1a]) == "0x00ff1a"
  {
    assert [0x1a][1..] == [] && [0xff, 0x1a][1..] == [0x1a] && [0x00, 0xff, 0x1a][1..] == [0xff, 0x1a];
    assert Digits([0x1a]) == "1a" && Digits([0xff, 0x1a]) == "ff1a";
  }

  /** The case in which texts are compared: ASCII letters, and nothing next to them. */
  lemma LowerVector()
    ensures Lower("0xAZaz09@[") == "0xazaz09@["
  {
  }
}
