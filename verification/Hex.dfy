// Hex text, and Ethereum addresses with the case checksum as ethers reads and writes them.
module Hex {
  import opened Prelude
  import opened Base64Url

  predicate IsHexDigit(c: char) {
    '0' <= c <= '9' || 'a' <= c <= 'f' || 'A' <= c <= 'F'
  }

  predicate IsHex(s: string) {
    forall i :: 0 <= i < |s| ==> IsHexDigit(s[i])
  }

  function HexValue(c: char): (n: nat)
    ensures n < 16
  {
    if '0' <= c <= '9' then c as nat - '0' as nat
    else if 'a' <= c <= 'f' then c as nat - 'a' as nat + 10
    else if 'A' <= c <= 'F' then c as nat - 'A' as nat + 10
    else 0
  }

  function HexChar(n: nat): char
    requires n < 16
  {
    if n < 10 then (n + '0' as nat) as char else (n - 10 + 'a' as nat) as char
  }

  /** The digits after an optional 0x. */
  function Bare(hex: string): string {
    if "0x" <= hex then hex[2..] else hex
  }

  function Pairs(digits: string): seq<Byte> {
    if |digits| < 2 then [] else [HexValue(digits[0]) * 16 + HexValue(digits[1])] + Pairs(digits[2..])
  }

  /** hexToBytes, for a value of n bytes. */
  function HexToBytes(hex: string, n: nat): Result<seq<Byte>> {
    if |Bare(hex)| != 2 * n || !IsHex(Bare(hex)) then Err("Expected bytes hex value") else Ok(Pairs(Bare(hex)))
  }

  function Digits(bytes: seq<Byte>): string {
    if bytes == [] then "" else [HexChar(bytes[0] / 16), HexChar(bytes[0] % 16)] + Digits(bytes[1..])
  }

  function BytesToHex(bytes: seq<Byte>): string {
    "0x" + Digits(bytes)
  }

  /** ethers.isHexString for a value of n bytes. */
  predicate IsHexString(s: string, n: nat) {
    "0x" <= s && |s| == 2 + 2 * n && IsHex(s[2..])
  }

  function LowerChar(c: char): char {
    if 'A' <= c <= 'Z' then c + 32 as char else c
  }

  lemma LowerPair(a: char, b: char, rest: string)
    ensures Lower([a, b] + rest) == [LowerChar(a), LowerChar(b)] + Lower(rest)
  {
  }

  lemma {:induction false} PairsRoundTrip(digits: string)
    requires IsHex(digits) && |digits| % 2 == 0
    ensures Digits(Pairs(digits)) == Lower(digits) && 2 * |Pairs(digits)| == |digits|
  {
    if digits == "" {
    } else {
      var a, b, rest := digits[0], digits[1], digits[2..];
      assert digits == [a, b] + rest;
      PairsRoundTrip(rest);
      LowerPair(a, b, rest);
      assert IsHexDigit(a) && IsHexDigit(b);
      DigitPair(a, b);
      hide Lower;
      assert Pairs(digits)[1..] == Pairs(rest);
    }
  }

  lemma DigitPair(a: char, b: char)
    requires IsHexDigit(a) && IsHexDigit(b)
    ensures var x: Byte := HexValue(a) * 16 + HexValue(b);
            HexChar(x / 16) == LowerChar(a) && HexChar(x % 16) == LowerChar(b)
  {
  }

  lemma {:induction false} PairsAt(digits: string, i: nat)
    requires 2 * i + 1 < |digits|
    ensures i < |Pairs(digits)| && Pairs(digits)[i] == HexValue(digits[2 * i]) * 16 + HexValue(digits[2 * i + 1])
  {
    if i > 0 { PairsAt(digits[2..], i - 1); }
  }

  lemma {:induction false} PairsLength(digits: string)
    ensures |Pairs(digits)| == |digits| / 2
  {
    if |digits| >= 2 { PairsLength(digits[2..]); }
  }

  /** A value of n bytes that parses comes back in lower case with its 0x. */
  lemma HexRoundTrip(hex: string, n: nat)
    requires HexToBytes(hex, n).Ok?
    ensures BytesToHex(HexToBytes(hex, n).value) == "0x" + Lower(Bare(hex)) && |HexToBytes(hex, n).value| == n
  {
    PairsRoundTrip(Bare(hex));
  }

  // ---- Addresses ---------------------------------------------------------------------------------

  /** Which digits of a lower-case address the checksum writes in upper case. */
  type Checksum = (string, nat) -> bool

  function UpperChar(c: char): char {
    if 'a' <= c <= 'f' then c - 32 as char else c
  }

  function Checksummed(upper: Checksum, low: string): string {
    "0x" + seq(|low|, i requires 0 <= i < |low| => if upper(low, i) then UpperChar(low[i]) else low[i])
  }

  predicate IsAddressText(a: string) {
    |Bare(a)| == 40 && IsHex(Bare(a))
  }

  predicate MixedCase(digits: string) {
    && (exists i :: 0 <= i < |digits| && 'a' <= digits[i] <= 'f')
    && (exists i :: 0 <= i < |digits| && 'A' <= digits[i] <= 'F')
  }

  /** ethers.getAddress: a mixed-case address must carry its own checksum. */
  function GetAddress(upper: Checksum, a: string): Option<string> {
    if !IsAddressText(a) then None
    else
      var r := Checksummed(upper, Lower(Bare(a)));
      if MixedCase(Bare(a)) && r != "0x" + Bare(a) then None else Some(r)
  }

  predicate IsAddress(upper: Checksum, a: string) {
    GetAddress(upper, a).Some?
  }

  function Zeros(): (s: string)
    ensures |s| == 40
  {
    seq(40, _ => '0')
  }

  function ZeroAddress(): string {
    "0x" + Zeros()
  }

  lemma LowerHex(digits: string)
    requires IsHex(digits)
    ensures IsHex(Lower(digits)) && Lower(Lower(digits)) == Lower(digits) && !MixedCase(Lower(digits))
  {
  }

  lemma ChecksummedLowers(upper: Checksum, digits: string)
    requires IsHex(digits)
    ensures var r := Checksummed(upper, Lower(digits));
            "0x" <= r && |r| == |digits| + 2 && IsHex(r[2..]) && Lower(r[2..]) == Lower(digits)
  {
    var low, r := Lower(digits), Checksummed(upper, Lower(digits));
    forall i | 0 <= i < |digits| ensures IsHexDigit(r[2..][i]) && LowerChar(r[2..][i]) == low[i] {
      assert r[2..][i] == if upper(low, i) then UpperChar(low[i]) else low[i];
      assert IsHexDigit(digits[i]);
    }
    assert Lower(r[2..]) == low;
  }

  /** What getAddress returns, it returns again, whichever case the digits come back in. */
  lemma AddressStable(upper: Checksum, a: string)
    requires IsAddress(upper, a)
    ensures var r := GetAddress(upper, a).value;
            && "0x" <= r && IsAddressText(r) && Lower(Bare(r)) == Lower(Bare(a))
            && GetAddress(upper, r) == Some(r) && GetAddress(upper, "0x" + Lower(Bare(a))) == Some(r)
  {
    var d := Bare(a);
    LowerHex(d);
    ChecksummedLowers(upper, d);
    hide Lower, IsHex, Checksummed, MixedCase;
    assert Bare("0x" + Lower(d)) == Lower(d);
    LowerLength(d);
  }

  lemma LowerLength(s: string)
    ensures |Lower(s)| == |s|
  {
  }

  /** Written as twenty bytes and read back, an address is the one getAddress returns. */
  lemma AddressRoundTrip(upper: Checksum, a: string)
    requires IsAddress(upper, a)
    ensures var bytes := HexToBytes(GetAddress(upper, a).value, 20);
            && bytes.Ok? && |bytes.value| == 20
            && GetAddress(upper, BytesToHex(bytes.value)) == GetAddress(upper, a)
  {
    var r := GetAddress(upper, a).value;
    AddressStable(upper, a);
    hide GetAddress;
    HexRoundTrip(r, 20);
  }

  lemma ChecksumOfZeros(upper: Checksum)
    ensures Checksummed(upper, Zeros()) == ZeroAddress()
  {
    var low, c := Zeros(), Checksummed(upper, Zeros());
    forall i | 0 <= i < 40 ensures c[2..][i] == low[i] {
      assert c[2..][i] == if upper(low, i) then UpperChar(low[i]) else low[i];
    }
    assert c[2..] == low && c == "0x" + c[2..];
  }

  /** Only the forty zeros make the zero address. */
  lemma ZeroDigits(upper: Checksum, a: string)
    requires IsAddress(upper, a)
    ensures GetAddress(upper, a).value == ZeroAddress() <==> Bare(a) == Zeros()
  {
    var low, r := Lower(Bare(a)), GetAddress(upper, a).value;
    if r == ZeroAddress() {
      AddressStable(upper, a);
      assert Bare(r) == Zeros();
      assert Lower(Zeros()) == Zeros();
      forall i | 0 <= i < 40 ensures Bare(a)[i] == '0' {
        assert low[i] == '0' && IsHexDigit(Bare(a)[i]);
      }
      assert Bare(a) == Zeros();
    }
    if Bare(a) == Zeros() {
      assert low == Zeros();
      ChecksumOfZeros(upper);
    }
  }
}
