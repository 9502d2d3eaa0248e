// The fixed 200-byte form of a settlement intent (experiments/compact-url/serializer.ts).
module IntentBinary {
  import opened Prelude
  import opened Base64Url
  import opened Hex
  import opened CompactLink
  import opened LinkRoundTrip

  datatype Intent = Intent(paycardId: string, metadataHash: string, recipient: string, totalAllocationPool: nat,
                           flowVelocity: nat, genesisTimestamp: nat, lifespanSeconds: nat,
                           residualDeltaRecipient: string, nonceChannel: nat, nonceValue: nat)

  predicate IsHexOf(hex: string, n: nat) {
    |Bare(hex)| == 2 * n && IsHex(Bare(hex))
  }

  /** What the layout has room for: 32-byte hashes, 20-byte addresses, 256-bit amounts, 64-bit counters. */
  predicate InRange(i: Intent) {
    && IsHexOf(i.paycardId, 32) && IsHexOf(i.metadataHash, 32)
    && IsHexOf(i.recipient, 20) && IsHexOf(i.residualDeltaRecipient, 20)
    && i.totalAllocationPool < Power(32) && i.flowVelocity < Power(32)
    && i.genesisTimestamp < Power(8) && i.lifespanSeconds < Power(8)
    && i.nonceChannel < Power(8) && i.nonceValue < Power(8)
  }

  /** val.toString(16).padStart(n, "0"), for a value of at most n digits. */
  function PaddedHex(v: nat, n: nat): (s: string)
    ensures |s| == n
  {
    if n == 0 then "" else PaddedHex(v / 16, n - 1) + [HexChar(v % 16)]
  }

  // ---- The layout --------------------------------------------------------------------------------

  function Counters(i: Intent): seq<Byte> {
    Pairs(Bare(i.residualDeltaRecipient)) + (BigEndian(i.nonceChannel, 8) + (BigEndian(i.nonceValue, 8) + []))
  }

  function Amounts(i: Intent): seq<Byte> {
    BigEndian(i.totalAllocationPool, 32) + (BigEndian(i.flowVelocity, 32)
      + (BigEndian(i.genesisTimestamp, 8) + (BigEndian(i.lifespanSeconds, 8) + Counters(i))))
  }

  /** The ten fields at their offsets 0, 32, 64, 84, 116, 148, 156, 164, 184 and 192. */
  function Layout(i: Intent): seq<Byte> {
    Pairs(Bare(i.paycardId)) + (Pairs(Bare(i.metadataHash)) + (Pairs(Bare(i.recipient)) + Amounts(i)))
  }

  function HexAt(bytes: seq<Byte>, offset: nat, n: nat): string
    requires offset + n <= |bytes|
  {
    BytesToHex(bytes[offset..offset + n])
  }

  function UintAt(bytes: seq<Byte>, offset: nat, n: nat): nat
    requires offset + n <= |bytes|
  {
    Number(bytes[offset..offset + n])
  }

  function AddressAt(upper: Checksum, bytes: seq<Byte>, offset: nat): string
    requires offset + 20 <= |bytes|
  {
    var a := GetAddress(upper, HexAt(bytes, offset, 20));
    if a.Some? then a.value else ""
  }

  /** deserializeCustomBinary. */
  function Deserialize(upper: Checksum, token: string): Result<Intent> {
    var buf := Decode(token);
    if |buf| != 200 then Err("Invalid custom binary buffer length")
    else Ok(Intent(HexAt(buf, 0, 32), HexAt(buf, 32, 32), AddressAt(upper, buf, 64), UintAt(buf, 84, 32),
                   UintAt(buf, 116, 32), UintAt(buf, 148, 8), UintAt(buf, 156, 8), AddressAt(upper, buf, 164),
                   UintAt(buf, 184, 8), UintAt(buf, 192, 8)))
  }

  /** Hashes in lower case with their 0x, addresses checksummed. */
  function Canonical(upper: Checksum, i: Intent): Intent {
    i.(paycardId := CanonicalHex(i.paycardId), metadataHash := CanonicalHex(i.metadataHash),
       recipient := Checksummed(upper, Lower(Bare(i.recipient))),
       residualDeltaRecipient := Checksummed(upper, Lower(Bare(i.residualDeltaRecipient))))
  }

  // ---- Reading the layout back -------------------------------------------------------------------

  lemma FieldAt(bytes: seq<Byte>, offset: nat, field: seq<Byte>, rest: seq<Byte>)
    requires offset <= |bytes| && bytes[offset..] == field + rest
    ensures offset + |field| <= |bytes|
    ensures bytes[offset..offset + |field|] == field && bytes[offset + |field|..] == rest
  {
    assert bytes[offset..offset + |field|] == bytes[offset..][..|field|];
    assert bytes[offset + |field|..] == bytes[offset..][|field|..];
  }

  lemma HexFieldBack(bytes: seq<Byte>, offset: nat, hex: string, n: nat, rest: seq<Byte>)
    requires offset <= |bytes| && bytes[offset..] == Pairs(Bare(hex)) + rest && IsHexOf(hex, n)
    ensures offset + n <= |bytes| && bytes[offset + n..] == rest
    ensures HexAt(bytes, offset, n) == CanonicalHex(hex)
  {
    PairsRoundTrip(Bare(hex));
    FieldAt(bytes, offset, Pairs(Bare(hex)), rest);
  }

  lemma AddressFieldBack(upper: Checksum, bytes: seq<Byte>, offset: nat, hex: string, rest: seq<Byte>)
    requires offset <= |bytes| && bytes[offset..] == Pairs(Bare(hex)) + rest && IsHexOf(hex, 20)
    ensures offset + 20 <= |bytes| && bytes[offset + 20..] == rest
    ensures AddressAt(upper, bytes, offset) == Checksummed(upper, Lower(Bare(hex)))
  {
    HexFieldBack(bytes, offset, hex, 20, rest);
    LowerHex(Bare(hex));
    LowerLength(Bare(hex));
    hide Lower, IsHex, Checksummed, MixedCase, Pairs;
    assert Bare("0x" + Lower(Bare(hex))) == Lower(Bare(hex));
  }

  lemma UintFieldBack(bytes: seq<Byte>, offset: nat, v: nat, n: nat, rest: seq<Byte>)
    requires offset <= |bytes| && bytes[offset..] == BigEndian(v, n) + rest && v < Power(n)
    ensures offset + n <= |bytes| && bytes[offset + n..] == rest
    ensures UintAt(bytes, offset, n) == v
  {
    NumberBack(v, n);
    FieldAt(bytes, offset, BigEndian(v, n), rest);
  }

  lemma LayoutBack(upper: Checksum, i: Intent, token: string)
    requires InRange(i) && Decode(token) == Layout(i)
    ensures Deserialize(upper, token) == Ok(Canonical(upper, i))
  {
    var b := Layout(i);
    assert b[0..] == b;
    var t := Pairs(Bare(i.metadataHash)) + (Pairs(Bare(i.recipient)) + Amounts(i));
    hide Decode, Pairs, BigEndian, Power, IsHexOf, HexAt, UintAt, AddressAt, CanonicalHex, Checksummed, Bare;
    HexFieldBack(b, 0, i.paycardId, 32, t);
    HexFieldBack(b, 32, i.metadataHash, 32, Pairs(Bare(i.recipient)) + Amounts(i));
    AddressFieldBack(upper, b, 64, i.recipient, Amounts(i));
    var v3 := BigEndian(i.lifespanSeconds, 8) + Counters(i);
    var v2 := BigEndian(i.genesisTimestamp, 8) + v3;
    UintFieldBack(b, 84, i.totalAllocationPool, 32, BigEndian(i.flowVelocity, 32) + v2);
    UintFieldBack(b, 116, i.flowVelocity, 32, v2);
    UintFieldBack(b, 148, i.genesisTimestamp, 8, v3);
    UintFieldBack(b, 156, i.lifespanSeconds, 8, Counters(i));
    var c2 := BigEndian(i.nonceValue, 8) + [];
    AddressFieldBack(upper, b, 164, i.residualDeltaRecipient, BigEndian(i.nonceChannel, 8) + c2);
    UintFieldBack(b, 184, i.nonceChannel, 8, c2);
    UintFieldBack(b, 192, i.nonceValue, 8, []);
    assert |b| == 200;
  }

  // ---- Numbers as hex ----------------------------------------------------------------------------

  lemma HexCharBack(n: nat)
    requires n < 16
    ensures HexValue(HexChar(n)) == n && IsHexDigit(HexChar(n))
  {
  }

  lemma {:induction false} PairsAppend(digits: string, a: char, b: char)
    requires |digits| % 2 == 0
    ensures Pairs(digits + [a, b]) == Pairs(digits) + [HexValue(a) * 16 + HexValue(b)]
  {
    if digits != "" {
      assert (digits + [a, b])[2..] == digits[2..] + [a, b];
      PairsAppend(digits[2..], a, b);
    }
  }

  /** The padded hex text of a number is its bytes, most significant first. */
  lemma {:induction false} PaddedHexBytes(v: nat, n: nat)
    ensures Pairs(PaddedHex(v, 2 * n)) == BigEndian(v, n)
  {
    if n > 0 {
      PaddedHexBytes(v / 256, n - 1);
      var high, low := HexChar(v / 16 % 16), HexChar(v % 16);
      HexCharBack(v / 16 % 16);
      HexCharBack(v % 16);
      assert PaddedHex(v, 2 * n) == PaddedHex(v / 16, 2 * n - 1) + [low];
      assert PaddedHex(v / 16, 2 * n - 1) == PaddedHex(v / 16 / 16, 2 * n - 2) + [high];
      assert v / 16 / 16 == v / 256;
      assert PaddedHex(v, 2 * n) == PaddedHex(v / 256, 2 * (n - 1)) + [high, low];
      PairsAppend(PaddedHex(v / 256, 2 * (n - 1)), high, low);
    }
  }

  // ---- Writing in place --------------------------------------------------------------------------

  /** buf.write(hex, offset, "hex"), for hex that fits. */
  method WriteHex(buf: array<Byte>, hex: string, offset: nat)
    requires IsHex(hex) && |hex| % 2 == 0 && offset + |hex| / 2 <= buf.Length
    modifies buf
    ensures buf[..offset + |hex| / 2] == old(buf[..offset]) + Pairs(hex)
  {
    hide Pairs, HexValue, IsHex;
    PairsLength(hex);
    var n := |hex| / 2;
    for k := 0 to n
      invariant buf[..offset] == old(buf[..offset])
      invariant forall j :: 0 <= j < k ==> buf[offset + j] == Pairs(hex)[j]
    {
      PairsAt(hex, k);
      buf[offset + k] := HexValue(hex[2 * k]) * 16 + HexValue(hex[2 * k + 1]);
    }
    assert buf[offset..offset + n] == Pairs(hex);
    assert buf[..offset + n] == buf[..offset] + buf[offset..offset + n];
  }

  method WriteUint256(buf: array<Byte>, v: nat, offset: nat)
    requires offset + 32 <= buf.Length
    modifies buf
    ensures buf[..offset + 32] == old(buf[..offset]) + BigEndian(v, 32)
  {
    var hex := PaddedHex(v, 64);
    PaddedHexDigits(v, 64);
    PaddedHexBytes(v, 32);
    WriteHex(buf, hex, offset);
  }

  /** buf.writeBigUInt64BE. */
  method WriteBigUint64(buf: array<Byte>, v: nat, offset: nat)
    requires offset + 8 <= buf.Length
    modifies buf
    ensures buf[..offset + 8] == old(buf[..offset]) + BigEndian(v, 8)
  {
    var bytes := BigEndian(v, 8);
    for k := 0 to 8
      invariant buf[..offset] == old(buf[..offset])
      invariant forall j :: 0 <= j < k ==> buf[offset + j] == bytes[j]
    {
      buf[offset + k] := bytes[k];
    }
    assert buf[offset..offset + 8] == bytes;
    assert buf[..offset + 8] == buf[..offset] + buf[offset..offset + 8];
  }

  lemma {:induction false} PaddedHexDigits(v: nat, n: nat)
    ensures IsHex(PaddedHex(v, n))
  {
    if n > 0 {
      PaddedHexDigits(v / 16, n - 1);
      HexCharBack(v % 16);
    }
  }

  /** serializeCustomBinary. */
  method Serialize(i: Intent) returns (token: string)
    requires InRange(i)
    ensures token == Encode(Layout(i))
  {
    hide Pairs, BigEndian, IsHex, Power;
    var buf := new Byte[200](_ => 0);
    WriteHex(buf, Bare(i.paycardId), 0);
    WriteHex(buf, Bare(i.metadataHash), 32);
    WriteHex(buf, Bare(i.recipient), 64);
    WriteUint256(buf, i.totalAllocationPool, 84);
    WriteUint256(buf, i.flowVelocity, 116);
    WriteBigUint64(buf, i.genesisTimestamp, 148);
    WriteBigUint64(buf, i.lifespanSeconds, 156);
    WriteHex(buf, Bare(i.residualDeltaRecipient), 164);
    WriteBigUint64(buf, i.nonceChannel, 184);
    WriteBigUint64(buf, i.nonceValue, 192);
    assert buf[..200] == buf[..];
    LayoutFromLeft(i);
    token := Encode(buf[..]);
  }

  /** The fields in the order in which they are written. */
  lemma LayoutFromLeft(i: Intent)
    ensures [] + Pairs(Bare(i.paycardId)) + Pairs(Bare(i.metadataHash)) + Pairs(Bare(i.recipient))
              + BigEndian(i.totalAllocationPool, 32) + BigEndian(i.flowVelocity, 32)
              + BigEndian(i.genesisTimestamp, 8) + BigEndian(i.lifespanSeconds, 8)
              + Pairs(Bare(i.residualDeltaRecipient)) + BigEndian(i.nonceChannel, 8) + BigEndian(i.nonceValue, 8)
            == Layout(i)
  {
    hide Pairs, BigEndian, Bare;
  }

  /** What stands where in the 200 bytes: hashes and addresses as their digits, numbers as their value. */
  lemma FieldsStandAt(i: Intent)
    requires InRange(i)
    ensures var b := Layout(i);
            && |b| == 200
            && BytesToHex(b[0..32]) == "0x" + Lower(Bare(i.paycardId))
            && BytesToHex(b[32..64]) == "0x" + Lower(Bare(i.metadataHash))
            && BytesToHex(b[64..84]) == "0x" + Lower(Bare(i.recipient))
            && Number(b[84..116]) == i.totalAllocationPool && Number(b[116..148]) == i.flowVelocity
            && Number(b[148..156]) == i.genesisTimestamp && Number(b[156..164]) == i.lifespanSeconds
            && BytesToHex(b[164..184]) == "0x" + Lower(Bare(i.residualDeltaRecipient))
            && Number(b[184..192]) == i.nonceChannel && Number(b[192..200]) == i.nonceValue
  {
    var b := Layout(i);
    assert b[0..] == b;
    hide Pairs, BigEndian, Power, IsHexOf, BytesToHex, Number, Lower, Bare;
    HexFieldBack(b, 0, i.paycardId, 32, Pairs(Bare(i.metadataHash)) + (Pairs(Bare(i.recipient)) + Amounts(i)));
    HexFieldBack(b, 32, i.metadataHash, 32, Pairs(Bare(i.recipient)) + Amounts(i));
    HexFieldBack(b, 64, i.recipient, 20, Amounts(i));
    var v3 := BigEndian(i.lifespanSeconds, 8) + Counters(i);
    var v2 := BigEndian(i.genesisTimestamp, 8) + v3;
    UintFieldBack(b, 84, i.totalAllocationPool, 32, BigEndian(i.flowVelocity, 32) + v2);
    UintFieldBack(b, 116, i.flowVelocity, 32, v2);
    UintFieldBack(b, 148, i.genesisTimestamp, 8, v3);
    UintFieldBack(b, 156, i.lifespanSeconds, 8, Counters(i));
    var c2 := BigEndian(i.nonceValue, 8) + [];
    HexFieldBack(b, 164, i.residualDeltaRecipient, 20, BigEndian(i.nonceChannel, 8) + c2);
    UintFieldBack(b, 184, i.nonceChannel, 8, c2);
    UintFieldBack(b, 192, i.nonceValue, 8, []);
  }

  /** Every intent that fits the layout comes back through its 200 bytes in canonical form. */
  lemma IntentRoundTrip(upper: Checksum, i: Intent)
    requires InRange(i)
    ensures |Layout(i)| == 200
    ensures Deserialize(upper, Encode(Layout(i))) == Ok(Canonical(upper, i))
  {
    TokenRoundTrip(Layout(i));
    LayoutBack(upper, i, Encode(Layout(i)));
    hide Layout, Canonical, Encode;
  }
}
