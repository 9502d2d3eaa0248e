// CompactWriter, CompactReader and the two drivers (sdk/src/links.ts), against the functions of module CompactLink.
module LinkCodec {
  import opened Prelude
  import opened Base64Url
  import opened Utf8
  import opened Hex
  import opened CompactLink

  /** Whether a call returned or threw. */
  datatype Status = Returned | Threw(error: string) {
    predicate IsFailure() { Threw? }
    function PropagateFailure(): Status
      requires Threw?
    {
      this
    }
  }

  /** What a call returned, or what it threw. */
  datatype Outcome<T> = Value(value: T) | Thrown(error: string) {
    predicate IsFailure() { Thrown? }
    function PropagateFailure<U>(): Outcome<U>
      requires Thrown?
    {
      Outcome<U>.Thrown(error)
    }
    function Extract(): T
      requires Value?
    {
      value
    }
  }

  function StatusOf(w: Written): Status {
    if w.Ok? then Returned else Threw(w.error)
  }

  function OutcomeOf<T>(r: Read<T>): Outcome<T> {
    if r.Got? then Value(r.value) else Thrown(r.error)
  }

  // ---- Hex ---------------------------------------------------------------------------------------

  method ParseHex(hex: string, expectedBytes: nat) returns (r: Result<seq<Byte>>)
    ensures r == HexToBytes(hex, expectedBytes)
  {
    var normalized := Bare(hex);
    if |normalized| != expectedBytes * 2 || !IsHex(normalized) {
      return Err("Expected bytes hex value");
    }
    var bytes := new Byte[expectedBytes](_ => 0);
    PairsLength(normalized);
    for i := 0 to expectedBytes
      invariant forall k :: 0 <= k < i ==> bytes[k] == Pairs(normalized)[k]
    {
      PairsAt(normalized, i);
      bytes[i] := HexValue(normalized[i * 2]) * 16 + HexValue(normalized[i * 2 + 1]);
    }
    assert bytes[..] == Pairs(normalized);
    return Ok(bytes[..]);
  }

  // ---- The writer --------------------------------------------------------------------------------

  /** v >> (8 * bytes). */
  function ShiftRight(v: nat, bytes: nat): nat {
    if bytes == 0 then v else ShiftRight(v, bytes - 1) / 256
  }

  lemma {:induction false} ShiftOnce(v: nat, k: nat)
    ensures ShiftRight(v / 256, k) == ShiftRight(v, k + 1)
  {
    if k > 0 { ShiftOnce(v, k - 1); }
  }

  lemma AppendThen(chunks: seq<Byte>, first: Written, next: Written)
    requires Then(first, next).Ok?
    ensures chunks + Then(first, next).value == (chunks + first.value) + next.value
  {
  }

  class CompactWriter {
    const upper: Checksum
    var chunks: seq<Byte>

    constructor (upper: Checksum)
      ensures this.upper == upper && chunks == []
    {
      this.upper, chunks := upper, [];
    }

    method WriteUint8(value: int) returns (s: Status)
      modifies this
      ensures s.Returned? <==> 0 <= value <= 0xFF
      ensures s.Returned? ==> chunks == old(chunks) + [value]
    {
      if value < 0 || value > 0xFF {
        return Threw("uint8 out of range");
      }
      chunks := chunks + [value];
      s := Returned;
    }

    method WriteUint32(value: int) returns (s: Status)
      modifies this
      ensures s == StatusOf(Uint32(value))
      ensures s.Returned? ==> chunks == old(chunks) + Uint32(value).value
    {
      if value < 0 || value > 0xFFFF_FFFF {
        return Threw("uint32 out of range");
      }
      chunks := chunks + [value / 0x100_0000 % 0x100, value / 0x1_0000 % 0x100, value / 0x100 % 0x100, value % 0x100];
      SplitInFour(value);
      s := Returned;
    }

    method WriteUint64(value: int) returns (s: Status)
      modifies this
      ensures s == StatusOf(Uint64(value))
      ensures s.Returned? ==> chunks == old(chunks) + Uint64(value).value
    {
      if value < 0 || value > 0xFFFF_FFFF_FFFF_FFFF {
        return Threw("uint64 out of range");
      }
      ghost var written: seq<Byte> := [];
      Vanishes(value);
      var shift := 7;
      while shift >= 0
        invariant -1 <= shift <= 7
        invariant written == BigEndian(ShiftRight(value, shift + 1), 7 - shift)
        invariant chunks == old(chunks) + written
      {
        var byte := ShiftRight(value, shift) % 0x100;
        assert BigEndian(ShiftRight(value, shift), 8 - shift) ==
               BigEndian(ShiftRight(value, shift) / 256, 7 - shift) + [byte];
        written := written + [byte];
        chunks := chunks + [byte];
        shift := shift - 1;
      }
      s := Returned;
    }

    method WriteBytes(bytes: seq<Byte>)
      modifies this
      ensures chunks == old(chunks) + bytes
    {
      for i := 0 to |bytes|
        invariant chunks == old(chunks) + bytes[..i]
      {
        assert bytes[..i + 1] == bytes[..i] + [bytes[i]];
        chunks := chunks + [bytes[i]];
      }
      assert bytes[..|bytes|] == bytes;
    }

    method WriteAddress(value: string) returns (s: Status)
      modifies this
      ensures s == StatusOf(AddressBytes(upper, value))
      ensures s.Returned? ==> chunks == old(chunks) + AddressBytes(upper, value).value
    {
      var address := GetAddress(upper, value);
      if address.None? {
        return Threw("invalid address");
      }
      var bytes := ParseHex(address.value, 20);
      if bytes.Err? {
        return Threw(bytes.error);
      }
      WriteBytes(bytes.value);
      s := Returned;
    }

    method WriteBytes32(value: string) returns (s: Status)
      modifies this
      ensures s == StatusOf(HexToBytes(value, 32))
      ensures s.Returned? ==> chunks == old(chunks) + HexToBytes(value, 32).value
    {
      var bytes := ParseHex(value, 32);
      if bytes.Err? {
        return Threw(bytes.error);
      }
      WriteBytes(bytes.value);
      s := Returned;
    }

    method WriteString(value: string) returns (s: Status)
      modifies this
      ensures s == StatusOf(TextBytes(value))
      ensures s.Returned? ==> chunks == old(chunks) + TextBytes(value).value
    {
      var bytes := EncodeText(value);
      if |bytes| > 0xFFFF {
        return Threw("Compact string too long");
      }
      chunks := chunks + [|bytes| / 0x100 % 0x100, |bytes| % 0x100];
      SplitInTwo(|bytes|);
      WriteBytes(bytes);
      s := Returned;
    }

    method WriteOptionalString(value: Option<string>) returns (s: Status)
      modifies this
      ensures s == StatusOf(OptionalText(value))
      ensures s.Returned? ==> chunks == old(chunks) + OptionalText(value).value
    {
      if value.None? || value.value == "" {
        s := WriteUint8(0);
      } else {
        var _ := WriteUint8(1);
        s := WriteString(value.value);
        hide TextBytes;
      }
    }

    method WriteOptionalBytes32(value: Option<string>) returns (s: Status)
      modifies this
      ensures s == StatusOf(OptionalBytes32(value))
      ensures s.Returned? ==> chunks == old(chunks) + OptionalBytes32(value).value
    {
      if value.None? || value.value == "" {
        s := WriteUint8(0);
      } else {
        var _ := WriteUint8(1);
        s := WriteBytes32(value.value);
        hide HexToBytes;
      }
    }

    method WriteOptionalUint64(value: Option<int>) returns (s: Status)
      modifies this
      ensures s == StatusOf(OptionalUint64(value))
      ensures s.Returned? ==> chunks == old(chunks) + OptionalUint64(value).value
    {
      if value.None? {
        s := WriteUint8(0);
      } else {
        var _ := WriteUint8(1);
        s := WriteUint64(value.value);
        hide Uint64;
      }
    }
  }

  lemma SplitInFour(v: nat)
    requires v <= 0xFFFF_FFFF
    ensures BigEndian(v, 4) == [v / 0x100_0000 % 0x100, v / 0x1_0000 % 0x100, v / 0x100 % 0x100, v % 0x100]
  {
    assert v / 0x100 / 0x100 == v / 0x1_0000 && v / 0x1_0000 / 0x100 == v / 0x100_0000;
    assert BigEndian(v / 0x100_0000, 1) == [v / 0x100_0000 % 0x100];
    assert BigEndian(v / 0x1_0000, 2) == BigEndian(v / 0x100_0000, 1) + [v / 0x1_0000 % 0x100];
    assert BigEndian(v / 0x100, 3) == BigEndian(v / 0x1_0000, 2) + [v / 0x100 % 0x100];
  }

  lemma SplitInTwo(v: nat)
    requires v <= 0xFFFF
    ensures BigEndian(v, 2) == [v / 0x100 % 0x100, v % 0x100]
  {
    assert BigEndian(v / 0x100, 1) == [v / 0x100 % 0x100];
  }

  lemma Vanishes(v: nat)
    requires v <= 0xFFFF_FFFF_FFFF_FFFF
    ensures BigEndian(ShiftRight(v, 8), 0) == []
  {
  }

  /** The parts of a payload, in order. */
  method WriteFlow(writer: CompactWriter, p: Payload) returns (s: Status)
    requires p.Flow?
    modifies writer
    ensures s == StatusOf(PayloadBytes(writer.upper, p))
    ensures s.Returned? ==> writer.chunks == old(writer.chunks) + PayloadBytes(writer.upper, p).value
  {
    hide AddressBytes, TextBytes, Uint64, OptionalText, OptionalBytes32, OptionalUint64;
    ghost var upper, c := writer.upper, writer.chunks;
    ghost var p9 := OptionalText(p.workflowId);
    ghost var p8 := Then(OptionalUint64(p.expiresAt), p9);
    ghost var p7 := Then(OptionalBytes32(p.descriptionHash), p8);
    ghost var p6 := Then(OptionalText(p.metadataRef), p7);
    ghost var p5 := Then(Uint64(p.lifespanSeconds), p6);
    ghost var p4 := Then(TextBytes(p.velocity), p5);
    ghost var p3 := Then(TextBytes(p.amount), p4);
    ghost var p2 := Then(AddressBytes(upper, p.recipient), p3);
    assert PayloadBytes(upper, p) == Then(AddressBytes(upper, p.merchant), p2);
    hide PayloadBytes;
    :- writer.WriteAddress(p.merchant);
    if p2.Ok? { AppendThen(c, AddressBytes(upper, p.merchant), p2); }
    c := writer.chunks;
    :- writer.WriteAddress(p.recipient);
    if p3.Ok? { AppendThen(c, AddressBytes(upper, p.recipient), p3); }
    c := writer.chunks;
    :- writer.WriteString(p.amount);
    if p4.Ok? { AppendThen(c, TextBytes(p.amount), p4); }
    c := writer.chunks;
    :- writer.WriteString(p.velocity);
    if p5.Ok? { AppendThen(c, TextBytes(p.velocity), p5); }
    c := writer.chunks;
    :- writer.WriteUint64(p.lifespanSeconds);
    if p6.Ok? { AppendThen(c, Uint64(p.lifespanSeconds), p6); }
    c := writer.chunks;
    :- writer.WriteOptionalString(p.metadataRef);
    if p7.Ok? { AppendThen(c, OptionalText(p.metadataRef), p7); }
    c := writer.chunks;
    :- writer.WriteOptionalBytes32(p.descriptionHash);
    if p8.Ok? { AppendThen(c, OptionalBytes32(p.descriptionHash), p8); }
    c := writer.chunks;
    :- writer.WriteOptionalUint64(p.expiresAt);
    if p9.Ok? { AppendThen(c, OptionalUint64(p.expiresAt), p9); }
    s := writer.WriteOptionalString(p.workflowId);
  }

  method WriteClaim(writer: CompactWriter, p: Payload) returns (s: Status)
    requires !p.Flow?
    modifies writer
    ensures s == StatusOf(PayloadBytes(writer.upper, p))
    ensures s.Returned? ==> writer.chunks == old(writer.chunks) + PayloadBytes(writer.upper, p).value
  {
    hide TextBytes, OptionalText;
    ghost var c := writer.chunks;
    var kindMode: Byte := if p.Signed? then 0 else if p.bearer then 1 else 2;
    ghost var hint := if p.Card? then OptionalText(p.claimHint) else Ok([0]);
    ghost var tail := Then(TextBytes(p.envelopeToken), hint);
    assert PayloadBytes(writer.upper, p) == Then(Ok([kindMode]), tail);
    hide PayloadBytes;
    var _ := writer.WriteUint8(kindMode);
    if tail.Ok? { AppendThen(c, Ok([kindMode]), tail); }
    c := writer.chunks;
    :- writer.WriteString(p.envelopeToken);
    if hint.Ok? { AppendThen(c, TextBytes(p.envelopeToken), hint); }
    if p.Card? {
      s := writer.WriteOptionalString(p.claimHint);
    } else {
      s := writer.WriteUint8(0);
    }
  }

  method WriteArtifact(writer: CompactWriter, a: Artifact) returns (s: Status)
    requires writer.chunks == []
    modifies writer
    ensures s == StatusOf(ArtifactBytes(writer.upper, a))
    ensures s.Returned? ==> writer.chunks == ArtifactBytes(writer.upper, a).value
  {
    hide AddressBytes, Uint32, HexToBytes, PayloadBytes;
    ghost var upper, c := writer.upper, writer.chunks;
    ghost var p5 := PayloadBytes(upper, a.payload);
    ghost var p4 := Then(HexToBytes(a.metadataHash, 32), p5);
    ghost var p3 := Then(AddressBytes(upper, a.token), p4);
    ghost var p2 := Then(AddressBytes(upper, a.vault), p3);
    assert ArtifactBytes(upper, a) == Then(Uint32(a.chainId), p2);
    hide ArtifactBytes;
    :- writer.WriteUint32(a.chainId);
    if p2.Ok? { AppendThen(c, Uint32(a.chainId), p2); }
    c := writer.chunks;
    :- writer.WriteAddress(a.vault);
    if p3.Ok? { AppendThen(c, AddressBytes(upper, a.vault), p3); }
    c := writer.chunks;
    :- writer.WriteAddress(a.token);
    if p4.Ok? { AppendThen(c, AddressBytes(upper, a.token), p4); }
    c := writer.chunks;
    :- writer.WriteBytes32(a.metadataHash);
    if p5.Ok? { AppendThen(c, HexToBytes(a.metadataHash, 32), p5); }
    if a.payload.Flow? {
      s := WriteFlow(writer, a.payload);
    } else {
      s := WriteClaim(writer, a.payload);
    }
  }

  /** serializeCompactOpenRailsLinkArtifact. */
  method SerializeLink(upper: Checksum, a: Artifact) returns (r: Result<string>)
    ensures r == Serialize(upper, a)
  {
    hide ArtifactBytes;
    var invalid := Invalid(upper, a);
    if invalid.Some? {
      return Err(invalid.value);
    }
    hide Invalid;
    var writer := new CompactWriter(upper);
    var s := WriteArtifact(writer, a);
    if s.Threw? {
      return Err(s.error);
    }
    r := Ok(PREFIX + [Profile(a.payload)] + "." + Encode(writer.chunks));
  }

  // ---- The reader --------------------------------------------------------------------------------

  class CompactReader {
    const upper: Checksum
    const bytes: seq<Byte>
    var offset: nat

    ghost predicate Valid()
      reads this
    {
      offset <= |bytes|
    }

    /** What is left to read. */
    ghost function Rest(): seq<Byte>
      requires Valid()
      reads this
    {
      bytes[offset..]
    }

    constructor (upper: Checksum, bytes: seq<Byte>)
      ensures Valid() && Rest() == bytes && this.upper == upper
    {
      this.upper, this.bytes, offset := upper, bytes, 0;
    }

    method Done() returns (done: bool)
      requires Valid()
      ensures done == (Rest() == [])
    {
      done := offset == |bytes|;
    }

    method ReadRaw(length: nat) returns (r: Outcome<seq<Byte>>)
      requires Valid()
      modifies this
      ensures Valid() && r == OutcomeOf(ReadBytes(old(Rest()), length))
      ensures r.Value? ==> Rest() == ReadBytes(old(Rest()), length).rest
    {
      if offset + length > |bytes| {
        return Thrown("Malformed compact OpenRails link payload");
      }
      assert Rest()[..length] == bytes[offset..offset + length] && Rest()[length..] == bytes[offset + length..];
      r := Value(bytes[offset..offset + length]);
      offset := offset + length;
    }

    method ReadUint8() returns (r: Outcome<nat>)
      requires Valid()
      modifies this
      ensures Valid() && r == OutcomeOf(ReadUint(old(Rest()), 1))
      ensures r.Value? ==> Rest() == ReadUint(old(Rest()), 1).rest
    {
      if offset + 1 > |bytes| {
        return Thrown("Malformed compact OpenRails link payload");
      }
      OneDigit(bytes[offset]);
      assert Rest()[..1] == [bytes[offset]];
      r := Value(bytes[offset]);
      offset := offset + 1;
    }

    method ReadUint32() returns (r: Outcome<nat>)
      requires Valid()
      modifies this
      ensures Valid() && r == OutcomeOf(ReadUint(old(Rest()), 4))
      ensures r.Value? ==> Rest() == ReadUint(old(Rest()), 4).rest
    {
      if offset + 4 > |bytes| {
        return Thrown("Malformed compact OpenRails link payload");
      }
      FourDigits(bytes[offset], bytes[offset + 1], bytes[offset + 2], bytes[offset + 3]);
      assert Rest()[..4] == [bytes[offset], bytes[offset + 1], bytes[offset + 2], bytes[offset + 3]];
      r := Value(bytes[offset] as nat * 0x100_0000 + bytes[offset + 1] as nat * 0x1_0000
                 + bytes[offset + 2] as nat * 0x100 + bytes[offset + 3] as nat);
      offset := offset + 4;
    }

    method ReadUint64() returns (r: Outcome<nat>)
      requires Valid()
      modifies this
      ensures Valid() && r == OutcomeOf(ReadUint(old(Rest()), 8))
      ensures r.Value? ==> Rest() == ReadUint(old(Rest()), 8).rest
    {
      if offset + 8 > |bytes| {
        return Thrown("Malformed compact OpenRails link payload");
      }
      ghost var digits := bytes[offset..offset + 8];
      var value: nat := 0;
      for i := 0 to 8
        invariant value == Number(digits[..i])
      {
        assert digits[..i + 1][..i] == digits[..i];
        value := value * 0x100 + bytes[offset + i];
      }
      assert Rest()[..8] == digits == digits[..8];
      offset := offset + 8;
      r := Value(value);
    }

    method ReadAddress() returns (r: Outcome<string>)
      requires Valid()
      modifies this
      ensures Valid() && r == OutcomeOf(CompactLink.ReadAddress(upper, old(Rest())))
      ensures r.Value? ==> Rest() == CompactLink.ReadAddress(upper, old(Rest())).rest
    {
      var raw :- ReadRaw(20);
      var address := GetAddress(upper, BytesToHex(raw));
      r := if address.None? then Thrown("invalid address") else Value(address.value);
    }

    method ReadBytes32() returns (r: Outcome<string>)
      requires Valid()
      modifies this
      ensures Valid() && r == OutcomeOf(CompactLink.ReadBytes32(old(Rest())))
      ensures r.Value? ==> Rest() == CompactLink.ReadBytes32(old(Rest())).rest
    {
      var raw :- ReadRaw(32);
      r := Value(BytesToHex(raw));
    }

    method ReadString() returns (r: Outcome<string>)
      requires Valid()
      modifies this
      ensures Valid() && r == OutcomeOf(ReadText(old(Rest())))
      ensures r.Value? ==> Rest() == ReadText(old(Rest())).rest
    {
      if offset + 2 > |bytes| {
        return Thrown("Malformed compact OpenRails link payload");
      }
      TwoDigits(bytes[offset], bytes[offset + 1]);
      assert Rest()[..2] == [bytes[offset], bytes[offset + 1]];
      var length: nat := bytes[offset] as nat * 0x100 + bytes[offset + 1] as nat;
      offset := offset + 2;
      var raw :- ReadRaw(length);
      r := Value(DecodeText(raw));
    }

    method ReadOptionalString() returns (r: Outcome<Option<string>>)
      requires Valid()
      modifies this
      ensures Valid() && r == OutcomeOf(ReadOptionalText(old(Rest())))
      ensures r.Value? ==> Rest() == ReadOptionalText(old(Rest())).rest
    {
      hide ReadText, ReadUint;
      var flag :- ReadUint8();
      if flag == 1 {
        var text :- ReadString();
        r := Value(Some(text));
      } else {
        r := Value(None);
      }
    }

    method ReadOptionalBytes32() returns (r: Outcome<Option<string>>)
      requires Valid()
      modifies this
      ensures Valid() && r == OutcomeOf(CompactLink.ReadOptionalBytes32(old(Rest())))
      ensures r.Value? ==> Rest() == CompactLink.ReadOptionalBytes32(old(Rest())).rest
    {
      hide CompactLink.ReadBytes32, ReadUint;
      var flag :- ReadUint8();
      if flag == 1 {
        var hash :- ReadBytes32();
        r := Value(Some(hash));
      } else {
        r := Value(None);
      }
    }

    method ReadOptionalNumber() returns (r: Outcome<Option<int>>)
      requires Valid()
      modifies this
      ensures Valid() && r == OutcomeOf(CompactLink.ReadOptionalNumber(old(Rest())))
      ensures r.Value? ==> Rest() == CompactLink.ReadOptionalNumber(old(Rest())).rest
    {
      hide ReadUint;
      var flag :- ReadUint8();
      if flag == 1 {
        var number :- ReadUint64();
        r := Value(Some(number));
      } else {
        r := Value(None);
      }
    }
  }

  lemma OneDigit(b: Byte)
    ensures Number([b]) == b
  {
    assert [b][..0] == [];
  }

  lemma TwoDigits(a: Byte, b: Byte)
    ensures Number([a, b]) == a * 0x100 + b
  {
    assert [a, b][..1] == [a];
    OneDigit(a);
  }

  lemma FourDigits(a: Byte, b: Byte, c: Byte, d: Byte)
    ensures Number([a, b, c, d]) == a * 0x100_0000 + b * 0x1_0000 + c * 0x100 + d
  {
    assert [a, b, c, d][..3] == [a, b, c] && [a, b, c][..2] == [a, b];
    TwoDigits(a, b);
  }

  method ReadFlowPayload(reader: CompactReader) returns (r: Outcome<Payload>)
    requires reader.Valid()
    modifies reader
    ensures reader.Valid() && r == OutcomeOf(ReadFlow(reader.upper, old(reader.Rest())))
    ensures r.Value? ==> reader.Rest() == ReadFlow(reader.upper, old(reader.Rest())).rest
  {
    hide ReadUint, ReadAddress, ReadText, ReadOptionalText, ReadOptionalBytes32, ReadOptionalNumber;
    var merchant :- reader.ReadAddress();
    var recipient :- reader.ReadAddress();
    var amount :- reader.ReadString();
    var velocity :- reader.ReadString();
    var lifespan :- reader.ReadUint64();
    var metadataRef :- reader.ReadOptionalString();
    var descriptionHash :- reader.ReadOptionalBytes32();
    var expiresAt :- reader.ReadOptionalNumber();
    var workflowId :- reader.ReadOptionalString();
    r := Value(Flow(merchant, recipient, amount, velocity, lifespan, workflowId, metadataRef, descriptionHash,
                    expiresAt));
  }

  method ReadClaimPayload(reader: CompactReader) returns (r: Outcome<Payload>)
    requires reader.Valid()
    modifies reader
    ensures reader.Valid() && r == OutcomeOf(ReadClaim(old(reader.Rest())))
    ensures r.Value? ==> reader.Rest() == ReadClaim(old(reader.Rest())).rest
  {
    hide ReadUint, ReadText, ReadOptionalText;
    var kindMode :- reader.ReadUint8();
    var envelopeToken :- reader.ReadString();
    var claimHint :- reader.ReadOptionalString();
    if kindMode == 0 {
      r := Value(Signed(envelopeToken));
    } else if kindMode == 1 || kindMode == 2 {
      r := Value(Card(kindMode == 1, envelopeToken, claimHint));
    } else {
      r := Thrown("Unknown compact OpenRails claim mode");
    }
  }

  method ReadWhole(reader: CompactReader, profile: string) returns (r: Outcome<Artifact>)
    requires reader.Valid()
    modifies reader
    ensures reader.Valid() && r == OutcomeOf(ReadArtifact(reader.upper, profile, old(reader.Rest())))
    ensures r.Value? ==> reader.Rest() == ReadArtifact(reader.upper, profile, old(reader.Rest())).rest
  {
    hide ReadUint, ReadAddress, ReadBytes32, ReadFlow, ReadClaim;
    var chainId :- reader.ReadUint32();
    var vault :- reader.ReadAddress();
    var token :- reader.ReadAddress();
    var metadataHash :- reader.ReadBytes32();
    var payload;
    if profile == "f" {
      payload :- ReadFlowPayload(reader);
    } else {
      payload :- ReadClaimPayload(reader);
    }
    r := Value(Artifact(chainId, vault, token, metadataHash, payload));
  }

  /** deserializeCompactOpenRailsLinkArtifact. */
  method DeserializeLink(upper: Checksum, token: string) returns (r: Result<Artifact>)
    ensures r == Deserialize(upper, token)
  {
    hide Invalid, ReadArtifact, Decode, DotAt;
    if !(PREFIX <= token) {
      return Err("Unsupported compact OpenRails link prefix");
    }
    var body := token[|PREFIX|..];
    var separator := DotAt(body);
    if separator == 0 || separator == |body| {
      return Err("Malformed compact OpenRails link token");
    }
    var profile := body[..separator];
    if profile != "f" && profile != "c" {
      return Err("Unknown compact OpenRails link profile");
    }
    var reader := new CompactReader(upper, Decode(body[separator + 1..]));
    var artifact := ReadWhole(reader, profile);
    if artifact.Thrown? {
      return Err(artifact.error);
    }
    var done := reader.Done();
    if !done {
      return Err("Compact OpenRails link has trailing bytes");
    }
    var invalid := Invalid(upper, artifact.value);
    r := if invalid.Some? then Err(invalid.value) else Ok(artifact.value);
  }
}
