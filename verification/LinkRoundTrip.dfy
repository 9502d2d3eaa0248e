// What comes back from a compact link, and what a reader refuses.
module LinkRoundTrip {
  import opened Prelude
  import opened Base64Url
  import opened Utf8
  import opened Hex
  import opened CompactLink

  // ---- The canonical form ------------------------------------------------------------------------

  function CanonicalAddress(upper: Checksum, a: string): string {
    if IsAddress(upper, a) then GetAddress(upper, a).value else a
  }

  function CanonicalHex(hex: string): string {
    "0x" + Lower(Bare(hex))
  }

  /** An empty optional string is an absent one. */
  function CanonicalText(s: Option<string>): Option<string> {
    if s.None? || s.value == "" then None else Some(Unmarked(s.value))
  }

  function CanonicalHash(s: Option<string>): Option<string> {
    if s.None? || s.value == "" then None else Some(CanonicalHex(s.value))
  }

  function CanonicalPayload(upper: Checksum, p: Payload): Payload {
    match p
    case Flow(merchant, recipient, amount, velocity, lifespan, workflowId, metadataRef, descriptionHash, expiresAt) =>
      Flow(CanonicalAddress(upper, merchant), CanonicalAddress(upper, recipient), Unmarked(amount), Unmarked(velocity),
           lifespan, CanonicalText(workflowId), CanonicalText(metadataRef), CanonicalHash(descriptionHash), expiresAt)
    case Card(bearer, envelopeToken, claimHint) => Card(bearer, Unmarked(envelopeToken), CanonicalText(claimHint))
    case Signed(envelopeToken) => Signed(Unmarked(envelopeToken))
  }

  /**
   * Addresses checksummed, hex in lower case with its 0x, empty optional strings absent, and strings without a
   * leading byte order mark; everything else as it was.
   */
  function Canonical(upper: Checksum, a: Artifact): Artifact {
    Artifact(a.chainId, CanonicalAddress(upper, a.vault), CanonicalAddress(upper, a.token),
             CanonicalHex(a.metadataHash), CanonicalPayload(upper, a.payload))
  }

  // ---- Numbers -----------------------------------------------------------------------------------

  function Power(n: nat): nat {
    if n == 0 then 1 else 256 * Power(n - 1)
  }

  lemma Powers()
    ensures Power(1) == 0x100 && Power(2) == 0x1_0000 && Power(4) == 0x1_0000_0000
    ensures Power(8) == 0x1_0000_0000_0000_0000
  {
    assert Power(3) == 256 * Power(2) && Power(5) == 256 * Power(4) && Power(6) == 256 * Power(5);
    assert Power(7) == 256 * Power(6);
  }

  lemma {:induction false} NumberBack(v: nat, n: nat)
    requires v < Power(n)
    ensures Number(BigEndian(v, n)) == v
  {
    if n > 0 {
      NumberBack(v / 256, n - 1);
      assert BigEndian(v, n)[..n - 1] == BigEndian(v / 256, n - 1);
    }
  }

  // ---- Each part reads back ----------------------------------------------------------------------

  lemma BytesBack(bytes: seq<Byte>, rest: seq<Byte>)
    ensures ReadBytes(bytes + rest, |bytes|) == Got(bytes, rest)
  {
    assert (bytes + rest)[..|bytes|] == bytes && (bytes + rest)[|bytes|..] == rest;
  }

  lemma UintBack(v: nat, n: nat, rest: seq<Byte>)
    requires v < Power(n)
    ensures ReadUint(BigEndian(v, n) + rest, n) == Got(v, rest)
  {
    BytesBack(BigEndian(v, n), rest);
    NumberBack(v, n);
  }

  lemma Uint32Back(v: int, rest: seq<Byte>)
    requires Uint32(v).Ok?
    ensures ReadUint(Uint32(v).value + rest, 4) == Got(v, rest)
  {
    Powers();
    UintBack(v, 4, rest);
  }

  lemma Uint64Back(v: int, rest: seq<Byte>)
    requires Uint64(v).Ok?
    ensures ReadUint(Uint64(v).value + rest, 8) == Got(v, rest)
  {
    Powers();
    UintBack(v, 8, rest);
  }

  lemma ByteBack(b: Byte, rest: seq<Byte>)
    ensures ReadUint([b] + rest, 1) == Got(b, rest)
  {
    BytesBack([b], rest);
    assert Number([b]) == b by { assert [b][..0] == []; }
  }

  lemma AddressBack(upper: Checksum, a: string, rest: seq<Byte>)
    requires AddressBytes(upper, a).Ok?
    ensures ReadAddress(upper, AddressBytes(upper, a).value + rest) == Got(CanonicalAddress(upper, a), rest)
  {
    AddressRoundTrip(upper, a);
    BytesBack(AddressBytes(upper, a).value, rest);
    hide GetAddress, HexToBytes, BytesToHex;
  }

  lemma Bytes32Back(hex: string, rest: seq<Byte>)
    requires HexToBytes(hex, 32).Ok?
    ensures ReadBytes32(HexToBytes(hex, 32).value + rest) == Got(CanonicalHex(hex), rest)
  {
    HexRoundTrip(hex, 32);
    BytesBack(HexToBytes(hex, 32).value, rest);
  }

  lemma TextBack(s: string, rest: seq<Byte>)
    requires TextBytes(s).Ok?
    ensures ReadText(TextBytes(s).value + rest) == Got(Unmarked(s), rest)
  {
    var bytes := EncodeText(s);
    Powers();
    UintBack(|bytes|, 2, bytes + rest);
    assert TextBytes(s).value + rest == BigEndian(|bytes|, 2) + (bytes + rest);
    BytesBack(bytes, rest);
    TextRoundTrip(s);
    hide EncodeText, DecodeText, Unmarked, BigEndian, ReadUint;
  }

  lemma FlaggedBack(w: Written, rest: seq<Byte>)
    requires w.Ok?
    ensures ReadUint(Flagged(w).value + rest, 1) == Got(1, w.value + rest)
  {
    ByteBack(1, w.value + rest);
    assert Flagged(w).value + rest == [1] + (w.value + rest);
  }

  lemma OptionalTextBack(s: Option<string>, rest: seq<Byte>)
    requires OptionalText(s).Ok?
    ensures ReadOptionalText(OptionalText(s).value + rest) == Got(CanonicalText(s), rest)
  {
    if s.None? || s.value == "" {
      ByteBack(0, rest);
    } else {
      FlaggedBack(TextBytes(s.value), rest);
      TextBack(s.value, rest);
      hide TextBytes, ReadText, Unmarked, ReadUint, Flagged;
    }
  }

  lemma OptionalBytes32Back(s: Option<string>, rest: seq<Byte>)
    requires OptionalBytes32(s).Ok?
    ensures ReadOptionalBytes32(OptionalBytes32(s).value + rest) == Got(CanonicalHash(s), rest)
  {
    if s.None? || s.value == "" {
      ByteBack(0, rest);
    } else {
      FlaggedBack(HexToBytes(s.value, 32), rest);
      Bytes32Back(s.value, rest);
      hide HexToBytes, ReadBytes32, CanonicalHex, ReadUint, Flagged;
    }
  }

  lemma OptionalUint64Back(v: Option<int>, rest: seq<Byte>)
    requires OptionalUint64(v).Ok?
    ensures ReadOptionalNumber(OptionalUint64(v).value + rest) == Got(v, rest)
  {
    if v.None? {
      ByteBack(0, rest);
    } else {
      FlaggedBack(Uint64(v.value), rest);
      Uint64Back(v.value, rest);
      hide Uint64, ReadUint, Flagged;
    }
  }

  lemma ThenAppend(first: Written, next: Written, rest: seq<Byte>)
    requires Then(first, next).Ok?
    ensures first.Ok? && next.Ok? && Then(first, next).value + rest == first.value + (next.value + rest)
  {
  }

  // ---- The whole artifact reads back -------------------------------------------------------------

  lemma FlowBack(upper: Checksum, p: Payload, rest: seq<Byte>)
    requires p.Flow? && PayloadBytes(upper, p).Ok?
    ensures ReadFlow(upper, PayloadBytes(upper, p).value + rest) == Got(CanonicalPayload(upper, p), rest)
  {
    hide AddressBytes, TextBytes, Uint64, OptionalText, OptionalBytes32, OptionalUint64, CanonicalAddress, Unmarked,
         CanonicalText, CanonicalHash, ReadAddress, ReadText, ReadUint, ReadOptionalText, ReadOptionalBytes32,
         ReadOptionalNumber;
    var p9 := OptionalText(p.workflowId);
    var p8 := Then(OptionalUint64(p.expiresAt), p9);
    var p7 := Then(OptionalBytes32(p.descriptionHash), p8);
    var p6 := Then(OptionalText(p.metadataRef), p7);
    var p5 := Then(Uint64(p.lifespanSeconds), p6);
    var p4 := Then(TextBytes(p.velocity), p5);
    var p3 := Then(TextBytes(p.amount), p4);
    var p2 := Then(AddressBytes(upper, p.recipient), p3);
    var p1 := Then(AddressBytes(upper, p.merchant), p2);
    assert PayloadBytes(upper, p) == p1;
    hide PayloadBytes, Then;
    ThenAppend(AddressBytes(upper, p.merchant), p2, rest);
    AddressBack(upper, p.merchant, p2.value + rest);
    ThenAppend(AddressBytes(upper, p.recipient), p3, rest);
    AddressBack(upper, p.recipient, p3.value + rest);
    ThenAppend(TextBytes(p.amount), p4, rest);
    TextBack(p.amount, p4.value + rest);
    ThenAppend(TextBytes(p.velocity), p5, rest);
    TextBack(p.velocity, p5.value + rest);
    ThenAppend(Uint64(p.lifespanSeconds), p6, rest);
    Uint64Back(p.lifespanSeconds, p6.value + rest);
    ThenAppend(OptionalText(p.metadataRef), p7, rest);
    OptionalTextBack(p.metadataRef, p7.value + rest);
    ThenAppend(OptionalBytes32(p.descriptionHash), p8, rest);
    OptionalBytes32Back(p.descriptionHash, p8.value + rest);
    ThenAppend(OptionalUint64(p.expiresAt), p9, rest);
    OptionalUint64Back(p.expiresAt, p9.value + rest);
    OptionalTextBack(p.workflowId, rest);
  }

  lemma ClaimBack(upper: Checksum, p: Payload, rest: seq<Byte>)
    requires !p.Flow? && PayloadBytes(upper, p).Ok?
    ensures ReadClaim(PayloadBytes(upper, p).value + rest) == Got(CanonicalPayload(upper, p), rest)
  {
    hide TextBytes, OptionalText, Unmarked, CanonicalText, ReadText, ReadUint, ReadOptionalText;
    var mode: Byte := if p.Signed? then 0 else if p.bearer then 1 else 2;
    var hint := if p.Card? then OptionalText(p.claimHint) else Ok([0]);
    var tail := Then(TextBytes(p.envelopeToken), hint);
    assert PayloadBytes(upper, p) == Then(Ok([mode]), tail);
    hide PayloadBytes, Then;
    ThenAppend(Ok([mode]), tail, rest);
    ByteBack(mode, tail.value + rest);
    ThenAppend(TextBytes(p.envelopeToken), hint, rest);
    TextBack(p.envelopeToken, hint.value + rest);
    if p.Card? {
      OptionalTextBack(p.claimHint, rest);
    } else {
      NoHintBack(rest);
    }
  }

  lemma NoHintBack(rest: seq<Byte>)
    ensures ReadOptionalText([0] + rest) == Got(None, rest)
  {
    ByteBack(0, rest);
  }

  lemma ArtifactBack(upper: Checksum, a: Artifact)
    requires ArtifactBytes(upper, a).Ok?
    ensures ReadArtifact(upper, [Profile(a.payload)], ArtifactBytes(upper, a).value) == Got(Canonical(upper, a), [])
  {
    hide AddressBytes, Uint32, HexToBytes, PayloadBytes, CanonicalAddress, CanonicalHex, CanonicalPayload, ReadAddress,
         ReadUint, ReadBytes32, ReadFlow, ReadClaim;
    var p5 := PayloadBytes(upper, a.payload);
    var p4 := Then(HexToBytes(a.metadataHash, 32), p5);
    var p3 := Then(AddressBytes(upper, a.token), p4);
    var p2 := Then(AddressBytes(upper, a.vault), p3);
    var p1 := Then(Uint32(a.chainId), p2);
    assert ArtifactBytes(upper, a) == p1;
    hide ArtifactBytes, Then;
    assert p1.value + [] == p1.value;
    ThenAppend(Uint32(a.chainId), p2, []);
    Uint32Back(a.chainId, p2.value + []);
    ThenAppend(AddressBytes(upper, a.vault), p3, []);
    AddressBack(upper, a.vault, p3.value + []);
    ThenAppend(AddressBytes(upper, a.token), p4, []);
    AddressBack(upper, a.token, p4.value + []);
    ThenAppend(HexToBytes(a.metadataHash, 32), p5, []);
    Bytes32Back(a.metadataHash, p5.value + []);
    if a.payload.Flow? {
      FlowBack(upper, a.payload, []);
    } else {
      ClaimBack(upper, a.payload, []);
    }
  }

  // ---- Tokens ------------------------------------------------------------------------------------

  lemma TokenShape(profile: char, text: string)
    requires profile != '.'
    ensures var token := PREFIX + [profile] + "." + text;
            && PREFIX <= token && DotAt(token[|PREFIX|..]) == 1 < |token[|PREFIX|..]|
            && token[|PREFIX|..][..1] == [profile] && token[|PREFIX|..][2..] == text
  {
    var token := PREFIX + [profile] + "." + text;
    var body := [profile] + "." + text;
    assert token == PREFIX + body && token[|PREFIX|..] == body;
    assert body[0] == profile && body[1..][0] == '.';
  }

  /** A serialised link reads back as its canonical form, or is refused where that form is not valid. */
  lemma TokenBack(upper: Checksum, a: Artifact)
    requires Serialize(upper, a).Ok?
    ensures Deserialize(upper, Serialize(upper, a).value) ==
              var invalid := Invalid(upper, Canonical(upper, a));
              if invalid.Some? then Err(invalid.value) else Ok(Canonical(upper, a))
  {
    var bytes, profile := ArtifactBytes(upper, a).value, Profile(a.payload);
    ArtifactBack(upper, a);
    TokenRoundTrip(bytes);
    DeserializeParses(upper, profile, Encode(bytes));
    hide Invalid, ArtifactBytes, Encode, Decode, ReadArtifact, Canonical, Deserialize;
  }

  lemma DeserializeParses(upper: Checksum, profile: char, text: string)
    requires profile == 'f' || profile == 'c'
    ensures Deserialize(upper, PREFIX + [profile] + "." + text) == ParseBytes(upper, [profile], Decode(text))
  {
    TokenShape(profile, text);
    hide ParseBytes, Decode, DotAt;
  }

  /** No address is forty zeros without 0x, and the envelope token is more than a byte order mark. */
  predicate Survives(a: Artifact) {
    && a.vault != Zeros() && a.token != Zeros()
    && match a.payload
       case Flow(merchant, recipient, _, _, _, _, _, _, _) => merchant != Zeros() && recipient != Zeros()
       case Card(_, envelopeToken, _) => envelopeToken != [BYTE_ORDER_MARK]
       case Signed(envelopeToken) => envelopeToken != [BYTE_ORDER_MARK]
  }

  lemma AddressSurvives(upper: Checksum, a: string)
    requires NonZeroAddress(upper, a)
    ensures NonZeroAddress(upper, CanonicalAddress(upper, a)) <==> a != Zeros()
  {
    AddressStable(upper, a);
    ZeroDigits(upper, a);
    assert Bare(a) == Zeros() ==> a == Zeros() || a == "0x" + Bare(a);
    assert Bare(Zeros()) == Zeros() by { assert Zeros()[1] != 'x'; }
    hide GetAddress;
  }

  lemma HexSurvives(hex: string)
    requires IsHexString(hex, 32)
    ensures IsHexString(CanonicalHex(hex), 32)
  {
    LowerHex(Bare(hex));
    LowerLength(Bare(hex));
    hide Lower, IsHex;
  }

  lemma CanonicalValid(upper: Checksum, a: Artifact)
    requires Invalid(upper, a).None?
    ensures Invalid(upper, Canonical(upper, a)).None? <==> Survives(a)
  {
    AddressSurvives(upper, a.vault);
    AddressSurvives(upper, a.token);
    HexSurvives(a.metadataHash);
    hide NonZeroAddress, CanonicalAddress, CanonicalHex, IsHexString, Zeros, CanonicalText, CanonicalHash;
    match a.payload
    case Flow(merchant, recipient, _, _, _, _, _, _, _) =>
      AddressSurvives(upper, merchant);
      AddressSurvives(upper, recipient);
    case Card(_, envelopeToken, _) => TokenSurvives(envelopeToken);
    case Signed(envelopeToken) => TokenSurvives(envelopeToken);
  }

  lemma TokenSurvives(t: string)
    requires t != ""
    ensures Unmarked(t) == "" <==> t == [BYTE_ORDER_MARK]
  {
    if Unmarked(t) == "" { assert t == [t[0]] + t[1..]; }
  }

  /**
   * Every link that serialises comes back in its canonical form, through bytes, base64url, prefix and profile,
   * exactly when it survives: an address given as forty bare zeros passes validation on the way out but not on the
   * way in, and an envelope token that is nothing but a byte order mark comes back empty.
   */
  lemma LinksComeBack(upper: Checksum, a: Artifact)
    requires Serialize(upper, a).Ok?
    ensures Deserialize(upper, Serialize(upper, a).value) == Ok(Canonical(upper, a)) <==> Survives(a)
    ensures !Survives(a) ==> Deserialize(upper, Serialize(upper, a).value).Err?
  {
    TokenBack(upper, a);
    CanonicalValid(upper, a);
    hide Deserialize, Canonical, ArtifactBytes, Survives;
  }

  /** A link that is in canonical form already comes back equal. */
  lemma CanonicalLinksComeBackEqual(upper: Checksum, a: Artifact)
    requires Serialize(upper, a).Ok? && Canonical(upper, a) == a
    ensures Deserialize(upper, Serialize(upper, a).value) == Ok(a)
  {
    TokenBack(upper, a);
    hide Deserialize, Canonical, ArtifactBytes;
  }

  /** The legacy form: the artifact's JSON text as one base64url token. */
  function LegacyToken(json: string): string {
    Encode(EncodeText(json))
  }

  lemma CompactHasPrefix(upper: Checksum, a: Artifact)
    ensures Serialize(upper, a).Ok? ==> PREFIX <= Serialize(upper, a).value
  {
    hide Encode, Invalid, ArtifactBytes;
    if Serialize(upper, a).Ok? {
      var bytes := ArtifactBytes(upper, a).value;
      assert Serialize(upper, a).value == PREFIX + ([Profile(a.payload)] + "." + Encode(bytes));
    }
  }

  lemma LegacyHasNone(json: string)
    ensures !(PREFIX <= LegacyToken(json))
  {
    TokenRoundTrip(EncodeText(json));
    hide Encode;
    var token := LegacyToken(json);
    assert |token| > 4 ==> IsUrlChar(token[4]) && token[4] != ':';
  }

  /** The dispatch on the prefix never takes one form for the other. */
  lemma FormsAreNeverConfused(upper: Checksum, a: Artifact, json: string)
    ensures Serialize(upper, a).Ok? ==> PREFIX <= Serialize(upper, a).value
    ensures !(PREFIX <= LegacyToken(json))
  {
    CompactHasPrefix(upper, a);
    LegacyHasNone(json);
  }

  // ---- Trailing and missing bytes ----------------------------------------------------------------

  /** Reading the same bytes with more behind them gives the same value and leaves more behind. */
  ghost predicate Extends<T(!new)>(r: Read<T>, more: Read<T>, extra: seq<Byte>) {
    r.Got? ==> more == Got(r.value, r.rest + extra)
  }

  lemma BytesExtend(s: seq<Byte>, n: nat, extra: seq<Byte>)
    ensures Extends(ReadBytes(s, n), ReadBytes(s + extra, n), extra)
  {
    if |s| >= n {
      assert (s + extra)[..n] == s[..n] && (s + extra)[n..] == s[n..] + extra;
    }
  }

  lemma UintExtends(s: seq<Byte>, n: nat, extra: seq<Byte>)
    ensures Extends(ReadUint(s, n), ReadUint(s + extra, n), extra)
  {
    BytesExtend(s, n, extra);
    hide ReadBytes, Number;
  }

  lemma AddressExtends(upper: Checksum, s: seq<Byte>, extra: seq<Byte>)
    ensures Extends(ReadAddress(upper, s), ReadAddress(upper, s + extra), extra)
  {
    BytesExtend(s, 20, extra);
    hide ReadBytes, GetAddress, BytesToHex;
  }

  lemma Bytes32Extends(s: seq<Byte>, extra: seq<Byte>)
    ensures Extends(ReadBytes32(s), ReadBytes32(s + extra), extra)
  {
    BytesExtend(s, 32, extra);
    hide ReadBytes, BytesToHex;
  }

  lemma TextExtends(s: seq<Byte>, extra: seq<Byte>)
    ensures Extends(ReadText(s), ReadText(s + extra), extra)
  {
    UintExtends(s, 2, extra);
    var length := ReadUint(s, 2);
    if length.Got? { BytesExtend(length.rest, length.value, extra); }
    hide ReadBytes, ReadUint, DecodeText;
  }

  lemma OptionalTextExtends(s: seq<Byte>, extra: seq<Byte>)
    ensures Extends(ReadOptionalText(s), ReadOptionalText(s + extra), extra)
  {
    UintExtends(s, 1, extra);
    var flag := ReadUint(s, 1);
    if flag.Got? { TextExtends(flag.rest, extra); }
    hide ReadUint, ReadText;
  }

  lemma OptionalBytes32Extends(s: seq<Byte>, extra: seq<Byte>)
    ensures Extends(ReadOptionalBytes32(s), ReadOptionalBytes32(s + extra), extra)
  {
    UintExtends(s, 1, extra);
    var flag := ReadUint(s, 1);
    if flag.Got? { Bytes32Extends(flag.rest, extra); }
    hide ReadUint, ReadBytes32;
  }

  lemma OptionalNumberExtends(s: seq<Byte>, extra: seq<Byte>)
    ensures Extends(ReadOptionalNumber(s), ReadOptionalNumber(s + extra), extra)
  {
    UintExtends(s, 1, extra);
    var flag := ReadUint(s, 1);
    if flag.Got? { UintExtends(flag.rest, 8, extra); }
    hide ReadUint;
  }

  lemma CommonExtends(upper: Checksum, s: seq<Byte>, extra: seq<Byte>)
    ensures Extends(ReadCommon(upper, s), ReadCommon(upper, s + extra), extra)
  {
    hide ReadUint, ReadAddress, ReadBytes32;
    if ReadCommon(upper, s).Got? {
      UintExtends(s, 4, extra);
      var s1 := ReadUint(s, 4).rest;
      AddressExtends(upper, s1, extra);
      var s2 := ReadAddress(upper, s1).rest;
      AddressExtends(upper, s2, extra);
      Bytes32Extends(ReadAddress(upper, s2).rest, extra);
    }
  }

  lemma FlowExtends(upper: Checksum, s: seq<Byte>, extra: seq<Byte>)
    ensures Extends(ReadFlow(upper, s), ReadFlow(upper, s + extra), extra)
  {
    hide ReadUint, ReadAddress, ReadText, ReadOptionalText, ReadOptionalBytes32, ReadOptionalNumber;
    if ReadFlow(upper, s).Got? {
      AddressExtends(upper, s, extra);
      var s1 := ReadAddress(upper, s).rest;
      AddressExtends(upper, s1, extra);
      var s2 := ReadAddress(upper, s1).rest;
      TextExtends(s2, extra);
      var s3 := ReadText(s2).rest;
      TextExtends(s3, extra);
      var s4 := ReadText(s3).rest;
      UintExtends(s4, 8, extra);
      var s5 := ReadUint(s4, 8).rest;
      OptionalTextExtends(s5, extra);
      var s6 := ReadOptionalText(s5).rest;
      OptionalBytes32Extends(s6, extra);
      var s7 := ReadOptionalBytes32(s6).rest;
      OptionalNumberExtends(s7, extra);
      OptionalTextExtends(ReadOptionalNumber(s7).rest, extra);
    }
  }

  lemma ClaimExtends(s: seq<Byte>, extra: seq<Byte>)
    ensures Extends(ReadClaim(s), ReadClaim(s + extra), extra)
  {
    hide ReadUint, ReadText, ReadOptionalText;
    if ReadClaim(s).Got? {
      UintExtends(s, 1, extra);
      var s1 := ReadUint(s, 1).rest;
      TextExtends(s1, extra);
      OptionalTextExtends(ReadText(s1).rest, extra);
    }
  }

  lemma ArtifactExtends(upper: Checksum, profile: string, s: seq<Byte>, extra: seq<Byte>)
    ensures Extends(ReadArtifact(upper, profile, s), ReadArtifact(upper, profile, s + extra), extra)
  {
    CommonExtends(upper, s, extra);
    var common := ReadCommon(upper, s);
    if common.Got? {
      FlowExtends(upper, common.rest, extra);
      ClaimExtends(common.rest, extra);
    }
    hide ReadCommon, ReadFlow, ReadClaim;
  }

  /** Bytes that parse are complete: nothing may follow them, and nothing may be missing at their end. */
  lemma ParsedBytesAreComplete(upper: Checksum, profile: string, bytes: seq<Byte>)
    requires ParseBytes(upper, profile, bytes).Ok?
    ensures forall extra :: extra != [] ==> ParseBytes(upper, profile, bytes + extra).Err?
    ensures forall n :: 0 <= n < |bytes| ==> ParseBytes(upper, profile, bytes[..n]).Err?
  {
    hide ReadArtifact, Invalid;
    forall extra: seq<Byte> | extra != [] ensures ParseBytes(upper, profile, bytes + extra).Err? {
      ArtifactExtends(upper, profile, bytes, extra);
    }
    forall n | 0 <= n < |bytes| ensures ParseBytes(upper, profile, bytes[..n]).Err? {
      ArtifactExtends(upper, profile, bytes[..n], bytes[n..]);
      assert bytes[..n] + bytes[n..] == bytes;
    }
  }
}
