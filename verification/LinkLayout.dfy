// Where a compact link keeps what: the bytes of its token by position, and exactly which links have a token.
module LinkLayout {
  import opened Prelude
  import opened Base64Url
  import opened Utf8
  import opened Hex
  import opened CompactLink

  // ---- The parts ---------------------------------------------------------------------------------

  /** A number in four bytes, most significant first. */
  function Four(v: nat): seq<Byte>
    requires v < 0x1_0000_0000
  {
    [v / 0x100_0000, v / 0x1_0000 % 256, v / 0x100 % 256, v % 256]
  }

  /** A number in eight bytes. */
  function Eight(v: nat): seq<Byte>
    requires v < 0x1_0000_0000_0000_0000
  {
    Four(v / 0x1_0000_0000) + Four(v % 0x1_0000_0000)
  }

  /** A string's length in UTF-8, in two bytes, and that many bytes. */
  function Framed(s: string): seq<Byte>
    requires |EncodeText(s)| < 0x1_0000
  {
    [|EncodeText(s)| / 256, |EncodeText(s)| % 256] + EncodeText(s)
  }

  predicate FitsText(s: Option<string>) {
    s.Some? ==> |EncodeText(s.value)| < 0x1_0000
  }

  /** An optional string: a one and the string, or a zero where it is absent or empty. */
  function OptionalFramed(s: Option<string>): seq<Byte>
    requires FitsText(s)
  {
    if s.Some? && s.value != "" then [1] + Framed(s.value) else [0]
  }

  lemma FourBytes(v: nat)
    requires v < 0x1_0000_0000
    ensures BigEndian(v, 4) == Four(v)
  {
    var w := v / 256;
    assert BigEndian(w / 256, 2) == BigEndian(w / 256 / 256, 1) + [w / 256 % 256];
    assert BigEndian(w / 256 / 256, 1) == [w / 256 / 256];
    assert BigEndian(w, 3) == BigEndian(w / 256, 2) + [w % 256];
  }

  /** The low four bytes of an eight-byte number behind the high four. */
  lemma EightBytes(v: nat)
    requires v < 0x1_0000_0000_0000_0000
    ensures BigEndian(v, 8) == Eight(v)
  {
    var a, b, c, d := v / 256, v / 256 / 256, v / 256 / 256 / 256, v / 256 / 256 / 256 / 256;
    assert BigEndian(v, 8) == BigEndian(a, 7) + [v % 256];
    assert BigEndian(a, 7) == BigEndian(b, 6) + [a % 256];
    assert BigEndian(b, 6) == BigEndian(c, 5) + [b % 256];
    assert BigEndian(c, 5) == BigEndian(d, 4) + [c % 256];
    LowFour(v);
    FourBytes(d);
    hide BigEndian;
  }

  lemma LowFour(v: nat)
    ensures v / 256 / 256 / 256 / 256 == v / 0x1_0000_0000
    ensures Four(v % 0x1_0000_0000)
            == [v / 256 / 256 / 256 % 256, v / 256 / 256 % 256, v / 256 % 256, v % 256]
  {
    var a, b, c, d := v / 256, v / 256 / 256, v / 256 / 256 / 256, v / 256 / 256 / 256 / 256;
    assert v == 256 * a + v % 256 && a == 256 * b + a % 256 && b == 256 * c + b % 256 && c == 256 * d + c % 256;
    FourOf(d, c % 256, b % 256, a % 256, v % 256);
  }

  lemma FourOf(d: nat, r3: Byte, r2: Byte, r1: Byte, r0: Byte)
    ensures var low := 0x100_0000 * r3 + 0x1_0000 * r2 + 0x100 * r1 + r0;
            var v := 0x1_0000_0000 * d + low;
            low < 0x1_0000_0000 && v / 0x1_0000_0000 == d && v % 0x1_0000_0000 == low
            && Four(low) == [r3, r2, r1, r0]
  {
    var low := 0x100_0000 * r3 + 0x1_0000 * r2 + 0x100 * r1 + r0;
    assert low / 0x100 == 0x1_0000 * r3 + 0x100 * r2 + r1;
    assert low / 0x1_0000 == 0x100 * r3 + r2;
    assert low / 0x100_0000 == r3;
  }

  lemma TextFramed(s: string)
    ensures TextBytes(s).Ok? <==> |EncodeText(s)| < 0x1_0000
    ensures TextBytes(s).Ok? ==> TextBytes(s).value == Framed(s)
  {
    var n := |EncodeText(s)|;
    assert BigEndian(n / 256, 1) == BigEndian(n / 256 / 256, 0) + [n / 256 % 256];
    assert BigEndian(n, 2) == BigEndian(n / 256, 1) + [n % 256];
  }

  lemma OptionalFramedAre(s: Option<string>)
    ensures OptionalText(s).Ok? <==> FitsText(s)
    ensures OptionalText(s).Ok? ==> OptionalText(s).value == OptionalFramed(s)
  {
    if s.Some? { TextFramed(s.value); }
    hide TextBytes, Framed;
  }

  /** The twenty bytes of an address are the digits it is written in. */
  lemma AddressDigits(upper: Checksum, a: string)
    ensures AddressBytes(upper, a).Ok? <==> IsAddress(upper, a)
    ensures AddressBytes(upper, a).Ok? ==>
              |AddressBytes(upper, a).value| == 20
              && BytesToHex(AddressBytes(upper, a).value) == "0x" + Lower(Bare(a))
  {
    if IsAddress(upper, a) {
      AddressStable(upper, a);
      AddressRoundTrip(upper, a);
      HexRoundTrip(GetAddress(upper, a).value, 20);
    }
    hide Lower, HexToBytes, BytesToHex;
  }

  predicate FitsNumber(v: int) {
    0 <= v < 0x1_0000_0000_0000_0000
  }

  lemma NumberFits(v: int)
    ensures Uint64(v).Ok? <==> FitsNumber(v)
    ensures Uint64(v).Ok? ==> Uint64(v).value == Eight(v)
  {
    if FitsNumber(v) { EightBytes(v); }
    hide BigEndian;
  }

  lemma OptionalNumberIs(v: Option<int>)
    ensures OptionalUint64(v).Ok? <==> (v.Some? ==> FitsNumber(v.value))
    ensures OptionalUint64(v).Ok? ==> OptionalUint64(v).value == if v.Some? then [1] + Eight(v.value) else [0]
  {
    if v.Some? { NumberFits(v.value); }
    hide Uint64, Eight;
  }

  /** An optional hash of 32 bytes: a one and the bytes, or a zero where it is absent or empty. */
  ghost predicate IsOptionalHash(s: Option<string>, bytes: seq<Byte>) {
    if s.Some? && s.value != "" then
      |bytes| == 33 && bytes[0] == 1 && BytesToHex(bytes[1..]) == "0x" + Lower(Bare(s.value))
    else bytes == [0]
  }

  predicate FitsHash(s: Option<string>) {
    s.Some? && s.value != "" ==> |Bare(s.value)| == 64 && IsHex(Bare(s.value))
  }

  lemma OptionalHashIs(s: Option<string>)
    ensures OptionalBytes32(s).Ok? <==> FitsHash(s)
    ensures OptionalBytes32(s).Ok? ==> IsOptionalHash(s, OptionalBytes32(s).value)
  {
    if s.Some? && s.value != "" && FitsHash(s) {
      HexRoundTrip(s.value, 32);
      assert OptionalBytes32(s).value[1..] == HexToBytes(s.value, 32).value;
    }
    hide Lower, BytesToHex, Pairs;
  }

  // ---- The whole token ---------------------------------------------------------------------------

  lemma SlicesOfRest(b: seq<Byte>, n: nat, i: nat, j: nat)
    requires i <= j && n + j <= |b|
    ensures b[n..][i..j] == b[n + i..n + j] && b[n..][j..] == b[n + j..]
  {
  }

  lemma PartsAt(b: seq<Byte>, chain: seq<Byte>, vault: seq<Byte>, token: seq<Byte>, hash: seq<Byte>, rest: seq<Byte>)
    requires b == chain + (vault + (token + (hash + rest)))
    requires |chain| == 4 && |vault| == 20 && |token| == 20 && |hash| == 32
    ensures |b| >= 76 && b[..4] == chain && b[4..24] == vault && b[24..44] == token && b[44..76] == hash
    ensures b[76..] == rest
  {
  }

  /** The common fields: four bytes of chain, two addresses of twenty, a hash of 32, then the payload. */
  lemma CommonLayout(upper: Checksum, a: Artifact) returns (b: seq<Byte>)
    requires ArtifactBytes(upper, a).Ok?
    ensures b == ArtifactBytes(upper, a).value && |b| >= 76 && 0 <= a.chainId < 0x1_0000_0000
    ensures b[..4] == Four(a.chainId)
    ensures BytesToHex(b[4..24]) == "0x" + Lower(Bare(a.vault))
    ensures BytesToHex(b[24..44]) == "0x" + Lower(Bare(a.token))
    ensures BytesToHex(b[44..76]) == "0x" + Lower(Bare(a.metadataHash))
    ensures PayloadBytes(upper, a.payload) == Ok(b[76..])
  {
    hide PayloadBytes, AddressBytes, HexToBytes, BytesToHex, Lower, BigEndian, Four;
    b := ArtifactBytes(upper, a).value;
    var payload := PayloadBytes(upper, a.payload);
    var hash := Then(HexToBytes(a.metadataHash, 32), payload);
    var token := Then(AddressBytes(upper, a.token), hash);
    assert ArtifactBytes(upper, a) == Then(Uint32(a.chainId), Then(AddressBytes(upper, a.vault), token));
    FourBytes(a.chainId);
    AddressDigits(upper, a.vault);
    AddressDigits(upper, a.token);
    HexRoundTrip(a.metadataHash, 32);
    PartsAt(b, Uint32(a.chainId).value, AddressBytes(upper, a.vault).value, AddressBytes(upper, a.token).value,
            HexToBytes(a.metadataHash, 32).value, payload.value);
  }

  /** What follows the addresses of a request, as it is written. */
  function Tail(p: Payload): Written
    requires p.Flow?
  {
    Then(TextBytes(p.amount), Then(TextBytes(p.velocity), Then(Uint64(p.lifespanSeconds),
      Then(OptionalText(p.metadataRef), Then(OptionalBytes32(p.descriptionHash),
        Then(OptionalUint64(p.expiresAt), OptionalText(p.workflowId)))))))
  }

  lemma TailLayout(p: Payload) returns (h: seq<Byte>)
    requires p.Flow? && Tail(p).Ok?
    ensures |EncodeText(p.amount)| < 0x1_0000 && |EncodeText(p.velocity)| < 0x1_0000 && FitsNumber(p.lifespanSeconds)
    ensures FitsText(p.metadataRef) && FitsText(p.workflowId) && (p.expiresAt.Some? ==> FitsNumber(p.expiresAt.value))
    ensures IsOptionalHash(p.descriptionHash, h)
    ensures Tail(p).value == Framed(p.amount)
                             + (Framed(p.velocity)
                                + (Eight(p.lifespanSeconds)
                                   + (OptionalFramed(p.metadataRef)
                                      + (h + ((if p.expiresAt.Some? then [1] + Eight(p.expiresAt.value) else [0])
                                              + OptionalFramed(p.workflowId))))))
  {
    hide TextBytes, Uint64, OptionalText, OptionalBytes32, OptionalUint64, Framed, Eight, OptionalFramed,
         IsOptionalHash;
    TextFramed(p.amount);
    TextFramed(p.velocity);
    NumberFits(p.lifespanSeconds);
    OptionalFramedAre(p.metadataRef);
    OptionalHashIs(p.descriptionHash);
    OptionalNumberIs(p.expiresAt);
    OptionalFramedAre(p.workflowId);
    h := OptionalBytes32(p.descriptionHash).value;
  }

  lemma AddressesAt(w: seq<Byte>, merchant: seq<Byte>, recipient: seq<Byte>, rest: seq<Byte>)
    requires w == merchant + (recipient + rest) && |merchant| == 20 && |recipient| == 20
    ensures |w| >= 40 && w[..20] == merchant && w[20..40] == recipient && w[40..] == rest
  {
  }

  /** A request: merchant, recipient, amount, velocity, lifespan, reference, description, expiry and workflow. */
  lemma FlowLayout(upper: Checksum, p: Payload) returns (w: seq<Byte>)
    requires p.Flow? && PayloadBytes(upper, p).Ok?
    ensures w == PayloadBytes(upper, p).value && |w| >= 40
    ensures BytesToHex(w[..20]) == "0x" + Lower(Bare(p.merchant))
    ensures BytesToHex(w[20..40]) == "0x" + Lower(Bare(p.recipient))
    ensures Tail(p) == Ok(w[40..])
  {
    hide AddressBytes, Tail, BytesToHex, Lower;
    w := PayloadBytes(upper, p).value;
    TailIs(upper, p);
    AddressDigits(upper, p.merchant);
    AddressDigits(upper, p.recipient);
    AddressesAt(w, AddressBytes(upper, p.merchant).value, AddressBytes(upper, p.recipient).value, Tail(p).value);
  }

  lemma TailIs(upper: Checksum, p: Payload)
    requires p.Flow?
    ensures PayloadBytes(upper, p) == Then(AddressBytes(upper, p.merchant), Then(AddressBytes(upper, p.recipient),
                                                                                 Tail(p)))
  {
    hide AddressBytes, TextBytes, Uint64, OptionalText, OptionalBytes32, OptionalUint64, Then;
  }

  /** A claim: its mode, the envelope token, and a hint that a signed envelope never has. */
  lemma ClaimLayout(upper: Checksum, p: Payload)
    requires !p.Flow? && PayloadBytes(upper, p).Ok?
    ensures |EncodeText(p.envelopeToken)| < 0x1_0000 && (p.Card? ==> FitsText(p.claimHint))
    ensures PayloadBytes(upper, p).value
            == [if p.Signed? then 0 else if p.bearer then 1 else 2]
               + (Framed(p.envelopeToken) + if p.Card? then OptionalFramed(p.claimHint) else [0])
  {
    TextFramed(p.envelopeToken);
    if p.Card? { OptionalFramedAre(p.claimHint); }
    hide TextBytes, OptionalText, Framed, OptionalFramed;
  }

  /**
   * The token of a link is the prefix, its profile and, in base64url, these bytes: chain, vault, token and metadata
   * hash at fixed positions, then a request's merchant and recipient and the rest of its fields in order, or a claim's
   * mode, envelope token and hint.
   */
  lemma TokenLayout(upper: Checksum, a: Artifact) returns (b: seq<Byte>, h: seq<Byte>)
    requires Serialize(upper, a).Ok?
    ensures Serialize(upper, a).value == "orc1:" + (if a.payload.Flow? then "f." else "c.") + Encode(b)
    ensures |b| >= 76 && 0 < a.chainId < 0x1_0000_0000 && b[..4] == Four(a.chainId)
    ensures BytesToHex(b[4..24]) == "0x" + Lower(Bare(a.vault))
    ensures BytesToHex(b[24..44]) == "0x" + Lower(Bare(a.token))
    ensures BytesToHex(b[44..76]) == "0x" + Lower(Bare(a.metadataHash))
    ensures a.payload.Flow? ==>
              var p := a.payload;
              && |b| >= 116 && |EncodeText(p.amount)| < 0x1_0000 && |EncodeText(p.velocity)| < 0x1_0000
              && FitsNumber(p.lifespanSeconds) && FitsText(p.metadataRef) && FitsText(p.workflowId)
              && (p.expiresAt.Some? ==> FitsNumber(p.expiresAt.value)) && IsOptionalHash(p.descriptionHash, h)
              && BytesToHex(b[76..96]) == "0x" + Lower(Bare(p.merchant))
              && BytesToHex(b[96..116]) == "0x" + Lower(Bare(p.recipient))
              && b[116..] == Framed(p.amount)
                             + (Framed(p.velocity)
                                + (Eight(p.lifespanSeconds)
                                   + (OptionalFramed(p.metadataRef)
                                      + (h + ((if p.expiresAt.Some? then [1] + Eight(p.expiresAt.value) else [0])
                                              + OptionalFramed(p.workflowId))))))
    ensures !a.payload.Flow? ==>
              var p := a.payload;
              && |EncodeText(p.envelopeToken)| < 0x1_0000 && (p.Card? ==> FitsText(p.claimHint))
              && b[76..] == [if p.Signed? then 0 else if p.bearer then 1 else 2]
                            + (Framed(p.envelopeToken) + if p.Card? then OptionalFramed(p.claimHint) else [0])
  {
    hide ArtifactBytes, PayloadBytes, Lower, BytesToHex, Framed, Eight, OptionalFramed, IsOptionalHash, Tail, Encode,
         Four, EncodeText;
    h := [];
    b := CommonLayout(upper, a);
    if a.payload.Flow? {
      var w := FlowLayout(upper, a.payload);
      h := TailLayout(a.payload);
      SlicesOfRest(b, 76, 0, 20);
      assert b[76..][..20] == b[76..][0..20];
      SlicesOfRest(b, 76, 20, 40);
    } else {
      ClaimLayout(upper, a.payload);
    }
  }

  // ---- Which links have a token ------------------------------------------------------------------

  /** A valid address other than the zero address as ethers writes it. */
  predicate Usable(upper: Checksum, a: string) {
    IsAddress(upper, a) && a != "0x0000000000000000000000000000000000000000"
  }

  lemma ZeroIsWritten()
    ensures ZeroAddress() == "0x0000000000000000000000000000000000000000"
  {
    var zeros := "0000000000000000000000000000000000000000";
    assert |zeros| == 40 && forall i :: 0 <= i < 40 ==> zeros[i] == '0';
    assert Zeros() == zeros;
  }

  lemma PayloadFits(upper: Checksum, p: Payload)
    ensures PayloadBytes(upper, p).Ok?
            <==> match p
                 case Flow(merchant, recipient, amount, velocity, lifespan, workflowId, metadataRef, descriptionHash,
                           expiresAt) =>
                   && IsAddress(upper, merchant) && IsAddress(upper, recipient)
                   && |EncodeText(amount)| < 0x1_0000 && |EncodeText(velocity)| < 0x1_0000 && FitsNumber(lifespan)
                   && FitsText(metadataRef) && FitsHash(descriptionHash) && FitsText(workflowId)
                   && (expiresAt.Some? ==> FitsNumber(expiresAt.value))
                 case Card(_, envelopeToken, claimHint) =>
                   |EncodeText(envelopeToken)| < 0x1_0000 && FitsText(claimHint)
                 case Signed(envelopeToken) => |EncodeText(envelopeToken)| < 0x1_0000
  {
    hide AddressBytes, TextBytes, Uint64, OptionalText, OptionalBytes32, OptionalUint64, IsAddress, EncodeText,
         FitsText, FitsHash, FitsNumber;
    match p
    case Flow(merchant, recipient, amount, velocity, lifespan, workflowId, metadataRef, descriptionHash, expiresAt) =>
      AddressDigits(upper, merchant);
      AddressDigits(upper, recipient);
      TextFramed(amount);
      TextFramed(velocity);
      NumberFits(lifespan);
      OptionalFramedAre(metadataRef);
      OptionalHashIs(descriptionHash);
      OptionalNumberIs(expiresAt);
      OptionalFramedAre(workflowId);
    case Card(_, envelopeToken, claimHint) =>
      TextFramed(envelopeToken);
      OptionalFramedAre(claimHint);
    case Signed(envelopeToken) => TextFramed(envelopeToken);
  }

  /**
   * A link has a token exactly when its addresses are valid and not zero, its metadata hash is 32 bytes of hex with a
   * 0x, its chain fits four bytes and is not zero, a claim's envelope token is not empty, and what else it holds fits
   * its place: strings 65535 bytes, numbers eight bytes, a description hash 32 bytes of hex.
   */
  lemma SerializesExactly(upper: Checksum, a: Artifact)
    ensures Serialize(upper, a).Ok?
            <==> && Usable(upper, a.vault) && Usable(upper, a.token) && 0 < a.chainId < 0x1_0000_0000
                 && |a.metadataHash| == 66 && "0x" <= a.metadataHash && IsHex(a.metadataHash[2..])
                 && match a.payload
                    case Flow(merchant, recipient, amount, velocity, lifespan, workflowId, metadataRef,
                              descriptionHash, expiresAt) =>
                      && Usable(upper, merchant) && Usable(upper, recipient)
                      && |EncodeText(amount)| < 0x1_0000 && |EncodeText(velocity)| < 0x1_0000 && FitsNumber(lifespan)
                      && FitsText(metadataRef) && FitsHash(descriptionHash) && FitsText(workflowId)
                      && (expiresAt.Some? ==> FitsNumber(expiresAt.value))
                    case Card(_, envelopeToken, claimHint) =>
                      envelopeToken != "" && |EncodeText(envelopeToken)| < 0x1_0000 && FitsText(claimHint)
                    case Signed(envelopeToken) => envelopeToken != "" && |EncodeText(envelopeToken)| < 0x1_0000
  {
    hide PayloadBytes, AddressBytes, IsAddress, EncodeText, FitsText, FitsHash, FitsNumber, BigEndian, Pairs, Encode,
         ZeroAddress;
    ZeroIsWritten();
    AddressDigits(upper, a.vault);
    AddressDigits(upper, a.token);
    PayloadFits(upper, a.payload);
  }

  // ---- Which tokens are links --------------------------------------------------------------------

  lemma ValidMeans(upper: Checksum, a: Artifact)
    requires Invalid(upper, a).None?
    ensures Usable(upper, a.vault) && Usable(upper, a.token) && a.chainId > 0
    ensures |a.metadataHash| == 66 && "0x" <= a.metadataHash && IsHex(a.metadataHash[2..])
    ensures a.payload.Flow? ==> Usable(upper, a.payload.merchant) && Usable(upper, a.payload.recipient)
    ensures !a.payload.Flow? ==> a.payload.envelopeToken != ""
  {
    hide IsAddress, ZeroAddress;
    ZeroIsWritten();
  }

  lemma ParsedKind(upper: Checksum, profile: string, bytes: seq<Byte>)
    requires ParseBytes(upper, profile, bytes).Ok?
    ensures var a := ParseBytes(upper, profile, bytes).value;
            Invalid(upper, a).None? && (a.payload.Flow? <==> profile == "f")
  {
    hide ReadCommon, ReadAddress, ReadText, ReadUint, ReadOptionalText, ReadOptionalBytes32, ReadOptionalNumber,
         Invalid;
  }

  /**
   * A token that is read starts with orc1 and a profile, f for a request and c for a claim, and what is read is a valid
   * link of that kind.
   */
  lemma AcceptedTokensAreLinks(upper: Checksum, token: string)
    requires Deserialize(upper, token).Ok?
    ensures var a := Deserialize(upper, token).value;
            && |token| >= 7 && token[..5] == "orc1:" && token[6] == '.'
            && token[5] == (if a.payload.Flow? then 'f' else 'c')
            && Usable(upper, a.vault) && Usable(upper, a.token) && a.chainId > 0
            && |a.metadataHash| == 66 && "0x" <= a.metadataHash && IsHex(a.metadataHash[2..])
            && (if a.payload.Flow? then Usable(upper, a.payload.merchant) && Usable(upper, a.payload.recipient)
                else a.payload.envelopeToken != "")
  {
    hide ParseBytes, Decode, Invalid, Usable, IsHex;
    var body := token[|PREFIX|..];
    var dot := DotAt(body);
    ParsedKind(upper, body[..dot], Decode(body[dot + 1..]));
    ValidMeans(upper, Deserialize(upper, token).value);
    assert |body[..dot]| == 1;
    assert token[5] == body[0] == body[..dot][0] && token[6] == body[1];
  }
}
