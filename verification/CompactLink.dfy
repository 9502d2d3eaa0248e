// The compact link format (sdk/src/links.ts): what is written, what is read, and how the two fit together.
module CompactLink {
  import opened Prelude
  import opened Base64Url
  import opened Utf8
  import opened Hex

  /** A RailsFlow request, a RailsCard claim, or a signed RailsFlow envelope. */
  datatype Payload = Flow(merchant: string, recipient: string, amount: string, velocity: string, lifespanSeconds: int,
                          workflowId: Option<string>, metadataRef: Option<string>, descriptionHash: Option<string>,
                          expiresAt: Option<int>)
                   | Card(bearer: bool, envelopeToken: string, claimHint: Option<string>)
                   | Signed(envelopeToken: string)

  datatype Artifact = Artifact(chainId: int, vault: string, token: string, metadataHash: string, payload: Payload)

  // ---- Validation --------------------------------------------------------------------------------

  predicate NonZeroAddress(upper: Checksum, a: string) {
    IsAddress(upper, a) && a != ZeroAddress()
  }

  /** validateOpenRailsLinkArtifact: what it throws. */
  function Invalid(upper: Checksum, a: Artifact): Option<string> {
    if !NonZeroAddress(upper, a.vault) then Some("OpenRails link vault must be a non-zero address")
    else if !NonZeroAddress(upper, a.token) then Some("OpenRails link token must be a non-zero address")
    else if !IsHexString(a.metadataHash, 32) then Some("OpenRails link metadataHash must be bytes32")
    else if a.chainId <= 0 then Some("OpenRails link chainId must be a positive integer")
    else
      match a.payload
      case Flow(merchant, recipient, _, _, _, _, _, _, _) =>
        if !NonZeroAddress(upper, merchant) then Some("RailsFlow merchant must be a non-zero address")
        else if !NonZeroAddress(upper, recipient) then Some("RailsFlow recipient must be a non-zero address")
        else None
      case Card(_, envelopeToken, _) =>
        if envelopeToken == "" then Some("RailsCard link requires an envelopeToken") else None
      case Signed(envelopeToken) =>
        if envelopeToken == "" then Some("Signed RailsFlow link requires an envelopeToken") else None
  }

  // ---- Writing -----------------------------------------------------------------------------------

  type Written = Result<seq<Byte>>

  /** v in n bytes, most significant first. */
  function BigEndian(v: nat, n: nat): (r: seq<Byte>)
    ensures |r| == n
  {
    if n == 0 then [] else BigEndian(v / 256, n - 1) + [v % 256]
  }

  function Uint32(v: int): Written {
    if v < 0 || v > 0xFFFF_FFFF then Err("uint32 out of range") else Ok(BigEndian(v, 4))
  }

  function Uint64(v: int): Written {
    if v < 0 || v > 0xFFFF_FFFF_FFFF_FFFF then Err("uint64 out of range") else Ok(BigEndian(v, 8))
  }

  function AddressBytes(upper: Checksum, a: string): Written {
    if !IsAddress(upper, a) then Err("invalid address") else HexToBytes(GetAddress(upper, a).value, 20)
  }

  function TextBytes(s: string): Written {
    var bytes := EncodeText(s);
    if |bytes| > 0xFFFF then Err("Compact string too long") else Ok(BigEndian(|bytes|, 2) + bytes)
  }

  function Flagged(w: Written): Written {
    if w.Err? then w else Ok([1] + w.value)
  }

  function OptionalText(s: Option<string>): Written {
    if s.None? || s.value == "" then Ok([0]) else Flagged(TextBytes(s.value))
  }

  function OptionalBytes32(s: Option<string>): Written {
    if s.None? || s.value == "" then Ok([0]) else Flagged(HexToBytes(s.value, 32))
  }

  function OptionalUint64(v: Option<int>): Written {
    if v.None? then Ok([0]) else Flagged(Uint64(v.value))
  }

  /** One part after another, or the first failure. */
  function Then(first: Written, rest: Written): Written {
    if first.Err? then first else if rest.Err? then rest else Ok(first.value + rest.value)
  }

  function PayloadBytes(upper: Checksum, p: Payload): Written {
    match p
    case Flow(merchant, recipient, amount, velocity, lifespan, workflowId, metadataRef, descriptionHash, expiresAt) =>
      Then(AddressBytes(upper, merchant), Then(AddressBytes(upper, recipient), Then(TextBytes(amount),
        Then(TextBytes(velocity), Then(Uint64(lifespan), Then(OptionalText(metadataRef),
          Then(OptionalBytes32(descriptionHash), Then(OptionalUint64(expiresAt), OptionalText(workflowId)))))))))
    case Card(bearer, envelopeToken, claimHint) =>
      Then(Ok([if bearer then 1 else 2]), Then(TextBytes(envelopeToken), OptionalText(claimHint)))
    case Signed(envelopeToken) => Then(Ok([0]), Then(TextBytes(envelopeToken), Ok([0])))
  }

  function ArtifactBytes(upper: Checksum, a: Artifact): Written {
    Then(Uint32(a.chainId), Then(AddressBytes(upper, a.vault), Then(AddressBytes(upper, a.token),
      Then(HexToBytes(a.metadataHash, 32), PayloadBytes(upper, a.payload)))))
  }

  const PREFIX := "orc1:"

  function Profile(p: Payload): char {
    if p.Flow? then 'f' else 'c'
  }

  /** serializeCompactOpenRailsLinkArtifact. */
  function Serialize(upper: Checksum, a: Artifact): Result<string> {
    if Invalid(upper, a).Some? then Err(Invalid(upper, a).value)
    else
      var bytes := ArtifactBytes(upper, a);
      if bytes.Err? then Err(bytes.error) else Ok(PREFIX + [Profile(a.payload)] + "." + Encode(bytes.value))
  }

  // ---- Reading -----------------------------------------------------------------------------------

  /** A value read and the bytes that follow it. */
  datatype Read<T> = Got(value: T, rest: seq<Byte>) | Bad(error: string) {
    predicate IsFailure() { Bad? }
    function PropagateFailure<U>(): Read<U>
      requires Bad?
    {
      Read<U>.Bad(error)
    }
    function Extract(): (T, seq<Byte>)
      requires Got?
    {
      (value, rest)
    }
  }

  function ReadBytes(s: seq<Byte>, n: nat): Read<seq<Byte>> {
    if |s| < n then Bad("Malformed compact OpenRails link payload") else Got(s[..n], s[n..])
  }

  function Number(bytes: seq<Byte>): nat {
    if bytes == [] then 0 else Number(bytes[..|bytes| - 1]) * 256 + bytes[|bytes| - 1]
  }

  function ReadUint(s: seq<Byte>, n: nat): Read<nat> {
    var bytes :- ReadBytes(s, n);
    Got(Number(bytes.0), bytes.1)
  }

  function ReadAddress(upper: Checksum, s: seq<Byte>): Read<string> {
    var bytes :- ReadBytes(s, 20);
    var a := GetAddress(upper, BytesToHex(bytes.0));
    if a.None? then Bad("invalid address") else Got(a.value, bytes.1)
  }

  function ReadBytes32(s: seq<Byte>): Read<string> {
    var bytes :- ReadBytes(s, 32);
    Got(BytesToHex(bytes.0), bytes.1)
  }

  function ReadText(s: seq<Byte>): Read<string> {
    var length :- ReadUint(s, 2);
    var bytes :- ReadBytes(length.1, length.0);
    Got(DecodeText(bytes.0), bytes.1)
  }

  function ReadOptionalText(s: seq<Byte>): Read<Option<string>> {
    var flag :- ReadUint(s, 1);
    if flag.0 != 1 then Got(None, flag.1)
    else
      var text :- ReadText(flag.1);
      Got(Some(text.0), text.1)
  }

  function ReadOptionalBytes32(s: seq<Byte>): Read<Option<string>> {
    var flag :- ReadUint(s, 1);
    if flag.0 != 1 then Got(None, flag.1)
    else
      var hash :- ReadBytes32(flag.1);
      Got(Some(hash.0), hash.1)
  }

  function ReadOptionalNumber(s: seq<Byte>): Read<Option<int>> {
    var flag :- ReadUint(s, 1);
    if flag.0 != 1 then Got(None, flag.1)
    else
      var number :- ReadUint(flag.1, 8);
      Got(Some(number.0), number.1)
  }

  /** The artifact's common fields, with a payload yet to come. */
  function ReadCommon(upper: Checksum, s: seq<Byte>): Read<Artifact> {
    var chainId :- ReadUint(s, 4);
    var vault :- ReadAddress(upper, chainId.1);
    var token :- ReadAddress(upper, vault.1);
    var metadataHash :- ReadBytes32(token.1);
    Got(Artifact(chainId.0, vault.0, token.0, metadataHash.0, Signed("")), metadataHash.1)
  }

  function ReadFlow(upper: Checksum, s: seq<Byte>): Read<Payload> {
    var merchant :- ReadAddress(upper, s);
    var recipient :- ReadAddress(upper, merchant.1);
    var amount :- ReadText(recipient.1);
    var velocity :- ReadText(amount.1);
    var lifespan :- ReadUint(velocity.1, 8);
    var metadataRef :- ReadOptionalText(lifespan.1);
    var descriptionHash :- ReadOptionalBytes32(metadataRef.1);
    var expiresAt :- ReadOptionalNumber(descriptionHash.1);
    var workflowId :- ReadOptionalText(expiresAt.1);
    Got(Flow(merchant.0, recipient.0, amount.0, velocity.0, lifespan.0, workflowId.0, metadataRef.0,
             descriptionHash.0, expiresAt.0), workflowId.1)
  }

  function ReadClaim(s: seq<Byte>): Read<Payload> {
    var mode :- ReadUint(s, 1);
    var envelopeToken :- ReadText(mode.1);
    var claimHint :- ReadOptionalText(envelopeToken.1);
    if mode.0 == 0 then Got(Signed(envelopeToken.0), claimHint.1)
    else if mode.0 == 1 || mode.0 == 2 then Got(Card(mode.0 == 1, envelopeToken.0, claimHint.0), claimHint.1)
    else Bad("Unknown compact OpenRails claim mode")
  }

  function ReadArtifact(upper: Checksum, profile: string, s: seq<Byte>): Read<Artifact> {
    var common :- ReadCommon(upper, s);
    var payload :- if profile == "f" then ReadFlow(upper, common.1) else ReadClaim(common.1);
    Got(common.0.(payload := payload.0), payload.1)
  }

  function ParseBytes(upper: Checksum, profile: string, bytes: seq<Byte>): Result<Artifact> {
    var r := ReadArtifact(upper, profile, bytes);
    if r.Bad? then Err(r.error)
    else if r.rest != [] then Err("Compact OpenRails link has trailing bytes")
    else if Invalid(upper, r.value).Some? then Err(Invalid(upper, r.value).value)
    else Ok(r.value)
  }

  /** body.indexOf('.'), or the length when there is none. */
  function DotAt(s: string): (n: nat)
    ensures n <= |s| && (n < |s| ==> s[n] == '.')
    ensures forall i :: 0 <= i < n ==> s[i] != '.'
  {
    if s == "" || s[0] == '.' then 0 else 1 + DotAt(s[1..])
  }

  /** deserializeCompactOpenRailsLinkArtifact. */
  function Deserialize(upper: Checksum, token: string): Result<Artifact> {
    if !(PREFIX <= token) then Err("Unsupported compact OpenRails link prefix")
    else
      var body := token[|PREFIX|..];
      var dot := DotAt(body);
      if dot == 0 || dot == |body| then Err("Malformed compact OpenRails link token")
      else if body[..dot] != "f" && body[..dot] != "c" then Err("Unknown compact OpenRails link profile")
      else ParseBytes(upper, body[..dot], Decode(body[dot + 1..]))
  }
}
