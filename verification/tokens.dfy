/** JWT headers and payloads, the compact serialization (section 7.1 of
    RFC 7515), and the library operations the harness calls but does not
    implement: JSON serialization with base64url, signing, PEM export, UTF-8,
    JWK conversion and the token handler's signed-token path. */
module Tokens {
  import opened Wrappers
  import opened Text
  import opened Json
  import opened Claims
  import opened Crypto
  import opened JsonWebKeys

  /** `JwtHeader`: header parameter name to value. */
  type Header = map<string, Json>

  /** The arguments of `new JwtPayload(issuer, audience, claims, notBefore,
      expires, issuedAt)`. Times are seconds relative to an abstract clock. */
  datatype PayloadArguments = PayloadArguments(
    issuer: string, audience: string, claims: seq<Claim>, notBefore: int, expires: int, issuedAt: int)

  /** The claim set a `JwtPayload` holds: `iss` and `aud` are absent when the
      argument was empty; the builder always passes all three times. */
  datatype Payload = Payload(iss: Option<string>, aud: Option<string>, claims: seq<Claim>, nbf: int, exp: int, iat: int)

  /** A claim that the payload constructor adds only for a non-empty value. */
  function Present(value: string): (r: Option<string>)
    ensures r.None? <==> value == ""
    ensures r.Some? ==> r.value == value
  {
    if value == "" then None else Some(value)
  }

  /** The `JwtPayload` constructor: it rejects a not-before time that is not
      strictly earlier than the expiry with an `ArgumentException` (IDX12401),
      and otherwise records every argument, leaving out an empty issuer or
      audience. */
  function NewPayload(args: PayloadArguments): (r: Result<Payload>)
    ensures r.Failure? <==> args.notBefore >= args.expires
    ensures r.Failure? ==> r.error == Argument
    ensures r.Success? ==>
      && r.value.claims == args.claims
      && r.value.nbf == args.notBefore && r.value.exp == args.expires && r.value.iat == args.issuedAt
      && (r.value.iss.Some? <==> args.issuer != "") && (r.value.iss.Some? ==> r.value.iss.value == args.issuer)
      && (r.value.aud.Some? <==> args.audience != "") && (r.value.aud.Some? ==> r.value.aud.value == args.audience)
  {
    if args.notBefore >= args.expires then Failure(Argument)
    else Success(Payload(Present(args.issuer), Present(args.audience), args.claims, args.notBefore, args.expires, args.issuedAt))
  }

  /** `SecurityTokenDescriptor`, the input of the token handler's signed path. */
  datatype TokenDescriptor = TokenDescriptor(
    tokenType: string, audience: string, issuer: string,
    signingCredentials: Option<SigningCredentials>,
    issuedAt: int, notBefore: int, expires: int, subject: Option<seq<Claim>>)

  /** The library calls, as uninterpreted functions. */
  datatype Library = Library(
    encodeHeader: Header -> string,                   // JwtHeader.Base64UrlEncode
    encodePayload: Payload -> string,                 // JwtPayload.Base64UrlEncode
    createToken: TokenDescriptor -> Result<string>,   // JsonWebTokenHandler.CreateToken, which may throw
    isSupportedAlgorithm: (string, SecurityKey) -> bool, // CryptoProviderFactory.IsSupportedAlgorithm
    sign: (SecurityKey, string, seq<byte>) -> seq<byte>, // SignatureProvider.Sign(key, alg)
    base64UrlEncode: seq<byte> -> string,             // Base64UrlEncoder.Encode
    utf8: string -> seq<byte>,                        // Encoding.UTF8.GetBytes
    rsaPublicKeyPem: seq<byte> -> string,             // RSA.ExportRSAPublicKeyPem
    subjectPublicKeyInfoPem: (Curve, seq<byte>) -> string, // ECDsa.ExportSubjectPublicKeyInfoPem
    convertFromSecurityKey: SecurityKey -> JsonWebKey) // JsonWebKeyConverter.ConvertFromSecurityKey

  /** Three segments joined by '.'. */
  function Compact(header: string, payload: string, signature: string): (token: string)
    ensures |token| == |header| + |payload| + |signature| + 2
    ensures token[|header|] == '.' && token[|header| + 1 + |payload|] == '.'
  {
    header + "." + payload + "." + signature
  }

  /** The unsigned form of "Unsecured JWTs" (section 6 of RFC 7519): the
      encoded header and payload followed by an empty signature segment. */
  function Unsigned(header: Header, payload: Payload, lib: Library): string
  {
    Compact(lib.encodeHeader(header), lib.encodePayload(payload), "")
  }

  /** A token whose segments carry no '.' splits back into exactly those three
      segments. Base64url output never contains '.'. */
  lemma CompactSegments(header: string, payload: string, signature: string)
    requires '.' !in header && '.' !in payload && '.' !in signature
    ensures Split(Compact(header, payload, signature), '.') == [header, payload, signature]
  {
    var parts := [header, payload, signature];
    assert Join(parts[2..], '.') == signature;
    assert Join(parts[1..], '.') == payload + "." + signature;
    assert Join(parts, '.') == Compact(header, payload, signature);
    SplitJoin(parts, '.');
  }

  /** The unsigned token reads back as the encoded header, the encoded payload
      and an empty signature. */
  lemma UnsignedSegments(header: Header, payload: Payload, lib: Library)
    requires '.' !in lib.encodeHeader(header) && '.' !in lib.encodePayload(payload)
    ensures Split(Unsigned(header, payload, lib), '.') == [lib.encodeHeader(header), lib.encodePayload(payload), ""]
  {
    CompactSegments(lib.encodeHeader(header), lib.encodePayload(payload), "");
  }
}
