/** `JwtBuilder`: the token-under-construction, its fluent setters, the header
    and payload it produces, the credential-resolution procedure and the
    signed-versus-unsigned output rule. The builder is an immutable value; a
    build returns the token together with the builder as the build left it. */
module JwtBuilders {
  import opened Wrappers
  import opened Text
  import opened Json
  import opened Claims
  import opened Crypto
  import opened Tokens
  import opened Algorithms
  import opened Settings

  /** The text of two GUIDs in the default "D" format, 36 characters each:
      the default HMAC secret. */
  type GuidPairText = s: string | |s| == 72
    witness "00000000-0000-0000-0000-000000000000" + "00000000-0000-0000-0000-000000000000"

  /** The provider of signing credentials (`ISigningCredentialsProvider`). */
  type CredentialsProvider = string -> Result<SigningCredentials>

  /** The three claims that identify a test user. */
  function UserClaims(user: TestUser): (claims: seq<Claim>)
    ensures |claims| == 3
    ensures FindFirstValue(claims, Subject) == Some(user.subjectId)
    ensures FindFirstValue(claims, Name) == Some(user.username)
    ensures FindFirstValue(claims, PreferredUserName) == Some(user.username)
  {
    var claims := [Claim(Subject, user.subjectId), Claim(Name, user.username), Claim(PreferredUserName, user.username)];
    assert FindFirstValue(claims[2..], PreferredUserName) == Some(user.username);
    assert FindFirstValue(claims[1..], PreferredUserName) == Some(user.username) by {
      assert claims[1..][1..] == claims[2..];
    }
    claims
  }

  datatype JwtBuilder = JwtBuilder(
    tokenType: string,
    audience: string,
    issuer: string,
    signingCredentials: Option<SigningCredentials>,
    signatureAlgorithm: Option<string>,
    hmacShaSecret: Option<string>,
    issuedAt: int,
    notBefore: int,
    expires: int,
    subject: Option<seq<Claim>>)

  /** An explicit credential and an explicit algorithm name are never both set
      by the setters; only a build can add a credential next to a name. */
  predicate Exclusive(b: JwtBuilder) {
    !(b.signingCredentials.Some? && b.signatureAlgorithm.Some?)
  }

  /** The credential-related fields. */
  function Signing(b: JwtBuilder): (Option<SigningCredentials>, Option<string>, Option<string>) {
    (b.signingCredentials, b.signatureAlgorithm, b.hmacShaSecret)
  }

  /** `BuildJwtHeader`: exactly `alg` (null when no name is set) and `typ`. */
  function BuildJwtHeader(b: JwtBuilder): (h: Header)
    ensures h.Keys == {"alg", "typ"}
    ensures h["typ"] == JString(b.tokenType)
    ensures b.signatureAlgorithm.None? <==> h["alg"] == JNull
    ensures b.signatureAlgorithm.Some? ==> h["alg"] == JString(b.signatureAlgorithm.value)
  {
    map["alg" := (if b.signatureAlgorithm.Some? then JString(b.signatureAlgorithm.value) else JNull),
        "typ" := JString(b.tokenType)]
  }

  /** The arguments `BuildJwtPayload` passes to the payload constructor: the
      builder's fields, and the subject's claims or none without a subject. */
  function Arguments(b: JwtBuilder): (a: PayloadArguments)
    ensures a.issuer == b.issuer && a.audience == b.audience
    ensures a.notBefore == b.notBefore && a.expires == b.expires && a.issuedAt == b.issuedAt
    ensures b.subject.None? ==> a.claims == []
    ensures b.subject.Some? ==> a.claims == b.subject.value
  {
    PayloadArguments(b.issuer, b.audience, b.subject.GetOr([]), b.notBefore, b.expires, b.issuedAt)
  }

  /** `BuildJwtPayload`: the registered claims from the builder's fields and
      the subject's claims; the constructor throws when nbf is not before exp. */
  function BuildJwtPayload(b: JwtBuilder): (r: Result<Payload>)
    ensures r.Failure? <==> b.notBefore >= b.expires
    ensures r.Failure? ==> r.error == Argument
    ensures r.Success? ==>
      && r.value.iss == Present(b.issuer) && r.value.aud == Present(b.audience)
      && r.value.nbf == b.notBefore && r.value.exp == b.expires && r.value.iat == b.issuedAt
      && r.value.claims == b.subject.GetOr([])
  {
    NewPayload(Arguments(b))
  }

  /** The descriptor handed to the token handler on the signed path. */
  function Descriptor(b: JwtBuilder): TokenDescriptor {
    TokenDescriptor(b.tokenType, b.audience, b.issuer, b.signingCredentials, b.issuedAt, b.notBefore, b.expires, b.subject)
  }

  function WithTokenType(b: JwtBuilder, t: string): (r: JwtBuilder)
    ensures BuildJwtHeader(r) == BuildJwtHeader(b)["typ" := JString(t)]
    ensures Arguments(r) == Arguments(b) && Signing(r) == Signing(b)
    ensures Exclusive(b) ==> Exclusive(r)
    ensures BuildJwtPayload(r) == BuildJwtPayload(b)
  {
    b.(tokenType := t)
  }

  function WithAudience(b: JwtBuilder, a: string): (r: JwtBuilder)
    ensures Arguments(r) == Arguments(b).(audience := a)
    ensures BuildJwtHeader(r) == BuildJwtHeader(b) && Signing(r) == Signing(b)
    ensures Exclusive(b) ==> Exclusive(r)
  {
    b.(audience := a)
  }

  function WithIssuer(b: JwtBuilder, i: string): (r: JwtBuilder)
    ensures Arguments(r) == Arguments(b).(issuer := i)
    ensures BuildJwtHeader(r) == BuildJwtHeader(b) && Signing(r) == Signing(b)
    ensures Exclusive(b) ==> Exclusive(r)
  {
    b.(issuer := i)
  }

  /** Setting a credential clears the algorithm name. */
  function WithSigningCredentials(b: JwtBuilder, c: SigningCredentials): (r: JwtBuilder)
    ensures Signing(r) == (Some(c), None, b.hmacShaSecret)
    ensures Exclusive(r)
    ensures BuildJwtHeader(r) == BuildJwtHeader(b)["alg" := JNull]
    ensures Arguments(r) == Arguments(b)
    ensures BuildJwtPayload(r) == BuildJwtPayload(b)
  {
    b.(signingCredentials := Some(c), signatureAlgorithm := None)
  }

  /** Setting an algorithm name clears the credential. */
  function WithSignatureAlgorithm(b: JwtBuilder, alg: string): (r: JwtBuilder)
    ensures Signing(r) == (None, Some(alg), b.hmacShaSecret)
    ensures Exclusive(r)
    ensures BuildJwtHeader(r) == BuildJwtHeader(b)["alg" := JString(alg)]
    ensures Arguments(r) == Arguments(b)
    ensures BuildJwtPayload(r) == BuildJwtPayload(b)
  {
    b.(signatureAlgorithm := Some(alg), signingCredentials := None)
  }

  /** The two-argument overload also replaces the HMAC secret. */
  function WithSignatureAlgorithmAndSecret(b: JwtBuilder, alg: string, secret: string): (r: JwtBuilder)
    ensures Signing(r) == (None, Some(alg), Some(secret))
    ensures Exclusive(r)
    ensures BuildJwtHeader(r) == BuildJwtHeader(b)["alg" := JString(alg)]
    ensures Arguments(r) == Arguments(b)
    ensures BuildJwtPayload(r) == BuildJwtPayload(b)
  {
    b.(signatureAlgorithm := Some(alg), signingCredentials := None, hmacShaSecret := Some(secret))
  }

  function WithIssuedAt(b: JwtBuilder, t: int): (r: JwtBuilder)
    ensures Arguments(r) == Arguments(b).(issuedAt := t)
    ensures BuildJwtHeader(r) == BuildJwtHeader(b) && Signing(r) == Signing(b)
    ensures Exclusive(b) ==> Exclusive(r)
  {
    b.(issuedAt := t)
  }

  function WithNotBefore(b: JwtBuilder, t: int): (r: JwtBuilder)
    ensures Arguments(r) == Arguments(b).(notBefore := t)
    ensures BuildJwtHeader(r) == BuildJwtHeader(b) && Signing(r) == Signing(b)
    ensures Exclusive(b) ==> Exclusive(r)
  {
    b.(notBefore := t)
  }

  function WithExpires(b: JwtBuilder, t: int): (r: JwtBuilder)
    ensures Arguments(r) == Arguments(b).(expires := t)
    ensures BuildJwtHeader(r) == BuildJwtHeader(b) && Signing(r) == Signing(b)
    ensures Exclusive(b) ==> Exclusive(r)
  {
    b.(expires := t)
  }

  function WithSubject(b: JwtBuilder, claims: seq<Claim>): (r: JwtBuilder)
    ensures Arguments(r) == Arguments(b).(claims := claims)
    ensures BuildJwtHeader(r) == BuildJwtHeader(b) && Signing(r) == Signing(b)
    ensures Exclusive(b) ==> Exclusive(r)
  {
    b.(subject := Some(claims))
  }

  /** A test user becomes exactly the claims sub, name and preferred_username. */
  function WithSubjectUser(b: JwtBuilder, user: TestUser): (r: JwtBuilder)
    ensures Arguments(r).claims ==
      [Claim("sub", user.subjectId), Claim("name", user.username), Claim("preferred_username", user.username)]
    ensures Arguments(r) == Arguments(b).(claims := Arguments(r).claims)
    ensures BuildJwtHeader(r) == BuildJwtHeader(b) && Signing(r) == Signing(b)
    ensures Exclusive(b) ==> Exclusive(r)
  {
    b.(subject := Some(UserClaims(user)))
  }

  /** The branches of the credential resolution. */
  datatype CredentialPlan =
    | AskProvider(algorithm: string)
    | NoCredential
    | DeriveHmac(algorithm: string, secret: string)
    | MissingHmacSecret

  /** `GetSigningCredentialsAsync`, as the branch it takes. */
  function Plan(b: JwtBuilder, settings: TestSettings): (r: CredentialPlan)
    ensures b.signatureAlgorithm.None? ==> r == AskProvider(settings.defaultSignatureAlgorithm)
    ensures b.signatureAlgorithm.Some? && b.signatureAlgorithm.value in DuendeSupportedSecurityAlgorithms ==>
      r == AskProvider(b.signatureAlgorithm.value)
    ensures r.AskProvider? <==>
      b.signatureAlgorithm.None? || b.signatureAlgorithm.value in DuendeSupportedSecurityAlgorithms
    ensures r.NoCredential? <==>
      b.signatureAlgorithm.Some? &&
      (IsNoneAlgorithm(b.signatureAlgorithm.value) || b.signatureAlgorithm.value !in KnownSecurityAlgorithms)
    ensures r.DeriveHmac? || r.MissingHmacSecret? <==>
      b.signatureAlgorithm.Some? && b.signatureAlgorithm.value in HmacAlgorithms
    ensures r.MissingHmacSecret? <==>
      b.signatureAlgorithm.Some? && b.signatureAlgorithm.value in HmacAlgorithms && IsNullOrEmpty(b.hmacShaSecret)
    ensures r.DeriveHmac? ==> r.algorithm == b.signatureAlgorithm.value && Some(r.secret) == b.hmacShaSecret
  {
    KnownAreNotNone();
    SupportedAreKnownAndRestIsHmac();
    if b.signatureAlgorithm.None? then AskProvider(settings.defaultSignatureAlgorithm)
    else
      var alg := b.signatureAlgorithm.value;
      if IsNoneAlgorithm(alg) then NoCredential
      else if alg in DuendeSupportedSecurityAlgorithms then AskProvider(alg)
      else if alg in KnownSecurityAlgorithms then
        if IsNullOrEmpty(b.hmacShaSecret) then MissingHmacSecret
        else DeriveHmac(alg, b.hmacShaSecret.value)
      else NoCredential
  }

  /** The credential the resolution yields, or the error it raises. */
  function GetSigningCredentials(b: JwtBuilder, settings: TestSettings, provider: CredentialsProvider, lib: Library)
    : (r: Result<Option<SigningCredentials>>)
    ensures Plan(b, settings).AskProvider? ==>
      match provider(Plan(b, settings).algorithm)
      case Success(c) => r == Success(Some(c))
      case Failure(e) => r == Failure(e)
    ensures Plan(b, settings).NoCredential? ==> r == Success(None)
    ensures Plan(b, settings).MissingHmacSecret? ==> r == Failure(InvalidOperation("The HMAC secret is not set."))
    ensures Plan(b, settings).DeriveHmac? ==>
      r == Success(Some(SigningCredentials(SymmetricKey(lib.utf8(Plan(b, settings).secret)), Plan(b, settings).algorithm)))
  {
    match Plan(b, settings)
    case AskProvider(alg) =>
      (match provider(alg)
       case Success(c) => Success(Some(c))
       case Failure(e) => Failure(e))
    case NoCredential => Success(None)
    case MissingHmacSecret => Failure(InvalidOperation("The HMAC secret is not set."))
    case DeriveHmac(alg, secret) => Success(Some(SigningCredentials(SymmetricKey(lib.utf8(secret)), alg)))
  }

  /** What a build leaves behind: the token or the exception, and the builder
      as the build left it, which keeps a credential `??=` stored even when
      the token handler throws afterwards. */
  datatype Built = Built(token: Result<string>, builder: JwtBuilder)

  /** The unsigned-output rule: a non-empty name that is "none" in any casing
      or not a known algorithm. */
  predicate UnsignedOutput(alg: Option<string>) {
    !IsNullOrEmpty(alg) && (IsNoneAlgorithm(alg.value) || alg.value !in KnownSecurityAlgorithms)
  }

  /** `SigningCredentials ??= await GetSigningCredentialsAsync()`: a set
      credential is kept and otherwise the resolution runs. On the unsigned
      path the resolution cannot fail. */
  function ResolveCredentials(b: JwtBuilder, settings: TestSettings, provider: CredentialsProvider, lib: Library)
    : (r: Result<Option<SigningCredentials>>)
    ensures b.signingCredentials.Some? ==> r == Success(b.signingCredentials)
    ensures b.signingCredentials.None? ==> r == GetSigningCredentials(b, settings, provider, lib)
    ensures UnsignedOutput(b.signatureAlgorithm) ==> r == Success(b.signingCredentials)
  {
    if b.signingCredentials.Some? then Success(b.signingCredentials)
    else GetSigningCredentials(b, settings, provider, lib)
  }

  /** `r` is what the token handler makes of the resolved builder `signed`:
      its token or the exception it throws, with `signed` left behind. */
  predicate HandlerResult(r: Built, signed: JwtBuilder, lib: Library) {
    r == Built(lib.createToken(Descriptor(signed)), signed)
  }

  /** `r` is the unsigned form of `b`, or the payload constructor's
      rejection of its times, with `b` left unchanged. */
  predicate UnsignedResult(r: Built, b: JwtBuilder, lib: Library) {
    && r.builder == b
    && match BuildJwtPayload(b)
       case Success(payload) => r.token == Success(Unsigned(BuildJwtHeader(b), payload, lib))
       case Failure(e) => r.token == Failure(e)
  }

  /** `BuildAsync`: resolve the credential unless one is already set, then
      produce the unsigned form for "none" or an unknown name and the token
      handler's signed token otherwise. */
  function BuildAsync(b: JwtBuilder, settings: TestSettings, provider: CredentialsProvider, lib: Library): (r: Built)
    ensures r.builder == b.(signingCredentials := r.builder.signingCredentials)
    ensures b.signingCredentials.Some? ==> r.builder == b
    ensures UnsignedOutput(b.signatureAlgorithm) ==> UnsignedResult(r, b, lib)
    ensures !UnsignedOutput(b.signatureAlgorithm) ==>
      match ResolveCredentials(b, settings, provider, lib)
      case Failure(e) => r == Built(Failure(e), b)
      case Success(c) => HandlerResult(r, b.(signingCredentials := c), lib)
  {
    match ResolveCredentials(b, settings, provider, lib)
    case Failure(e) => Built(Failure(e), b)
    case Success(credentials) =>
      var resolved := b.(signingCredentials := credentials);
      if UnsignedOutput(b.signatureAlgorithm) then
        match BuildJwtPayload(resolved)
        case Failure(e) => Built(Failure(e), resolved)
        case Success(payload) => Built(Success(Unsigned(BuildJwtHeader(resolved), payload, lib)), resolved)
      else
        Built(lib.createToken(Descriptor(resolved)), resolved)
  }

  /** A new builder from the current settings. `now` stands for the clock and
      `guids` for the two random GUIDs that make up the default HMAC secret. */
  function NewJwtBuilder(settings: TestSettings, now: int, guids: GuidPairText): (b: JwtBuilder)
    ensures Exclusive(b) && b.signingCredentials.None? && b.signatureAlgorithm.None?
    ensures b.tokenType == (if settings.validTokenTypes == [] then "" else settings.validTokenTypes[0])
    ensures b.audience == settings.defaultAudience && b.issuer == settings.defaultIssuer
    ensures b.issuedAt == now && b.notBefore == now - 10 && b.expires == now + 300
    ensures Arguments(b).claims == UserClaims(settings.defaultTestUser)
    ensures BuildJwtPayload(b).Success?
    ensures b.hmacShaSecret == Some(guids)
    ensures !IsNullOrEmpty(b.hmacShaSecret) && |b.hmacShaSecret.value| == 72
  {
    JwtBuilder(
      tokenType := if settings.validTokenTypes == [] then "" else settings.validTokenTypes[0],
      audience := settings.defaultAudience,
      issuer := settings.defaultIssuer,
      signingCredentials := None,
      signatureAlgorithm := None,
      hmacShaSecret := Some(guids),
      issuedAt := now,
      notBefore := now - 10,
      expires := now + 5 * 60,
      subject := Some(UserClaims(settings.defaultTestUser)))
  }

  /** An explicit credential is used as is: the provider is never consulted
      and a successful build leaves the builder as it was. */
  lemma ExplicitCredentialsIgnoreProvider(
    b: JwtBuilder, settings: TestSettings, p1: CredentialsProvider, p2: CredentialsProvider, lib: Library)
    requires b.signingCredentials.Some?
    ensures BuildAsync(b, settings, p1, lib) == BuildAsync(b, settings, p2, lib)
    ensures BuildAsync(b, settings, p1, lib).builder == b
    ensures !UnsignedOutput(b.signatureAlgorithm) ==> HandlerResult(BuildAsync(b, settings, p1, lib), b, lib)
  {
  }

  /** With neither a credential nor a name, the provider is asked for the
      configured default signature algorithm and the token handler signs
      with its credential. */
  lemma DefaultAlgorithmAsksProvider(
    b: JwtBuilder, settings: TestSettings, provider: CredentialsProvider, lib: Library, c: SigningCredentials)
    requires b.signingCredentials.None? && b.signatureAlgorithm.None?
    requires provider(settings.defaultSignatureAlgorithm) == Success(c)
    ensures HandlerResult(BuildAsync(b, settings, provider, lib), b.(signingCredentials := Some(c)), lib)
  {
  }

  /** When the token handler throws, the credential the provider supplied
      stays on the builder: the `??=` ran before the handler was called. */
  lemma CredentialKeptWhenHandlerThrows(
    b: JwtBuilder, settings: TestSettings, provider: CredentialsProvider, lib: Library, c: SigningCredentials)
    requires b.signingCredentials.None? && b.signatureAlgorithm.None?
    requires provider(settings.defaultSignatureAlgorithm) == Success(c)
    requires lib.createToken(Descriptor(b.(signingCredentials := Some(c)))).Failure?
    ensures BuildAsync(b, settings, provider, lib).token.Failure?
    ensures BuildAsync(b, settings, provider, lib).builder.signingCredentials == Some(c)
  {
    DefaultAlgorithmAsksProvider(b, settings, provider, lib, c);
  }

  /** A provider failure on that path surfaces unchanged. */
  lemma ProviderFailurePropagates(
    b: JwtBuilder, settings: TestSettings, provider: CredentialsProvider, lib: Library, e: Error)
    requires b.signingCredentials.None?
    requires b.signatureAlgorithm.None? || b.signatureAlgorithm.value in DuendeSupportedSecurityAlgorithms
    requires provider(b.signatureAlgorithm.GetOr(settings.defaultSignatureAlgorithm)) == Failure(e)
    ensures BuildAsync(b, settings, provider, lib) == Built(Failure(e), b)
  {
  }

  /** "none" in any casing: no credential and the unsigned form, whose header
      still names the algorithm as written. */
  lemma NoneIsUnsigned(b: JwtBuilder, settings: TestSettings, provider: CredentialsProvider, lib: Library)
    requires b.signingCredentials.None? && b.signatureAlgorithm.Some? && IsNoneAlgorithm(b.signatureAlgorithm.value)
    ensures UnsignedResult(BuildAsync(b, settings, provider, lib), b, lib)
    ensures BuildJwtHeader(b)["alg"] == JString(b.signatureAlgorithm.value)
  {
  }

  /** A name outside the known algorithms, such as a lower-case "rs256",
      yields the unsigned form too. */
  lemma UnknownIsUnsigned(b: JwtBuilder, settings: TestSettings, provider: CredentialsProvider, lib: Library)
    requires b.signingCredentials.None? && b.signatureAlgorithm.Some?
    requires b.signatureAlgorithm.value != "" && b.signatureAlgorithm.value !in KnownSecurityAlgorithms
    ensures UnsignedResult(BuildAsync(b, settings, provider, lib), b, lib)
  {
  }

  lemma LowerCaseRs256IsUnsigned(b: JwtBuilder, settings: TestSettings, provider: CredentialsProvider, lib: Library)
    requires b.signingCredentials.None? && b.signatureAlgorithm == Some("rs256")
    ensures UnsignedResult(BuildAsync(b, settings, provider, lib), b, lib)
  {
    MembershipIsCaseSensitive();
    UnknownIsUnsigned(b, settings, provider, lib);
  }

  /** On the unsigned path a not-before time that is not earlier than the
      expiry, as after `WithNotBefore(t).WithExpires(t)`, makes the payload
      constructor throw, whatever the credential. */
  lemma UnsignedRejectsLateNotBefore(b: JwtBuilder, settings: TestSettings, provider: CredentialsProvider, lib: Library)
    requires UnsignedOutput(b.signatureAlgorithm) && b.notBefore >= b.expires
    ensures BuildAsync(b, settings, provider, lib) == Built(Failure(Argument), b)
  {
  }

  /** An HMAC name derives a symmetric key from the UTF-8 bytes of the secret,
      the token handler signs with it, and the build then leaves both a
      credential and a name set. */
  lemma HmacDerivesSymmetricKey(b: JwtBuilder, settings: TestSettings, provider: CredentialsProvider, lib: Library)
    requires b.signingCredentials.None? && b.signatureAlgorithm.Some? && b.signatureAlgorithm.value in HmacAlgorithms
    requires !IsNullOrEmpty(b.hmacShaSecret)
    ensures var signed := b.(signingCredentials :=
              Some(SigningCredentials(SymmetricKey(lib.utf8(b.hmacShaSecret.value)), b.signatureAlgorithm.value)));
      && HandlerResult(BuildAsync(b, settings, provider, lib), signed, lib)
      && !Exclusive(signed)
  {
    SupportedAreKnownAndRestIsHmac();
    KnownAreNotNone();
  }

  /** An HMAC name without a secret is an error. */
  lemma HmacWithoutSecretFails(b: JwtBuilder, settings: TestSettings, provider: CredentialsProvider, lib: Library)
    requires b.signingCredentials.None? && b.signatureAlgorithm.Some? && b.signatureAlgorithm.value in HmacAlgorithms
    requires IsNullOrEmpty(b.hmacShaSecret)
    ensures BuildAsync(b, settings, provider, lib) == Built(Failure(InvalidOperation("The HMAC secret is not set.")), b)
  {
  }

  /** The empty name is neither "none" nor known, so the resolution yields no
      credential, yet the unsigned rule skips empty names: the token handler's
      signed path runs without a credential. */
  lemma EmptyNameTakesSignedPathWithoutCredential(
    b: JwtBuilder, settings: TestSettings, provider: CredentialsProvider, lib: Library)
    requires b.signingCredentials.None? && b.signatureAlgorithm == Some("")
    ensures HandlerResult(BuildAsync(b, settings, provider, lib), b, lib)
  {
    assert "" !in KnownSecurityAlgorithms;
    assert !IsNoneAlgorithm("");
  }

  /** Under the configured settings, a fresh builder asks the provider for
      RS256 and the token handler signs with what it returns. */
  lemma ConfiguredBuildAsksForRs256(
    now: int, guids: GuidPairText, provider: CredentialsProvider, lib: Library, c: SigningCredentials)
    requires provider(RsaSha256) == Success(c)
    ensures var settings := ConfiguredTestSettings();
      var b := NewJwtBuilder(settings, now, guids);
      var signed := b.(signingCredentials := Some(c));
      && HandlerResult(BuildAsync(b, settings, provider, lib), signed, lib)
      && Descriptor(signed).tokenType == "at+jwt"
      && Descriptor(signed).audience == "https://localhost:5901/resources"
  {
    var settings := ConfiguredTestSettings();
    ConfiguredKeepsOtherDefaults();
    DefaultAlgorithmAsksProvider(NewJwtBuilder(settings, now, guids), settings, provider, lib, c);
  }

  /** Round trip on the unsigned path: a token built with explicit claim
      values, the not-before time earlier than the expiry, reads back through
      a decoder that inverts the payload encoding as exactly those values,
      with an empty issuer or audience absent. */
  lemma ExplicitClaimsRoundTrip(
    b: JwtBuilder, settings: TestSettings, provider: CredentialsProvider, lib: Library,
    decodePayload: string -> Payload,
    aud: string, iss: string, nbf: int, exp: int, iat: int, claims: seq<Claim>)
    requires UnsignedOutput(b.signatureAlgorithm)
    requires nbf < exp
    requires forall p :: decodePayload(lib.encodePayload(p)) == p
    requires forall h :: '.' !in lib.encodeHeader(h)
    requires forall p :: '.' !in lib.encodePayload(p)
    ensures var built := WithSubject(WithIssuedAt(WithExpires(WithNotBefore(WithIssuer(WithAudience(b, aud), iss), nbf), exp), iat), claims);
      var r := BuildAsync(built, settings, provider, lib);
      && r.token.Success?
      && |Split(r.token.value, '.')| == 3
      && decodePayload(Split(r.token.value, '.')[1]) == Payload(Present(iss), Present(aud), claims, nbf, exp, iat)
  {
    var built := WithSubject(WithIssuedAt(WithExpires(WithNotBefore(WithIssuer(WithAudience(b, aud), iss), nbf), exp), iat), claims);
    var payload := BuildJwtPayload(built).value;
    assert payload == Payload(Present(iss), Present(aud), claims, nbf, exp, iat);
    var r := BuildAsync(built, settings, provider, lib);
    assert r.token.value == Unsigned(BuildJwtHeader(built), payload, lib);
    UnsignedSegments(BuildJwtHeader(built), payload, lib);
  }
}
