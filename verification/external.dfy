/** The four header-injection attacks of `ExternalSignatureTests`: a token
    whose header points the API at key material the attacker controls
    (`jwk`, `jku`, `x5c`, `x5u`, each with a `kid`, sections 4.1.2 to 4.1.6
    of RFC 7515), signed with that material. */
module ExternalSignature {
  import opened Wrappers
  import opened Text
  import opened Json
  import opened Crypto
  import opened Algorithms
  import opened JsonWebKeys
  import opened Tokens
  import opened Settings
  import opened SecurityKeyBuilder
  import opened Issuer
  import opened JwtBuilders
  import Seqs

  datatype AttackVariant = UseJkuAndKidClaims | UseJwkClaim | UseX5uClaim | UseX5cClaim

  /** An algorithm family whose keys can be published as a certificate. */
  predicate CertificateCapable(alg: string) {
    StartsWith(alg, "ES") || StartsWith(alg, "PS") || StartsWith(alg, "RS")
  }

  /** The algorithm selection: one of the allowed, certificate-capable names.
      `pick` stands for the random number that decides which one. */
  function ChooseAlgorithm(allowed: seq<string>, pick: nat): (r: Result<string>)
    ensures r.Failure? <==> forall a :: a in allowed ==> !CertificateCapable(a)
    ensures r.Failure? ==>
      r.error == InvalidOperation("No supported signature algorithm found that supports using a certificate.")
    ensures r.Success? ==> r.value in allowed && CertificateCapable(r.value)
  {
    var candidates := Seqs.Filter(allowed, CertificateCapable);
    if candidates == [] then
      Failure(InvalidOperation("No supported signature algorithm found that supports using a certificate."))
    else
      var chosen := candidates[pick % |candidates|];
      assert chosen in candidates;
      Success(chosen)
  }

  /** Every allowed certificate-capable name can be the one picked. */
  lemma EveryCandidateCanBeChosen(allowed: seq<string>, a: string)
    requires a in allowed && CertificateCapable(a)
    ensures exists pick: nat :: ChooseAlgorithm(allowed, pick) == Success(a)
  {
    var candidates := Seqs.Filter(allowed, CertificateCapable);
    assert a in candidates;
    var i :| 0 <= i < |candidates| && candidates[i] == a;
    assert i % |candidates| == i;
    assert ChooseAlgorithm(allowed, i) == Success(a);
  }

  /** A JSON string for a .NET string that may be null. */
  function OptionalString(s: Option<string>): (j: Json)
    ensures s.None? <==> j == JNull
    ensures s.Some? ==> j == JString(s.value)
  {
    if s.Some? then JString(s.value) else JNull
  }

  /** The header to sign and the key to sign it with. */
  datatype Forged = Forged(header: Header, key: SecurityKey)

  /** `InjectJsonWebKey`: the public JWK of a fresh key, with its `alg` and
      `use`, embedded as `jwk`, and its key id as `kid`. The projection fails
      when the converted key's additional data repeats a member name. */
  function InjectJsonWebKey(alg: string, header: Header, generated: FreshKey, lib: Library): (r: Result<Forged>)
    ensures var jwk := PublishedJwk(alg, CreateSecurityKey(alg, generated), lib);
      && (r.Success? <==> ToDictionary(jwk).Success?)
      && (r.Success? ==>
            && r.value.key == CreateSecurityKey(alg, generated)
            && r.value.header == header["jwk" := JObject(ToDictionary(jwk).value)]["kid" := OptionalString(jwk.kid)])
  {
    var key := CreateSecurityKey(alg, generated);
    var jwk := PublishedJwk(alg, key, lib);
    var projected :- ToDictionary(jwk);
    Success(Forged(header["jwk" := JObject(projected)]["kid" := OptionalString(jwk.kid)], key))
  }

  /** `UseExternalJsonWebKey`: `jku` points at the harness key-set endpoint
      for the algorithm and `kid` names the cached external key, which signs. */
  function UseExternalJsonWebKey(settings: TestSettings, alg: string, header: Header, cache: KeyCache, generated: FreshKey)
    : (r: (Forged, KeyCache))
    ensures var (entry, cache') := GetExternalSecurityKeyData(cache, alg, generated);
      && r.1 == cache'
      && r.0.key == entry.securityKey
      && r.0.header == header["jku" := JString(settings.defaultIssuer + "/external-jwks?alg=" + alg)]
                             ["kid" := JString(entry.keyId)]
  {
    var (entry, cache') := GetExternalSecurityKeyData(cache, alg, generated);
    var url := settings.defaultIssuer + "/external-jwks?alg=" + alg;
    (Forged(header["jku" := JString(url)]["kid" := JString(entry.keyId)], entry.securityKey), cache')
  }

  /** `InjectCertificate`: the PEM public key of a fresh key as the single
      element of `x5c`, and that key's id as `kid`. */
  function InjectCertificate(alg: string, header: Header, generated: FreshKey, lib: Library): (r: Forged)
    ensures r.key == CreateSecurityKey(alg, generated)
    ensures r.header == header["x5c" := JArray([JString(GetCertificatePublicKeyPem(r.key, lib).value)])]
                              ["kid" := JString(generated.keyId)]
  {
    var key := CreateSecurityKey(alg, generated);
    CreatedKeysHavePem(alg, generated, lib);
    var certificate := GetCertificatePublicKeyPem(key, lib).value;
    Forged(header["x5c" := JArray([JString(certificate)])]["kid" := JString(key.keyId)], key)
  }

  /** `UseExternalCertificate`: `x5u` points at the harness certificate
      endpoint for the algorithm and `kid` names the cached external key. */
  function UseExternalCertificate(settings: TestSettings, alg: string, header: Header, cache: KeyCache, generated: FreshKey)
    : (r: (Forged, KeyCache))
    ensures var (entry, cache') := GetExternalSecurityKeyData(cache, alg, generated);
      && r.1 == cache'
      && r.0.key == entry.securityKey
      && r.0.header == header["x5u" := JString(settings.defaultIssuer + "/external-cert?alg=" + alg)]
                             ["kid" := JString(entry.keyId)]
  {
    var (entry, cache') := GetExternalSecurityKeyData(cache, alg, generated);
    var url := settings.defaultIssuer + "/external-cert?alg=" + alg;
    (Forged(header["x5u" := JString(url)]["kid" := JString(entry.keyId)], entry.securityKey), cache')
  }

  /** `SignAndReturnJwt`: the signing input is the encoded header, '.', and
      the encoded payload; the signature is over its ASCII bytes. Creating
      the signature provider throws when the crypto provider factory does not
      support the algorithm for the key. */
  function SignAndReturnJwt(forged: Forged, encodedPayload: string, alg: string, lib: Library)
    : (r: Result<(string, string)>)
    ensures r.Failure? <==> !lib.isSupportedAlgorithm(alg, forged.key)
    ensures r.Failure? ==> r.error == NotSupported
    ensures r.Success? ==> r.value.0 == lib.encodeHeader(forged.header) + "." + encodedPayload
    ensures r.Success? ==> r.value.1 == lib.base64UrlEncode(lib.sign(forged.key, alg, Ascii(r.value.0)))
  {
    var headerAndPayload := lib.encodeHeader(forged.header) + "." + encodedPayload;
    if !lib.isSupportedAlgorithm(alg, forged.key) then Failure(NotSupported)
    else Success((headerAndPayload, lib.base64UrlEncode(lib.sign(forged.key, alg, Ascii(headerAndPayload)))))
  }

  /** What an attack produces: the token, the algorithm it names, the builder
      header and payload it started from, and the header and key it used. */
  datatype Attack = Attack(token: string, alg: string, baseHeader: Header, payload: Payload, forged: Forged)

  /** An attack or the exception that ended it, with the external-key cache
      afterwards: a lookup stores its key before signing can throw, so the
      cache is returned on both paths. */
  datatype Attempt = Attempt(attack: Result<Attack>, cache: KeyCache)

  /** The key a variant signs with: a fresh one for `jwk` and `x5c`, the
      cached external one for `jku` and `x5u`. */
  function AttackKey(variant: AttackVariant, alg: string, cache: KeyCache, generated: FreshKey): SecurityKey {
    match variant
    case UseJwkClaim => CreateSecurityKey(alg, generated)
    case UseX5cClaim => CreateSecurityKey(alg, generated)
    case UseJkuAndKidClaims => GetExternalSecurityKeyData(cache, alg, generated).0.securityKey
    case UseX5uClaim => GetExternalSecurityKeyData(cache, alg, generated).0.securityKey
  }

  /** The cache once a variant has its key: the `jku` and `x5u` variants look
      the algorithm up, which stores a key on a miss; `jwk` and `x5c` leave it
      alone. */
  function CacheAfter(variant: AttackVariant, alg: string, cache: KeyCache, generated: FreshKey): KeyCache {
    match variant
    case UseJwkClaim => cache
    case UseX5cClaim => cache
    case UseJkuAndKidClaims => GetExternalSecurityKeyData(cache, alg, generated).1
    case UseX5uClaim => GetExternalSecurityKeyData(cache, alg, generated).1
  }

  /** The header and key of one variant, with the cache afterwards. Only the
      `jwk` projection can fail. */
  function Forge(variant: AttackVariant, settings: TestSettings, alg: string, header: Header,
                 cache: KeyCache, generated: FreshKey, lib: Library): (r: Result<(Forged, KeyCache)>)
    ensures r.Success? <==>
      (variant.UseJwkClaim? ==> ToDictionary(PublishedJwk(alg, CreateSecurityKey(alg, generated), lib)).Success?)
    ensures r.Success? ==> r.value.0.key == AttackKey(variant, alg, cache, generated)
    ensures r.Success? ==> r.value.1 == CacheAfter(variant, alg, cache, generated)
  {
    match variant
    case UseJwkClaim =>
      var forged :- InjectJsonWebKey(alg, header, generated, lib);
      Success((forged, cache))
    case UseJkuAndKidClaims => Success(UseExternalJsonWebKey(settings, alg, header, cache, generated))
    case UseX5cClaim => Success((InjectCertificate(alg, header, generated, lib), cache))
    case UseX5uClaim => Success(UseExternalCertificate(settings, alg, header, cache, generated))
  }

  /** `GetJwt`: pick an algorithm, then build the attack with it. */
  function GetJwt(variant: AttackVariant, settings: TestSettings, pick: nat, now: int, guids: GuidPairText,
                  cache: KeyCache, generated: FreshKey, lib: Library): (r: Attempt)
    ensures ChooseAlgorithm(settings.allowedAlgorithms, pick).Failure? ==>
      r == Attempt(Failure(ChooseAlgorithm(settings.allowedAlgorithms, pick).error), cache)
    ensures ChooseAlgorithm(settings.allowedAlgorithms, pick).Success? ==>
      r == AttackWith(variant, settings, ChooseAlgorithm(settings.allowedAlgorithms, pick).value,
                      now, guids, cache, generated, lib)
    ensures r.attack.Success? ==>
      r.attack.value.alg in settings.allowedAlgorithms && CertificateCapable(r.attack.value.alg)
  {
    var choice := ChooseAlgorithm(settings.allowedAlgorithms, pick);
    if choice.Failure? then Attempt(Failure(choice.error), cache)
    else AttackWith(variant, settings, choice.value, now, guids, cache, generated, lib)
  }

  /** The rest of `GetJwt` once `alg` is chosen: take the header and payload
      of a builder set to it, rewrite the header for the variant and sign.
      It fails when the `jwk` projection fails or the crypto provider factory
      cannot sign with the variant's key; the cache keeps what the variant's
      lookup stored either way. */
  function AttackWith(variant: AttackVariant, settings: TestSettings, alg: string, now: int, guids: GuidPairText,
                      cache: KeyCache, generated: FreshKey, lib: Library): (r: Attempt)
    ensures r.cache == CacheAfter(variant, alg, cache, generated)
    ensures r.attack.Success? <==>
      && (variant.UseJwkClaim? ==> ToDictionary(PublishedJwk(alg, CreateSecurityKey(alg, generated), lib)).Success?)
      && lib.isSupportedAlgorithm(alg, AttackKey(variant, alg, cache, generated))
    ensures r.attack.Success? ==>
      var a := r.attack.value;
      && a.alg == alg
      && a.baseHeader.Keys == {"alg", "typ"}
      && a.baseHeader["alg"] == JString(alg)
      && a.baseHeader["typ"] == JString(NewJwtBuilder(settings, now, guids).tokenType)
      && Forge(variant, settings, alg, a.baseHeader, cache, generated, lib) ==
           Success((a.forged, r.cache))
      && BuildJwtPayload(NewJwtBuilder(settings, now, guids)) == Success(a.payload)
      && a.token ==
           lib.encodeHeader(a.forged.header) + "." + lib.encodePayload(a.payload) + "." +
           lib.base64UrlEncode(lib.sign(a.forged.key, alg,
             Ascii(lib.encodeHeader(a.forged.header) + "." + lib.encodePayload(a.payload))))
  {
    var builder := WithSignatureAlgorithm(NewJwtBuilder(settings, now, guids), alg);
    var header := BuildJwtHeader(builder);
    var payload := BuildJwtPayload(builder).value;
    var forged := Forge(variant, settings, alg, header, cache, generated, lib);
    var attack := if forged.Failure? then Failure(forged.error) else SignAttack(forged.value.0, alg, header, payload, lib);
    Attempt(attack, CacheAfter(variant, alg, cache, generated))
  }

  /** The last step of an attack: sign the forged header over the payload. */
  function SignAttack(forged: Forged, alg: string, header: Header, payload: Payload, lib: Library): (r: Result<Attack>)
    ensures r.Success? <==> lib.isSupportedAlgorithm(alg, forged.key)
    ensures r.Success? ==>
      && r.value.alg == alg && r.value.baseHeader == header && r.value.payload == payload && r.value.forged == forged
      && r.value.token ==
           lib.encodeHeader(forged.header) + "." + lib.encodePayload(payload) + "." +
           lib.base64UrlEncode(lib.sign(forged.key, alg,
             Ascii(lib.encodeHeader(forged.header) + "." + lib.encodePayload(payload))))
  {
    var signed :- SignAndReturnJwt(forged, lib.encodePayload(payload), alg, lib);
    Success(Attack(signed.0 + "." + signed.1, alg, header, payload, forged))
  }

  /** Setting one parameter and then `kid` on an `alg`/`typ` header keeps
      those two entries and adds exactly the two names. */
  lemma AddParameterAndKid(header: Header, name: string, value: Json, kid: Json)
    requires header.Keys == {"alg", "typ"} && name !in {"alg", "typ", "kid"}
    ensures var h := header[name := value]["kid" := kid];
      && h.Keys == {"alg", "typ", "kid", name}
      && h["alg"] == header["alg"] && h["typ"] == header["typ"]
  {
  }

  /** Each variant's rewrite of an `alg`/`typ` header. */
  lemma ForgeShape(variant: AttackVariant, settings: TestSettings, alg: string, header: Header,
                   cache: KeyCache, generated: FreshKey, lib: Library)
    requires header.Keys == {"alg", "typ"}
    requires Forge(variant, settings, alg, header, cache, generated, lib).Success?
    ensures var h := Forge(variant, settings, alg, header, cache, generated, lib).value.0.header;
      && h.Keys == {"alg", "typ", "kid", ParameterOf(variant)}
      && h["alg"] == header["alg"] && h["typ"] == header["typ"]
  {
    var forged := Forge(variant, settings, alg, header, cache, generated, lib).value.0;
    match variant
    case UseJwkClaim =>
      var jwk := PublishedJwk(alg, CreateSecurityKey(alg, generated), lib);
      AddParameterAndKid(header, "jwk", JObject(ToDictionary(jwk).value), OptionalString(jwk.kid));
    case UseJkuAndKidClaims =>
      var (entry, _) := GetExternalSecurityKeyData(cache, alg, generated);
      AddParameterAndKid(header, "jku", JString(settings.defaultIssuer + "/external-jwks?alg=" + alg),
                         JString(entry.keyId));
    case UseX5cClaim =>
      var key := CreateSecurityKey(alg, generated);
      AddParameterAndKid(header, "x5c", JArray([JString(GetCertificatePublicKeyPem(key, lib).value)]),
                         JString(generated.keyId));
    case UseX5uClaim =>
      var (entry, _) := GetExternalSecurityKeyData(cache, alg, generated);
      AddParameterAndKid(header, "x5u", JString(settings.defaultIssuer + "/external-cert?alg=" + alg),
                         JString(entry.keyId));
  }

  /** The header of every variant keeps the builder's `alg` and `typ`, adds
      `kid`, and adds exactly the parameter its variant names. */
  lemma ForgedHeaderShape(variant: AttackVariant, settings: TestSettings, alg: string, now: int, guids: GuidPairText,
                          cache: KeyCache, generated: FreshKey, lib: Library)
    ensures AttackWith(variant, settings, alg, now, guids, cache, generated, lib).attack.Success? ==>
      var a := AttackWith(variant, settings, alg, now, guids, cache, generated, lib).attack.value;
      && a.forged.header["alg"] == JString(a.alg)
      && a.forged.header["typ"] == a.baseHeader["typ"]
      && "kid" in a.forged.header
      && a.forged.header.Keys == {"alg", "typ", "kid", ParameterOf(variant)}
  {
    if AttackWith(variant, settings, alg, now, guids, cache, generated, lib).attack.Success? {
      var a := AttackWith(variant, settings, alg, now, guids, cache, generated, lib).attack.value;
      ForgeShape(variant, settings, a.alg, a.baseHeader, cache, generated, lib);
    }
  }

  /** The header parameter each variant injects. */
  function ParameterOf(variant: AttackVariant): (name: string)
    ensures name in {"jku", "jwk", "x5u", "x5c"}
  {
    match variant
    case UseJkuAndKidClaims => "jku"
    case UseJwkClaim => "jwk"
    case UseX5uClaim => "x5u"
    case UseX5cClaim => "x5c"
  }

  /** With base64url segments (no '.'), the token splits into the encoded
      forged header, the builder's encoded payload unmodified, and a signature
      over the first two segments with the named algorithm. */
  lemma AttackTokenSegments(variant: AttackVariant, settings: TestSettings, alg: string, now: int, guids: GuidPairText,
                            cache: KeyCache, generated: FreshKey, lib: Library, a: Attack)
    requires AttackWith(variant, settings, alg, now, guids, cache, generated, lib).attack == Success(a)
    requires forall h :: '.' !in lib.encodeHeader(h)
    requires forall p :: '.' !in lib.encodePayload(p)
    requires forall bytes :: '.' !in lib.base64UrlEncode(bytes)
    ensures var parts := Split(a.token, '.');
      && |parts| == 3
      && parts[0] == lib.encodeHeader(a.forged.header)
      && parts[1] == lib.encodePayload(BuildJwtPayload(NewJwtBuilder(settings, now, guids)).value)
      && parts[2] == lib.base64UrlEncode(lib.sign(a.forged.key, a.alg, Ascii(parts[0] + "." + parts[1])))
  {
    AttackToken(variant, settings, alg, now, guids, cache, generated, lib, a);
    SignedTokenSegments(lib.encodeHeader(a.forged.header), lib.encodePayload(a.payload), a.forged.key, a.alg, lib);
  }

  /** The token of a successful attack, read off `AttackWith`'s contract. */
  lemma AttackToken(variant: AttackVariant, settings: TestSettings, alg: string, now: int, guids: GuidPairText,
                    cache: KeyCache, generated: FreshKey, lib: Library, a: Attack)
    requires AttackWith(variant, settings, alg, now, guids, cache, generated, lib).attack == Success(a)
    ensures a.payload == BuildJwtPayload(NewJwtBuilder(settings, now, guids)).value
    ensures var header, payload := lib.encodeHeader(a.forged.header), lib.encodePayload(a.payload);
      a.token == header + "." + payload + "." + lib.base64UrlEncode(lib.sign(a.forged.key, a.alg, Ascii(header + "." + payload)))
  {
  }


  /** A token signed as `SignAndReturnJwt` signs splits back into its parts
      when no segment contains '.'. */
  lemma SignedTokenSegments(header: string, payload: string, key: SecurityKey, alg: string, lib: Library)
    requires '.' !in header && '.' !in payload
    requires forall bytes :: '.' !in lib.base64UrlEncode(bytes)
    ensures var parts := Split(header + "." + payload + "." +
                               lib.base64UrlEncode(lib.sign(key, alg, Ascii(header + "." + payload))), '.');
      && parts == [header, payload, lib.base64UrlEncode(lib.sign(key, alg, Ascii(header + "." + payload)))]
  {
    var signature := lib.base64UrlEncode(lib.sign(key, alg, Ascii(header + "." + payload)));
    assert '.' !in signature;
    CompactSegments(header, payload, signature);
  }

  /** For the `jku` and `x5u` variants the token names and is signed with the
      cached external key, and afterwards both harness endpoints serve that
      same key for the algorithm, whether or not signing succeeded. */
  lemma ExternalVariantsMatchServedKey(variant: AttackVariant, settings: TestSettings, alg: string, now: int,
                                       guids: GuidPairText, cache: KeyCache, generated: FreshKey, later: FreshKey,
                                       lib: Library)
    requires variant.UseJkuAndKidClaims? || variant.UseX5uClaim?
    requires CacheValid(cache)
    requires CertificateCapable(alg)
    ensures var r := AttackWith(variant, settings, alg, now, guids, cache, generated, lib);
      && (r.attack.Success? <==> lib.isSupportedAlgorithm(alg, AttackKey(variant, alg, cache, generated)))
      && alg in r.cache
      && ExternalJwks(r.cache, Some(alg), later, lib) ==
           (Response(200, JwksBody([PublishedJwk(alg, r.cache[alg].securityKey, lib)])), r.cache)
      && ExternalCert(r.cache, Some(alg), later, lib) ==
           Success((Response(200, TextBody(GetCertificatePublicKeyPem(r.cache[alg].securityKey, lib).value)), r.cache))
      && (r.attack.Success? ==>
            var a := r.attack.value;
            && a.alg == alg
            && a.forged.key == r.cache[alg].securityKey
            && a.forged.header["kid"] == JString(r.cache[alg].keyId))
  {
    assert alg != "";
    var (_, cache') := GetExternalSecurityKeyData(cache, alg, generated);
    assert CacheValid(cache');
  }

  /** For the `jku` and `x5u` variants a key the lookup created stays cached
      when the crypto provider factory then refuses to sign with it: the
      attack fails with `NotSupported`, and the cache holds the new entry. */
  lemma CacheKeptWhenSigningFails(variant: AttackVariant, settings: TestSettings, alg: string, now: int,
                                  guids: GuidPairText, cache: KeyCache, generated: FreshKey, lib: Library)
    requires variant.UseJkuAndKidClaims? || variant.UseX5uClaim?
    requires alg !in cache
    requires !lib.isSupportedAlgorithm(alg, CreateSecurityKey(alg, generated))
    ensures var r := AttackWith(variant, settings, alg, now, guids, cache, generated, lib);
      && r.attack == Failure(NotSupported)
      && r.cache == cache[alg := KeyEntry(generated.keyId, CreateSecurityKey(alg, generated))]
  {
    var key := CreateSecurityKey(alg, generated);
    assert key.keyId == generated.keyId;
    assert AttackKey(variant, alg, cache, generated) == key;
  }

  /** For the `jwk` and `x5c` variants the signing key is a fresh one whose
      id is the header's `kid`. */
  lemma InjectedVariantsUseFreshKey(variant: AttackVariant, settings: TestSettings, alg: string, now: int,
                                    guids: GuidPairText, cache: KeyCache, generated: FreshKey, lib: Library)
    requires variant.UseX5cClaim? || variant.UseJwkClaim?
    requires AttackWith(variant, settings, alg, now, guids, cache, generated, lib).attack.Success?
    ensures AttackWith(variant, settings, alg, now, guids, cache, generated, lib).cache == cache
    ensures var a := AttackWith(variant, settings, alg, now, guids, cache, generated, lib).attack.value;
      && a.forged.key == CreateSecurityKey(a.alg, generated)
      && (variant.UseX5cClaim? ==> a.forged.header["kid"] == JString(generated.keyId))
      && (variant.UseJwkClaim? ==>
            a.forged.header["kid"] == OptionalString(PublishedJwk(a.alg, a.forged.key, lib).kid))
  {
  }

  /** The signing key's kind follows the chosen algorithm as key generation
      does: RSA unless the name starts with "ES". */
  lemma AttackKeyKind(variant: AttackVariant, settings: TestSettings, alg: string, now: int, guids: GuidPairText,
                      cache: KeyCache, generated: FreshKey, lib: Library)
    requires CacheValid(cache)
    ensures AttackWith(variant, settings, alg, now, guids, cache, generated, lib).attack.Success? ==>
      var a := AttackWith(variant, settings, alg, now, guids, cache, generated, lib).attack.value;
      a.forged.key.RsaKey? <==> !StartsWith(a.alg, "ES")
  {
    if AttackWith(variant, settings, alg, now, guids, cache, generated, lib).attack.Success? {
      var a := AttackWith(variant, settings, alg, now, guids, cache, generated, lib).attack.value;
      var (entry, cache') := GetExternalSecurityKeyData(cache, a.alg, generated);
      assert CacheValid(cache');
      match variant
      case UseJwkClaim =>
        assert a.forged == InjectJsonWebKey(a.alg, a.baseHeader, generated, lib).value;
      case UseJkuAndKidClaims =>
        assert a.forged.key == cache'[a.alg].securityKey;
      case UseX5cClaim =>
        assert a.forged == InjectCertificate(a.alg, a.baseHeader, generated, lib);
      case UseX5uClaim =>
        assert a.forged.key == cache'[a.alg].securityKey;
    }
  }

  /** Under the configured settings only RS256 is allowed, so every pick
      chooses RS256, an RSA algorithm. */
  lemma ConfiguredSelectionIsRs256(pick: nat)
    ensures ChooseAlgorithm(ConfiguredTestSettings().allowedAlgorithms, pick) == Success(RsaSha256)
    ensures !StartsWith(RsaSha256, "ES")
  {
    ConfiguredAlgorithmsPartitionAll();
    assert RsaSha256[..2] == "RS";
    SingleCandidateIsAlwaysChosen(RsaSha256, pick);
  }

  /** A single allowed name that qualifies is chosen whatever the random pick. */
  lemma SingleCandidateIsAlwaysChosen(alg: string, pick: nat)
    requires CertificateCapable(alg)
    ensures ChooseAlgorithm([alg], pick) == Success(alg)
  {
    assert Seqs.Filter([alg], CertificateCapable) == [alg] by { assert [alg][1..] == []; }
    assert pick % 1 == 0;
  }
}
