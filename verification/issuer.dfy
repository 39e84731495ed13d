/** `TargetApiWebApplicationFactory`: the embedded issuer as a signing
    credentials provider, its configured algorithms, the cache of "external"
    keys and the two harness endpoints that serve them. */
module Issuer {
  import opened Wrappers
  import opened Text
  import opened Crypto
  import opened Algorithms
  import opened JsonWebKeys
  import opened Tokens
  import opened SecurityKeyBuilder

  /** A cached external key: the key id recorded at creation and the key. */
  datatype KeyEntry = KeyEntry(keyId: string, securityKey: SecurityKey)

  /** `GeneratedSecurityKeys`: algorithm name to cached key. */
  type KeyCache = map<string, KeyEntry>

  /** Every entry was created by `CreateSecurityKey` for its algorithm and
      recorded under the key's own id. */
  ghost predicate CacheValid(cache: KeyCache) {
    forall alg :: alg in cache ==>
      && cache[alg].securityKey.IsAsymmetric()
      && cache[alg].securityKey == CreateSecurityKey(alg, FreshKey(cache[alg].keyId, cache[alg].securityKey.parameters))
  }

  /** `GetExternalSecurityKeyData`: the cached pair for the algorithm, or a
      key created from `generated`, cached and returned. */
  function GetExternalSecurityKeyData(cache: KeyCache, alg: string, generated: FreshKey): (r: (KeyEntry, KeyCache))
    ensures alg in cache ==> r.0 == cache[alg] && r.1 == cache
    ensures alg !in cache ==>
      var key := CreateSecurityKey(alg, generated);
      r.0 == KeyEntry(key.keyId, key) && r.1.Keys == cache.Keys + {alg}
    ensures alg in r.1 && r.1[alg] == r.0
    ensures forall a :: a in cache ==> a in r.1 && r.1[a] == cache[a]
    ensures CacheValid(cache) ==> CacheValid(r.1)
  {
    if alg in cache then (cache[alg], cache)
    else
      var key := CreateSecurityKey(alg, generated);
      var entry := KeyEntry(key.keyId, key);
      (entry, cache[alg := entry])
  }

  /** Asking twice for the same algorithm gives the same pair and leaves the
      cache as the first call left it, whatever the generator yields. */
  lemma GetExternalSecurityKeyDataIdempotent(cache: KeyCache, alg: string, fresh1: FreshKey, fresh2: FreshKey)
    ensures var (e1, c1) := GetExternalSecurityKeyData(cache, alg, fresh1);
            var (e2, c2) := GetExternalSecurityKeyData(c1, alg, fresh2);
            e2 == e1 && c2 == c1
  {
  }

  /** The embedded issuer: absent, or running with its managed keyset, which
      holds one signing credential for each configured algorithm. */
  datatype IssuerHost = NotRunning | Running(signingCredentialsFor: string -> SigningCredentials)

  /** `ISigningCredentialsProvider.GetSigningCredentialsAsync` as the factory
      implements it: an error while the issuer is absent; otherwise the key
      material service's credential for the algorithm, which throws when the
      keyset has no key for that algorithm. */
  function GetSigningCredentials(host: IssuerHost, alg: string): (r: Result<SigningCredentials>)
    ensures r.Failure? <==> host.NotRunning? || alg !in IssuerSigningAlgorithms()
    ensures host.NotRunning? ==> r == Failure(InvalidOperation("The test identity provider is not running!"))
    ensures host.Running? && alg !in IssuerSigningAlgorithms() ==> r == Failure(NoSigningKey)
    ensures r.Success? ==> r.value == host.signingCredentialsFor(alg)
  {
    match host
    case NotRunning => Failure(InvalidOperation("The test identity provider is not running!"))
    case Running(credentialsFor) =>
      if alg in IssuerSigningAlgorithms() then Success(credentialsFor(alg)) else Failure(NoSigningKey)
  }

  /** A running issuer hands out credentials for exactly the known names that
      are not HMAC: an HMAC name such as a configured default of "HS256", or
      an unknown name, makes it throw. */
  lemma RunningIssuerServesExactlyAsymmetric(credentialsFor: string -> SigningCredentials, alg: string)
    ensures GetSigningCredentials(Running(credentialsFor), alg).Success? <==>
      alg in KnownSecurityAlgorithms && alg !in HmacAlgorithms
    ensures GetSigningCredentials(Running(credentialsFor), HmacSha256) == Failure(NoSigningKey)
  {
    assert HmacAlgorithms[0] == HmacSha256;
  }

  /** The algorithms the issuer's key management is configured with. */
  function IssuerSigningAlgorithms(): (algs: seq<string>)
    ensures forall a :: a in algs <==> a in KnownSecurityAlgorithms && a !in HmacAlgorithms
  {
    SupportedAreKnownAndRestIsHmac();
    DuendeSupportedSecurityAlgorithms
  }

  datatype Body = TextBody(text: string) | JwksBody(keys: seq<JsonWebKey>)

  datatype Response = Response(status: int, body: Body)

  const BadRequest: Response := Response(400, TextBody("400 - Bad Request."))

  /** The JWK the key-set endpoint publishes for a cached key. */
  function PublishedJwk(alg: string, key: SecurityKey, lib: Library): (jwk: JsonWebKey)
    ensures jwk.alg == Some(alg) && jwk.use == Some("sig")
  {
    lib.convertFromSecurityKey(key).(alg := Some(alg), use := Some("sig"))
  }

  /** `GET /external-jwks?alg=...`: 400 without a non-empty `alg`, otherwise a
      one-key set built from the cached external key for that algorithm. */
  function ExternalJwks(cache: KeyCache, alg: Option<string>, generated: FreshKey, lib: Library): (r: (Response, KeyCache))
    ensures IsNullOrEmpty(alg) ==> r == (BadRequest, cache)
    ensures !IsNullOrEmpty(alg) ==>
      var (entry, cache') := GetExternalSecurityKeyData(cache, alg.value, generated);
      && r.1 == cache'
      && r.0.status == 200
      && r.0.body == JwksBody([PublishedJwk(alg.value, entry.securityKey, lib)])
  {
    if IsNullOrEmpty(alg) then (BadRequest, cache)
    else
      var (entry, cache') := GetExternalSecurityKeyData(cache, alg.value, generated);
      (Response(200, JwksBody([PublishedJwk(alg.value, entry.securityKey, lib)])), cache')
  }

  /** `GET /external-cert?alg=...`: 400 without a non-empty `alg`, otherwise the
      PEM of the cached external key for that algorithm. */
  function ExternalCert(cache: KeyCache, alg: Option<string>, generated: FreshKey, lib: Library): (r: Result<(Response, KeyCache)>)
    ensures IsNullOrEmpty(alg) ==> r == Success((BadRequest, cache))
    ensures !IsNullOrEmpty(alg) && CacheValid(cache) ==>
      var (entry, cache') := GetExternalSecurityKeyData(cache, alg.value, generated);
      r == Success((Response(200, TextBody(GetCertificatePublicKeyPem(entry.securityKey, lib).value)), cache'))
  {
    if IsNullOrEmpty(alg) then Success((BadRequest, cache))
    else
      var (entry, cache') := GetExternalSecurityKeyData(cache, alg.value, generated);
      var pem :- GetCertificatePublicKeyPem(entry.securityKey, lib);
      Success((Response(200, TextBody(pem)), cache'))
  }

  /** Once one endpoint has served an algorithm, the other serves the same
      cached key for it and neither creates another. */
  lemma EndpointsShareKeys(cache: KeyCache, alg: string, fresh1: FreshKey, fresh2: FreshKey, lib: Library)
    requires CacheValid(cache) && alg != ""
    ensures var (_, c1) := ExternalJwks(cache, Some(alg), fresh1, lib);
            var r := ExternalCert(c1, Some(alg), fresh2, lib);
            && r.Success? && r.value.1 == c1
            && r.value.0.body == TextBody(GetCertificatePublicKeyPem(c1[alg].securityKey, lib).value)
            && ExternalJwks(c1, Some(alg), fresh2, lib).0.body == JwksBody([PublishedJwk(alg, c1[alg].securityKey, lib)])
  {
  }
}
