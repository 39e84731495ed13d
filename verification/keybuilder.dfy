/** `SecurityKeyBuilder`: which kind of key is generated for an algorithm
    name, and the PEM export of a key's public part. */
module SecurityKeyBuilder {
  import opened Wrappers
  import opened Text
  import opened Crypto
  import opened Algorithms
  import opened Tokens

  /** The curve for an "ES" name; unlisted names fall back to P-256. */
  function CurveFor(alg: string): Curve {
    if alg == EcdsaSha384 then P384
    else if alg == EcdsaSha512 then P521
    else P256
  }

  /** `CreateSecurityKey`: an RSA key unless the name starts with "ES", and an
      EC key on the curve of section 3.4 of RFC 7518 otherwise. The key id
      and parameters are whatever the generator produced. */
  function CreateSecurityKey(alg: string, generated: FreshKey): (key: SecurityKey)
    ensures key.IsAsymmetric() && key.keyId == generated.keyId && key.parameters == generated.parameters
    ensures key.RsaKey? <==> !StartsWith(alg, "ES")
    ensures alg == EcdsaSha256 ==> key.EcKey? && key.curve == P256
    ensures alg == EcdsaSha384 ==> key.EcKey? && key.curve == P384
    ensures alg == EcdsaSha512 ==> key.EcKey? && key.curve == P521
    ensures StartsWith(alg, "ES") && alg !in [EcdsaSha256, EcdsaSha384, EcdsaSha512] ==>
      key.EcKey? && key.curve == P256
  {
    if !StartsWith(alg, "ES") then RsaKey(generated.keyId, generated.parameters)
    else EcKey(CurveFor(alg), generated.keyId, generated.parameters)
  }

  /** `GetCertificatePublicKeyPem`: the PKCS#1 RSA public key PEM of an RSA
      key, the SubjectPublicKeyInfo PEM of an EC key, an error otherwise. */
  function GetCertificatePublicKeyPem(key: SecurityKey, lib: Library): (r: Result<string>)
    ensures r.Success? <==> key.IsAsymmetric()
    ensures key.RsaKey? ==> r.value == lib.rsaPublicKeyPem(key.parameters)
    ensures key.EcKey? ==> r.value == lib.subjectPublicKeyInfoPem(key.curve, key.parameters)
    ensures r.Failure? ==> r.error == NotImplemented
  {
    match key
    case RsaKey(_, parameters) => Success(lib.rsaPublicKeyPem(parameters))
    case EcKey(curve, _, parameters) => Success(lib.subjectPublicKeyInfoPem(curve, parameters))
    case SymmetricKey(_) => Failure(NotImplemented)
  }

  /** Every generated key can be exported as PEM. */
  lemma CreatedKeysHavePem(alg: string, generated: FreshKey, lib: Library)
    ensures GetCertificatePublicKeyPem(CreateSecurityKey(alg, generated), lib).Success?
  {
  }

  /** Every known or issuer-supported name outside the ECDSA family, and any
      unknown name, yields an RSA key. */
  lemma NonEcdsaNamesYieldRsa(generated: FreshKey)
    ensures forall a :: a in [RsaSsaPssSha256, RsaSsaPssSha384, RsaSsaPssSha512, RsaSha256, RsaSha384,
                              RsaSha512, HmacSha256, HmacSha384, HmacSha512, "custom", "none"] ==>
      CreateSecurityKey(a, generated).RsaKey?
  {
    forall a | a in [RsaSsaPssSha256, RsaSsaPssSha384, RsaSsaPssSha512, RsaSha256, RsaSha384,
                     RsaSha512, HmacSha256, HmacSha384, HmacSha512, "custom", "none"]
      ensures CreateSecurityKey(a, generated).RsaKey?
    {
      assert a[0] != 'E' && |a| >= 2;
      assert a[..2][0] != 'E';
    }
  }
}
