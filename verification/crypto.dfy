/** Security keys and signing credentials. Key material itself is opaque: a
    generated key is represented by what the random generator produced for it. */
module Crypto {
  import opened Wrappers
  import opened Text

  /** The NIST curves of section 6.2.1.1 of RFC 7518. */
  datatype Curve = P256 | P384 | P521 {
    /** The `crv` name (`JsonWebKeyECTypes`). */
    function Name(): string {
      match this
      case P256 => "P-256"
      case P384 => "P-384"
      case P521 => "P-521"
    }
  }

  /** What the key generator yields for one fresh key: a random key id and
      the random key parameters. */
  datatype FreshKey = FreshKey(keyId: string, parameters: seq<byte>)

  datatype SecurityKey =
    | RsaKey(keyId: string, parameters: seq<byte>)
    | EcKey(curve: Curve, keyId: string, parameters: seq<byte>)
    | SymmetricKey(keyBytes: seq<byte>)
  {
    predicate IsAsymmetric() {
      RsaKey? || EcKey?
    }

    /** `SecurityKey.KeyId`: null for a symmetric key built from raw bytes. */
    function KeyId(): Option<string> {
      if IsAsymmetric() then Some(keyId) else None
    }
  }

  datatype SigningCredentials = SigningCredentials(key: SecurityKey, algorithm: string)
}
