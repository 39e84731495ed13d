/** The signature algorithm vocabulary of the harness: the `alg` names of
    section 3.1 of RFC 7518, the set the harness can sign with, and the subset
    the embedded issuer can mint keys for. */
module Algorithms {
  import opened Text
  import Seqs

  const EcdsaSha256: string := "ES256"
  const EcdsaSha384: string := "ES384"
  const EcdsaSha512: string := "ES512"
  const RsaSsaPssSha256: string := "PS256"
  const RsaSsaPssSha384: string := "PS384"
  const RsaSsaPssSha512: string := "PS512"
  const HmacSha256: string := "HS256"
  const HmacSha384: string := "HS384"
  const HmacSha512: string := "HS512"
  const RsaSha256: string := "RS256"
  const RsaSha384: string := "RS384"
  const RsaSha512: string := "RS512"
  /** `SecurityAlgorithms.None`. */
  const NoneAlgorithm: string := "none"

  /** `TestSettings.KnownSecurityAlgorithms`: the algorithms the harness can sign with. */
  const KnownSecurityAlgorithms: seq<string> := [
    EcdsaSha256, EcdsaSha384, EcdsaSha512,
    RsaSsaPssSha256, RsaSsaPssSha384, RsaSsaPssSha512,
    HmacSha256, HmacSha384, HmacSha512,
    RsaSha256, RsaSha384, RsaSha512]

  /** `TestSettings.DuendeSupportedSecurityAlgorithms`: the algorithms the
      embedded issuer has signing keys for. */
  const DuendeSupportedSecurityAlgorithms: seq<string> := [
    EcdsaSha256, EcdsaSha384, EcdsaSha512,
    RsaSsaPssSha256, RsaSsaPssSha384, RsaSsaPssSha512,
    RsaSha256, RsaSha384, RsaSha512]

  const HmacAlgorithms: seq<string> := [HmacSha256, HmacSha384, HmacSha512]

  /** An algorithm name that equals "none" ignoring case: the unsigned sentinel. */
  predicate IsNoneAlgorithm(alg: string) {
    EqualsIgnoreCase(NoneAlgorithm, alg)
  }

  /** The issuer-supported algorithms are known, and the known algorithms the
      issuer cannot mint are exactly the HMAC family. */
  lemma SupportedAreKnownAndRestIsHmac()
    ensures forall a :: a in DuendeSupportedSecurityAlgorithms ==> a in KnownSecurityAlgorithms
    ensures forall a :: a in KnownSecurityAlgorithms && a !in DuendeSupportedSecurityAlgorithms <==> a in HmacAlgorithms
  {
  }

  /** No known algorithm is a spelling of "none", so the sentinel test and the
      vocabulary tests never disagree. */
  lemma KnownAreNotNone()
    ensures forall a :: a in KnownSecurityAlgorithms ==> !IsNoneAlgorithm(a)
  {
    forall a | a in KnownSecurityAlgorithms ensures !IsNoneAlgorithm(a) {
      assert ToUpperAscii(a[0]) != ToUpperAscii(NoneAlgorithm[0]);
    }
  }

  lemma KnownDistinct()
    ensures Seqs.NoDuplicates(KnownSecurityAlgorithms)
  {
  }

  /** Membership is case-sensitive: lower-case spellings of known names are unknown. */
  lemma MembershipIsCaseSensitive()
    ensures "rs256" !in KnownSecurityAlgorithms && EqualsIgnoreCase("rs256", RsaSha256)
  {
  }

  /** "none" and "nOnE" are both the unsigned sentinel. */
  lemma NoneSpellings()
    ensures IsNoneAlgorithm("none") && IsNoneAlgorithm("nOnE") && IsNoneAlgorithm("NONE")
    ensures !IsNoneAlgorithm("non") && !IsNoneAlgorithm("custom")
  {
  }
}
