/** `TestSettings`: the harness configuration, its untouched defaults, the
    override installed as the current settings, and the reset. The source's
    process-wide "current" slot is passed around explicitly. */
module Settings {
  import opened Text
  import Wrappers
  import opened Algorithms
  import Seqs

  /** `Duende.IdentityServer.Test.TestUser`, as far as the harness uses it. */
  datatype TestUser = TestUser(subjectId: string, username: string, password: string)

  /** The response assertions are represented by the status code they expect. */
  datatype TestSettings = TestSettings(
    targetUrl: string,
    authorizedStatus: int,
    unauthorizedStatus: int,
    defaultTestUser: TestUser,
    defaultAudience: string,
    apiAudience: string,
    allowedAudiences: seq<string>,
    disallowedAudiences: seq<string>,
    defaultIssuer: string,
    allowedIssuers: seq<string>,
    disallowedIssuers: seq<string>,
    defaultSignatureAlgorithm: string,
    allowedAlgorithms: seq<string>,
    disallowedAlgorithms: seq<string>,
    allAlgorithms: seq<string>,
    validTokenTypes: seq<string>,
    invalidTokenTypes: seq<string>)

  /** The names `AllAlgorithms` adds to the known set: an unknown name and two
      spellings of the unsigned sentinel. */
  const ExtraAlgorithms: seq<string> := ["custom", NoneAlgorithm, "nOnE"]

  /** The initial allowed and disallowed signature algorithms. */
  const DefaultAllowedAlgorithms: seq<string> :=
    [EcdsaSha256, EcdsaSha384, EcdsaSha512, RsaSsaPssSha256, RsaSsaPssSha384, RsaSsaPssSha512]
  const DefaultDisallowedAlgorithms: seq<string> :=
    ["custom", NoneAlgorithm, "nOnE", RsaSha256, RsaSha384, RsaSha512, HmacSha256, HmacSha384, HmacSha512]

  /** `DefaultTestSettings`: every property at its initializer. */
  function DefaultTestSettings(): TestSettings {
    TestSettings(
      targetUrl := "/weatherforecast",
      authorizedStatus := 200,
      unauthorizedStatus := 401,
      defaultTestUser := TestUser("1", "alice", "password"),
      defaultAudience := "api",
      apiAudience := "api",
      allowedAudiences := ["api"],
      disallowedAudiences := ["another-api"],
      defaultIssuer := "https://localhost:5901",
      allowedIssuers := ["https://localhost:5901"],
      disallowedIssuers := ["https://my-idp.org"],
      defaultSignatureAlgorithm := RsaSsaPssSha256,
      allowedAlgorithms := DefaultAllowedAlgorithms,
      disallowedAlgorithms := DefaultDisallowedAlgorithms,
      allAlgorithms := Seqs.Union(KnownSecurityAlgorithms, ExtraAlgorithms),
      validTokenTypes := ["at+jwt"],
      invalidTokenTypes := ["none", "jwt"])
  }

  /** The current settings the static constructor installs: the defaults with
      seven properties overridden. */
  function ConfiguredTestSettings(): TestSettings {
    var d := DefaultTestSettings();
    d.(
      targetUrl := "/todos",
      apiAudience := "todoos",
      defaultAudience := "https://localhost:5901/resources",
      allowedAudiences := ["https://localhost:5901/resources"],
      allowedAlgorithms := [RsaSha256],
      disallowedAlgorithms := Seqs.Except(d.allAlgorithms, [RsaSha256]),
      defaultSignatureAlgorithm := RsaSha256)
  }

  /** `ResetTestSettings`: the current settings become the untouched defaults. */
  function ResetTestSettings(current: TestSettings): (r: TestSettings)
    ensures r.defaultSignatureAlgorithm == "PS256" && r.defaultAudience == "api"
    ensures r.targetUrl == "/weatherforecast"
    ensures forall a :: a in r.allowedAlgorithms ==> a in DuendeSupportedSecurityAlgorithms
  {
    DefaultTestSettings()
  }

  /** The default `AllAlgorithms` is the known set followed by the three extra
      names, without duplicates. */
  lemma DefaultAllAlgorithms()
    ensures DefaultTestSettings().allAlgorithms == KnownSecurityAlgorithms + ExtraAlgorithms
    ensures Seqs.NoDuplicates(DefaultTestSettings().allAlgorithms)
  {
    var all := KnownSecurityAlgorithms + ExtraAlgorithms;
    assert Seqs.NoDuplicates(all) by {
      KnownDistinct();
      forall i, j | 0 <= i < j < |all| ensures all[i] != all[j] {
        if j >= |KnownSecurityAlgorithms| {
          assert all[j] in ExtraAlgorithms;
          if i < |KnownSecurityAlgorithms| {
            assert all[i] in KnownSecurityAlgorithms;
          }
        }
      }
    }
    Seqs.DistinctOfNoDuplicates(all);
  }

  /** In the configured settings, the allowed and disallowed algorithms are
      disjoint and together make up `AllAlgorithms`. */
  lemma ConfiguredAlgorithmsPartitionAll()
    ensures var c := ConfiguredTestSettings();
      && c.allowedAlgorithms == ["RS256"]
      && (forall a :: a in c.allowedAlgorithms ==> a !in c.disallowedAlgorithms)
      && (forall a :: a in c.allAlgorithms <==> a in c.allowedAlgorithms || a in c.disallowedAlgorithms)
  {
    DefaultAllAlgorithms();
  }

  /** The configured default algorithm, RS256, is issuer-supported, so a build
      with no algorithm set asks the issuer and never derives an HMAC key. */
  lemma ConfiguredDefaultIsIssuerSupported()
    ensures ConfiguredTestSettings().defaultSignatureAlgorithm in DuendeSupportedSecurityAlgorithms
    ensures ConfiguredTestSettings().defaultSignatureAlgorithm !in HmacAlgorithms
  {
  }

  /** The override leaves every other property at its default. */
  lemma ConfiguredKeepsOtherDefaults()
    ensures var c, d := ConfiguredTestSettings(), DefaultTestSettings();
      && c.defaultIssuer == d.defaultIssuer == "https://localhost:5901"
      && c.validTokenTypes == d.validTokenTypes == ["at+jwt"]
      && c.invalidTokenTypes == d.invalidTokenTypes
      && c.defaultTestUser == d.defaultTestUser
      && c.disallowedAudiences == d.disallowedAudiences
      && c.allowedIssuers == d.allowedIssuers && c.disallowedIssuers == d.disallowedIssuers
      && c.allAlgorithms == d.allAlgorithms
      && c.authorizedStatus == 200 && c.unauthorizedStatus == 401
  {
  }

  /** The default disallowed list holds two case-insensitively equal spellings
      of the sentinel, and every default allowed algorithm is issuer-supported. */
  lemma DefaultAlgorithmLists()
    ensures var d := DefaultTestSettings();
      && "none" in d.disallowedAlgorithms && "nOnE" in d.disallowedAlgorithms
      && EqualsIgnoreCase("none", "nOnE")
      && (forall a :: a in d.allowedAlgorithms ==> a in DuendeSupportedSecurityAlgorithms)
      && (forall a :: a in d.allowedAlgorithms ==> a !in d.disallowedAlgorithms)
  {
    assert DefaultDisallowedAlgorithms[1] == "none" && DefaultDisallowedAlgorithms[2] == "nOnE";
    NoneSpellings();
    DefaultListsDisjoint();
  }

  /** The allowed names all start with 'E' or 'P'; no disallowed one does. */
  lemma DefaultListsDisjoint()
    ensures forall a :: a in DefaultAllowedAlgorithms ==> a in DuendeSupportedSecurityAlgorithms
    ensures forall a :: a in DefaultAllowedAlgorithms ==> a !in DefaultDisallowedAlgorithms
  {
    assert forall a :: a in DefaultAllowedAlgorithms ==> a[0] in "EP";
    assert forall a :: a in DefaultDisallowedAlgorithms ==> a[0] in "cnRH";
  }

  /** The theory data of a test matrix: a dimension with no values still runs
      once, with a null placeholder that passes trivially. */
  function TheoryData(values: seq<string>): (cases: seq<Wrappers.Option<string>>)
    ensures |cases| >= 1
    ensures values == [] <==> cases == [Wrappers.None]
    ensures forall v :: v in values <==> Wrappers.Some(v) in cases
    ensures values != [] ==> |cases| == |values| && forall i :: 0 <= i < |values| ==> cases[i] == Wrappers.Some(values[i])
  {
    if values == [] then [Wrappers.None]
    else
      var cases := seq(|values|, i requires 0 <= i < |values| => Wrappers.Some(values[i]));
      assert forall v :: Wrappers.Some(v) in cases ==> v in values by {
        forall v | Wrappers.Some(v) in cases ensures v in values {
          var i :| 0 <= i < |cases| && cases[i] == Wrappers.Some(v);
          assert values[i] == v;
        }
      }
      assert forall v :: v in values ==> Wrappers.Some(v) in cases by {
        forall v | v in values ensures Wrappers.Some(v) in cases {
          var i :| 0 <= i < |values| && values[i] == v;
          assert cases[i] == Wrappers.Some(v);
        }
      }
      assert cases[0].Some?;
      cases
  }

  /** The values a list of theory cases runs with, the null placeholder dropped. */
  function CaseValues(cases: seq<Wrappers.Option<string>>): seq<string> {
    if cases == [] then []
    else (if cases[0].Some? then [cases[0].value] else []) + CaseValues(cases[1..])
  }

  /** Every value becomes one case, in order and duplicates included: the
      values read back from the cases are exactly the given values. */
  lemma TheoryDataRoundTrip(values: seq<string>)
    ensures CaseValues(TheoryData(values)) == values
  {
    if values != [] {
      CaseValuesOfSome(TheoryData(values), values);
    }
  }

  lemma {:induction false} CaseValuesOfSome(cases: seq<Wrappers.Option<string>>, values: seq<string>)
    requires |cases| == |values| && forall i :: 0 <= i < |values| ==> cases[i] == Wrappers.Some(values[i])
    ensures CaseValues(cases) == values
  {
    if values != [] {
      CaseValuesOfSome(cases[1..], values[1..]);
      assert values == [values[0]] + values[1..];
    }
  }
}
