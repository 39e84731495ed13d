# JWT Guard and the Todo API, modelled in Dafny

This project models two parts of the Todoo repository:

- **JWT Guard**, the test harness in `Todoo.Api.JwtTests` that builds JSON Web Tokens to probe the API's token validation. It covers:
  - the `JwtBuilder` with its fluent setters, header and payload;
  - the credential-resolution procedure, with its default, `none`, issuer-supported, HMAC and unknown-name branches;
  - the rule that decides between the unsigned form (section 6 of RFC 7519: the compact serialization of section 7.1 of RFC 7515 with an empty signature segment) and the token handler's signed token;
  - the algorithm vocabularies of `TestSettings`;
  - the algorithm-to-key mapping of `SecurityKeyBuilder`;
  - the external-key cache and the `/external-jwks` and `/external-cert` endpoints of the test identity provider;
  - the field-filtered JWK projection `JsonWebKeyExtensions.ToDictionary` (section 4 of RFC 7517);
  - the four header-injection attacks of `ExternalSignatureTests`: `jwk`, `jku`, `x5c` and `x5u`, each with `kid` (sections 4.1.2 to 4.1.6 of RFC 7515).
- **The Todo API business rules** in `Todoo.Api`:
  - the in-memory store;
  - the five `/todos` handlers with their ownership scoping, frozen completed items and completion times;
  - user-id extraction from claims;
  - the FluentValidation rules of the two request types;
  - the short-circuiting validation endpoint filter.

## How the model is built

Everything is an immutable value, and every operation is a pure function of its inputs. Where the code mutates state, the function returns the new state next to its result:
- the builder after `BuildAsync`;
- the key cache after a lookup, also when signing then throws;
- the item list after a handler.

Exceptions become `Result` failures and nullable references become `Option`.

Key generation, signing, JSON serialization with base64url, PEM export, UTF-8 encoding, `JsonWebKeyConverter` and `JsonWebTokenHandler.CreateToken` are library calls. They are modelled as the fields of a `Library` record of uninterpreted functions (module `Tokens`). Lemmas that need a library property state it as a requires, for example that base64url output has no `.`.

Four library exceptions the builder, the issuer and the attacks can hit are modelled as failures:
- `CreateToken` returns a `Result`, so the signed path fails whenever the token handler throws.
- `CryptoProviderFactory.CreateForSigning` throws `NotSupportedException` unless `IsSupportedAlgorithm` holds for the algorithm and key. `IsSupportedAlgorithm` is a library field.
- The `JwtPayload` constructor (`Tokens.NewPayload`) throws `ArgumentException` when the not-before time is not before the expiry. It leaves out an empty issuer or audience.
- The issuer's key-material service throws `InvalidOperationException` when its keyset has no key for the requested algorithm, such as a default of `HS256` (`Issuer.GetSigningCredentials`).

Other inputs become parameters:
- The clock becomes `now`, an integer count of seconds.
- Each random key the generator yields becomes a `FreshKey`.
- The random pick among the candidate algorithms becomes `pick`.
- The two GUIDs of the default HMAC secret become `guids`.
- A new item id becomes `newId`.

The Todo store is a sequence in insertion order. A handler looks an item up and then mutates or removes that very object. The model identifies the object by its position, which is the first item matching both the id and the user. `FirstEqualIsFirstMatch` shows that the store's remove-first-equal deletes exactly that entry. `TodoService.UpdateTodoItem` is the identity, as in the source: the handler has already changed the item in place.

In three places the code departs from what a document or the builder's own setters lead one to expect. The model follows the code:
- Section 4.1.6 of RFC 7515 defines `x5c` as a chain of base64 DER certificates. The code puts the PEM text of the public key there (`src/Todoo.Api.JwtTests/Tests/ExternalSignatureTests.cs:148-150`).
- The `<remarks>` of `BuildAsync` (`src/Todoo.Api.JwtTests/Helpers/JwtBuilder.cs:222`) say an unknown algorithm leaves the signature empty. The name `""` is neither `none` nor known, so resolution yields no credential. But the unsigned rule skips empty names, so the build takes the token handler's signed path without a credential. `EmptyNameTakesSignedPathWithoutCredential` states this.
- `SigningCredentials ??= …` in `BuildAsync` stores the derived HMAC credential without clearing the algorithm name. After an HMAC build the builder therefore holds both, a pair the setters never leave together. `HmacDerivesSymmetricKey` states this.

## Model

| member | source | states |
|---|---|---|
| Claims.FindFirstValue | src/Todoo.Api/Authorization/ClaimsPrincipalExtensions.cs:10 | no value exactly when no claim type equals the requested type ignoring case; otherwise the value of the first claim that matches |
| Claims.GetUserId | src/Todoo.Api/Authorization/ClaimsPrincipalExtensions.cs:8-11 | "" when no claim has type "sub" in any casing, otherwise the value of the first such claim |
| Claims.GetUserIdIgnoresOtherClaims | src/Todoo.Api/Authorization/ClaimsPrincipalExtensions.cs:10 | inserting claims whose type is not "sub" in any casing, anywhere, leaves the user id unchanged |
| Claims.UpperCaseSubjectCounts | src/Todoo.Api/Authorization/ClaimsPrincipalExtensions.cs:10 | a "SUB" claim ahead of a "sub" claim supplies the user id |
| Algorithms.SupportedAreKnownAndRestIsHmac | src/Todoo.Api.JwtTests/TestSettings.cs:33-63 | the issuer-supported names are known, and known minus supported is exactly HS256, HS384, HS512 |
| Algorithms.KnownAreNotNone | src/Todoo.Api.JwtTests/TestSettings.cs:33-47 | no known algorithm equals "none" in any casing |
| Algorithms.KnownDistinct | src/Todoo.Api.JwtTests/TestSettings.cs:33-47 | the twelve known names are distinct |
| Algorithms.MembershipIsCaseSensitive | src/Todoo.Api.JwtTests/Helpers/JwtBuilder.cs:229 | "rs256" is not a known name although it equals RS256 ignoring case |
| Algorithms.NoneSpellings | src/Todoo.Api.JwtTests/Helpers/JwtBuilder.cs:228 | "none", "nOnE" and "NONE" are the sentinel; "non" and "custom" are not |
| Settings.ResetTestSettings | src/Todoo.Api.JwtTests/TestSettings.cs:85 | the reset settings have default algorithm PS256, audience "api", target "/weatherforecast", and only issuer-supported allowed algorithms |
| Settings.DefaultAllAlgorithms | src/Todoo.Api.JwtTests/TestSettings.cs:187-193 | the default AllAlgorithms is the known list followed by "custom", "none", "nOnE", with no duplicates |
| Settings.ConfiguredAlgorithmsPartitionAll | src/Todoo.Api.JwtTests/TestSettings.cs:18-27 | in the current settings the allowed list is ["RS256"]; allowed and disallowed are disjoint and together cover AllAlgorithms |
| Settings.ConfiguredDefaultIsIssuerSupported | src/Todoo.Api.JwtTests/TestSettings.cs:26 | the current default algorithm is issuer-supported and not HMAC |
| Settings.ConfiguredKeepsOtherDefaults | src/Todoo.Api.JwtTests/TestSettings.cs:15-28 | the override keeps issuer, token types, user, issuer lists, AllAlgorithms and the status assertions at their defaults |
| Settings.DefaultListsDisjoint | src/Todoo.Api.JwtTests/TestSettings.cs:161-185 | every default allowed name is issuer-supported and none is in the default disallowed list |
| Settings.DefaultAlgorithmLists | src/Todoo.Api.JwtTests/TestSettings.cs:161-185 | the default disallowed list holds "none" and "nOnE", which are equal ignoring case; every default allowed name is issuer-supported and not disallowed |
| Settings.TheoryData | src/Todoo.Api.JwtTests/Tests/AudienceTests.cs:67-82 | an empty list yields the single null case; otherwise one case per value, in order, duplicates included |
| Settings.TheoryDataRoundTrip | src/Todoo.Api.JwtTests/Tests/AudienceTests.cs:67-82 | reading the values back from a non-placeholder case list gives exactly the given values |
| SecurityKeyBuilder.CreateSecurityKey | src/Todoo.Api.JwtTests/Helpers/SecurityKeyBuilder.cs:15-31 | an RSA key exactly when the name does not start with "ES"; ES256, ES384, ES512 map to P-256, P-384, P-521; other "ES" names fall back to P-256 |
| SecurityKeyBuilder.GetCertificatePublicKeyPem | src/Todoo.Api.JwtTests/Helpers/SecurityKeyBuilder.cs:39-54 | succeeds exactly for RSA and EC keys, giving the RSA public key PEM or the SubjectPublicKeyInfo PEM; any other key fails with not-implemented |
| SecurityKeyBuilder.CreatedKeysHavePem | src/Todoo.Api.JwtTests/Helpers/SecurityKeyBuilder.cs:15-54 | every generated key can be exported as PEM |
| SecurityKeyBuilder.NonEcdsaNamesYieldRsa | src/Todoo.Api.JwtTests/Helpers/SecurityKeyBuilder.cs:17-20 | the PS, RS and HS names, "custom" and "none" all yield RSA keys |
| Json.Add | src/Todoo.Api.JwtTests/Helpers/JsonWebKeyExtensions.cs:129 | adding a name already present fails with an argument error, as `Dictionary.Add` throws `ArgumentException`; otherwise the entry is appended |
| Json.AddAll | src/Todoo.Api.JwtTests/Helpers/JsonWebKeyExtensions.cs:125-131 | adding entries one by one succeeds exactly when the combined names are distinct, and then appends them verbatim |
| JsonWebKeys.Emit | src/Todoo.Api.JwtTests/Helpers/JsonWebKeyExtensions.cs:15-123 | an entry is emitted exactly when some present member has that name and that value |
| JsonWebKeys.EmitValid | src/Todoo.Api.JwtTests/Helpers/JsonWebKeyExtensions.cs:15-123 | members with distinct names emit a dictionary with no repeated key, so the standard members never collide with each other |
| JsonWebKeys.ToDictionary | src/Todoo.Api.JwtTests/Helpers/JsonWebKeyExtensions.cs:11-134 | succeeds exactly when no additional-data name repeats an emitted name; the result is the present standard members followed by the additional data verbatim |
| JsonWebKeys.MemberEmittedIffPresent | src/Todoo.Api.JwtTests/Helpers/JsonWebKeyExtensions.cs:15-123 | a member's name appears in the projection exactly when its string is non-empty or its list is non-empty, including "x5t#S256" |
| JsonWebKeys.CollisionFails | src/Todoo.Api.JwtTests/Helpers/JsonWebKeyExtensions.cs:129 | an additional-data entry named like an emitted member makes the projection fail |
| JsonWebKeys.EmptyProjectsToEmpty | src/Todoo.Api.JwtTests/Helpers/JsonWebKeyExtensions.cs:11-134 | a key with every member empty projects to the empty dictionary |
| Tokens.Compact | src/Todoo.Api.JwtTests/Helpers/JwtBuilder.cs:232 | the three segments are separated by '.' at the expected positions |
| Tokens.CompactSegments | src/Todoo.Api.JwtTests/Helpers/JwtBuilder.cs:232 | a token of three dot-free segments splits back into exactly those segments |
| Tokens.UnsignedSegments | src/Todoo.Api.JwtTests/Helpers/JwtBuilder.cs:232 | the unsigned token reads back as encoded header, encoded payload and an empty signature |
| Issuer.GetExternalSecurityKeyData | src/Todoo.Api.JwtTests/Helpers/TargetApiWebApplicationFactory.cs:182-194 | a hit returns the stored pair and leaves the cache alone; a miss creates one key, stores (its id, it) under the algorithm and returns it; the cache only grows and stays valid |
| Issuer.GetExternalSecurityKeyDataIdempotent | src/Todoo.Api.JwtTests/Helpers/TargetApiWebApplicationFactory.cs:184-193 | a second call for the same algorithm returns the same pair and leaves the cache unchanged, whatever the generator yields |
| Issuer.GetSigningCredentials | src/Todoo.Api.JwtTests/Helpers/TargetApiWebApplicationFactory.cs:51-65 | fails with "The test identity provider is not running!" when the host is absent, and with the key-material error when the keyset has no key for the algorithm; otherwise the keyset's credential for it |
| Issuer.RunningIssuerServesExactlyAsymmetric | src/Todoo.Api.JwtTests/Helpers/TargetApiWebApplicationFactory.cs:51-65 | a running issuer supplies a credential exactly for the known non-HMAC names; "HS256" fails |
| Issuer.IssuerSigningAlgorithms | src/Todoo.Api.JwtTests/Helpers/TargetApiWebApplicationFactory.cs:105-107 | the issuer's algorithms are exactly the known, non-HMAC ones |
| Issuer.PublishedJwk | src/Todoo.Api.JwtTests/Helpers/TargetApiWebApplicationFactory.cs:146-148 | the published key carries the requested alg and use "sig" |
| Issuer.ExternalJwks | src/Todoo.Api.JwtTests/Helpers/TargetApiWebApplicationFactory.cs:134-154 | 400 "400 - Bad Request." with the cache untouched when alg is missing or empty; otherwise 200 with a one-key set for the cached key |
| Issuer.ExternalCert | src/Todoo.Api.JwtTests/Helpers/TargetApiWebApplicationFactory.cs:156-171 | 400 when alg is missing or empty; otherwise 200 with the PEM of the cached key |
| Issuer.EndpointsShareKeys | src/Todoo.Api.JwtTests/Helpers/TargetApiWebApplicationFactory.cs:134-171 | after one endpoint served an algorithm, both serve that same cached key and neither creates another |
| JwtBuilders.NewJwtBuilder | src/Todoo.Api.JwtTests/Helpers/JwtBuilder.cs:33-83 | a new builder has typ = first valid token type or "", the default audience and issuer, iat = now, nbf = now - 10, exp = now + 300, the default user's claims, the 72-character text of two GUIDs as HMAC secret, and neither credential nor name; its payload always builds |
| JwtBuilders.UserClaims | src/Todoo.Api.JwtTests/Helpers/JwtBuilder.cs:189-193 | the sub claim carries the subject id; name and preferred_username carry the user name |
| JwtBuilders.BuildJwtHeader | src/Todoo.Api.JwtTests/Helpers/JwtBuilder.cs:201-208 | the header holds exactly alg and typ; alg is null exactly when no name is set |
| JwtBuilders.Arguments | src/Todoo.Api.JwtTests/Helpers/JwtBuilder.cs:215 | the payload constructor receives the builder's issuer, audience and times, and the subject's claims or none |
| Tokens.NewPayload | src/Todoo.Api.JwtTests/Helpers/JwtBuilder.cs:215 | the JwtPayload constructor fails exactly when nbf is not before exp; otherwise it keeps the claims and times and drops an empty iss or aud |
| JwtBuilders.BuildJwtPayload | src/Todoo.Api.JwtTests/Helpers/JwtBuilder.cs:213-216 | fails with an argument error exactly when nbf is not before exp; otherwise iss and aud are present exactly when non-empty, nbf, exp and iat are the builder's, and the claims are the subject's or none |
| JwtBuilders.WithTokenType | src/Todoo.Api.JwtTests/Helpers/JwtBuilder.cs:88-92 | only typ in the header changes; payload and signing fields are unchanged |
| JwtBuilders.WithAudience | src/Todoo.Api.JwtTests/Helpers/JwtBuilder.cs:97-101 | only aud in the payload changes |
| JwtBuilders.WithIssuer | src/Todoo.Api.JwtTests/Helpers/JwtBuilder.cs:106-110 | only iss in the payload changes |
| JwtBuilders.WithSigningCredentials | src/Todoo.Api.JwtTests/Helpers/JwtBuilder.cs:115-121 | sets the credential, clears the name (header alg becomes null), keeps the secret and payload |
| JwtBuilders.WithSignatureAlgorithm | src/Todoo.Api.JwtTests/Helpers/JwtBuilder.cs:126-132 | sets the name, clears the credential, keeps the secret and payload |
| JwtBuilders.WithSignatureAlgorithmAndSecret | src/Todoo.Api.JwtTests/Helpers/JwtBuilder.cs:137-144 | sets the name and the HMAC secret and clears the credential |
| JwtBuilders.WithIssuedAt | src/Todoo.Api.JwtTests/Helpers/JwtBuilder.cs:149-153 | only iat in the payload changes |
| JwtBuilders.WithNotBefore | src/Todoo.Api.JwtTests/Helpers/JwtBuilder.cs:158-162 | only nbf in the payload changes |
| JwtBuilders.WithExpires | src/Todoo.Api.JwtTests/Helpers/JwtBuilder.cs:167-171 | only exp in the payload changes |
| JwtBuilders.WithSubject | src/Todoo.Api.JwtTests/Helpers/JwtBuilder.cs:177-181 | only the payload claims change, to the given ones |
| JwtBuilders.WithSubjectUser | src/Todoo.Api.JwtTests/Helpers/JwtBuilder.cs:187-196 | the payload claims become exactly sub, name, preferred_username of the user; nothing else changes |
| JwtBuilders.Plan | src/Todoo.Api.JwtTests/Helpers/JwtBuilder.cs:250-282 | the provider is asked for the default name when none is set, and for the name itself exactly when it is issuer-supported; "none" in any casing or an unknown name gives no credential; an HMAC name derives a key, or fails exactly when the secret is null or empty |
| JwtBuilders.GetSigningCredentials | src/Todoo.Api.JwtTests/Helpers/JwtBuilder.cs:250-282 | executes the plan: the provider's result or error, no credential, "The HMAC secret is not set.", or a symmetric key over the UTF-8 bytes of the secret with the same name |
| JwtBuilders.BuildAsync | src/Todoo.Api.JwtTests/Helpers/JwtBuilder.cs:223-248 | only the credential field of the builder can change, and a set credential is kept; "none" or an unknown non-empty name gives the unsigned form, or the payload constructor's error, with the builder as it was; otherwise the resolution error with the builder as it was, or the token handler's token or error with the resolved credential stored |
| JwtBuilders.CredentialKeptWhenHandlerThrows | src/Todoo.Api.JwtTests/Helpers/JwtBuilder.cs:225-247 | when the token handler throws, the provider's credential is already stored on the builder |
| JwtBuilders.ResolveCredentials | src/Todoo.Api.JwtTests/Helpers/JwtBuilder.cs:225 | a set credential is kept, otherwise the resolution runs; on the unsigned path it never fails and leaves the credential as it was |
| JwtBuilders.ExplicitCredentialsIgnoreProvider | src/Todoo.Api.JwtTests/Helpers/JwtBuilder.cs:225 | with a credential set, the result does not depend on the provider, the builder is left unchanged, and a signed name goes to the token handler with that credential |
| JwtBuilders.DefaultAlgorithmAsksProvider | src/Todoo.Api.JwtTests/Helpers/JwtBuilder.cs:252-255 | with neither set, the token handler signs with the provider's credential for the default algorithm, and that credential is kept |
| JwtBuilders.ProviderFailurePropagates | src/Todoo.Api.JwtTests/Helpers/JwtBuilder.cs:250-266 | a provider error on the default or supported path is the build's error, and the builder is unchanged |
| JwtBuilders.NoneIsUnsigned | src/Todoo.Api.JwtTests/Helpers/JwtBuilder.cs:225-260 | "none" in any casing builds the unsigned form, or fails as the payload constructor does, and the header names the algorithm as written |
| JwtBuilders.UnknownIsUnsigned | src/Todoo.Api.JwtTests/Helpers/JwtBuilder.cs:225-281 | a non-empty unknown name builds the unsigned form with no credential, or fails as the payload constructor does |
| JwtBuilders.LowerCaseRs256IsUnsigned | src/Todoo.Api.JwtTests/Helpers/JwtBuilder.cs:229 | "rs256" builds the unsigned form |
| JwtBuilders.UnsignedRejectsLateNotBefore | src/Todoo.Api.JwtTests/Helpers/JwtBuilder.cs:213-232 | on the unsigned path, nbf not before exp makes the build fail with the payload constructor's argument error |
| JwtBuilders.HmacDerivesSymmetricKey | src/Todoo.Api.JwtTests/Helpers/JwtBuilder.cs:268-278 | an HMAC name with a secret makes the token handler sign with a symmetric key over the secret's UTF-8 bytes, and the builder is left with both a credential and a name |
| JwtBuilders.HmacWithoutSecretFails | src/Todoo.Api.JwtTests/Helpers/JwtBuilder.cs:270-273 | an HMAC name with a null or empty secret fails with "The HMAC secret is not set." |
| JwtBuilders.EmptyNameTakesSignedPathWithoutCredential | src/Todoo.Api.JwtTests/Helpers/JwtBuilder.cs:227-247 | the name "" reaches the token handler with no credential |
| JwtBuilders.ConfiguredBuildAsksForRs256 | src/Todoo.Api.JwtTests/Helpers/JwtBuilder.cs:252-255 | under the current settings a fresh builder asks the provider for RS256 and the token handler signs with its credential, typ "at+jwt" and the API's audience |
| JwtBuilders.ExplicitClaimsRoundTrip | src/Todoo.Api.JwtTests/Helpers/JwtBuilder.cs:213-232 | on the unsigned path, with nbf before exp, a token built with explicit aud, iss, nbf, exp, iat and claims decodes back to those values, an empty iss or aud absent |
| ExternalSignature.ChooseAlgorithm | src/Todoo.Api.JwtTests/Tests/ExternalSignatureTests.cs:77-84 | the choice is an allowed name starting with ES, PS or RS; it fails with the "No supported signature algorithm" error exactly when there is none |
| ExternalSignature.EveryCandidateCanBeChosen | src/Todoo.Api.JwtTests/Tests/ExternalSignatureTests.cs:77-79 | every allowed certificate-capable name is picked for some random value |
| ExternalSignature.InjectJsonWebKey | src/Todoo.Api.JwtTests/Tests/ExternalSignatureTests.cs:122-133 | jwk is the projection of a fresh key's JWK with alg and use "sig", and kid is that JWK's key id; the fresh key signs |
| ExternalSignature.UseExternalJsonWebKey | src/Todoo.Api.JwtTests/Tests/ExternalSignatureTests.cs:135-143 | jku is the issuer's "/external-jwks?alg=" URL for the algorithm, kid and signing key are the cached external pair |
| ExternalSignature.InjectCertificate | src/Todoo.Api.JwtTests/Tests/ExternalSignatureTests.cs:145-154 | x5c is a one-element array with the PEM of a fresh key, and kid is that key's id |
| ExternalSignature.UseExternalCertificate | src/Todoo.Api.JwtTests/Tests/ExternalSignatureTests.cs:156-164 | x5u is the issuer's "/external-cert?alg=" URL for the algorithm, kid and signing key are the cached external pair |
| ExternalSignature.SignAndReturnJwt | src/Todoo.Api.JwtTests/Tests/ExternalSignatureTests.cs:166-181 | fails with NotSupported exactly when the crypto provider factory does not support the algorithm for the key; otherwise the signing input is encoded header "." encoded payload, and the signature is base64url of the signature over its ASCII bytes |
| ExternalSignature.GetJwt | src/Todoo.Api.JwtTests/Tests/ExternalSignatureTests.cs:74-120 | fails with the selection error, cache untouched, when no allowed algorithm qualifies; otherwise it is the attack attempt for the chosen algorithm, and every attack names an allowed, certificate-capable algorithm |
| ExternalSignature.AttackWith | src/Todoo.Api.JwtTests/Tests/ExternalSignatureTests.cs:86-120 | the cache afterwards is the variant's lookup result on every path, success or failure; the attack succeeds exactly when the jwk projection (jwk variant only) succeeds and the factory supports the algorithm for the variant's key; the base header holds exactly alg = the algorithm and the builder's typ; the payload is the fresh builder's; the token is forged header, payload and signature |
| ExternalSignature.ForgedHeaderShape | src/Todoo.Api.JwtTests/Tests/ExternalSignatureTests.cs:86-164 | for any algorithm, the forged header keeps alg and typ and has exactly alg, typ, kid and the variant's parameter |
| ExternalSignature.ForgeShape | src/Todoo.Api.JwtTests/Tests/ExternalSignatureTests.cs:122-164 | each variant's rewrite of an alg/typ header adds exactly kid and its own parameter and keeps alg and typ |
| ExternalSignature.Forge | src/Todoo.Api.JwtTests/Tests/ExternalSignatureTests.cs:96-115 | only the jwk variant can fail, exactly when its projection fails; the key is fresh for jwk and x5c and the cached one for jku and x5u |
| ExternalSignature.AttackTokenSegments | src/Todoo.Api.JwtTests/Tests/ExternalSignatureTests.cs:89-176 | the token splits into the encoded forged header, the builder's encoded payload, and the signature over the first two with the chosen algorithm |
| ExternalSignature.ExternalVariantsMatchServedKey | src/Todoo.Api.JwtTests/Tests/ExternalSignatureTests.cs:135-164 | for jku and x5u with a certificate-capable algorithm, the attack succeeds exactly when the factory supports the algorithm for the cached key; whether or not it succeeds, both endpoints then serve the cached key; on success the token is signed with and names that key |
| ExternalSignature.CacheKeptWhenSigningFails | src/Todoo.Api.JwtTests/Tests/ExternalSignatureTests.cs:135-172 | for jku and x5u, when the algorithm was not cached and the factory cannot sign with the new key, the attack fails with NotSupported and the cache holds the new (key id, key) entry |
| ExternalSignature.InjectedVariantsUseFreshKey | src/Todoo.Api.JwtTests/Tests/ExternalSignatureTests.cs:122-154 | for jwk and x5c the key is fresh, the cache is untouched, and kid names that key |
| ExternalSignature.AttackKeyKind | src/Todoo.Api.JwtTests/Tests/ExternalSignatureTests.cs:122-164 | the signing key is RSA exactly when the chosen name does not start with "ES" |
| ExternalSignature.ConfiguredSelectionIsRs256 | src/Todoo.Api.JwtTests/Tests/ExternalSignatureTests.cs:77-79 | under the current settings every pick is RS256 |
| ExternalSignature.SingleCandidateIsAlwaysChosen | src/Todoo.Api.JwtTests/Tests/ExternalSignatureTests.cs:77-79 | a single allowed certificate-capable name is chosen for every pick |
| TodoModels.TitleRules | src/Todoo.Api/Models/CreateTodoItemRequest.cs:11 | no failure exactly when the title is non-null, has a non-white-space character and is at most 100 UTF-16 units; a null title fails NotEmpty only |
| TodoModels.DescriptionRules | src/Todoo.Api/Models/CreateTodoItemRequest.cs:12 | no failure exactly when the description is null or at most 4000 UTF-16 units |
| TodoModels.ValidateCreate | src/Todoo.Api/Models/CreateTodoItemRequest.cs:9-13 | a create request is valid exactly when its title and description pass their rules |
| TodoModels.ValidateUpdate | src/Todoo.Api/Models/UpdateTodoItemRequest.cs:9-13 | an update request is valid exactly when its title and description pass their rules |
| TodoModels.UpdateRulesAreCreateRules | src/Todoo.Api/Models/UpdateTodoItemRequest.cs:5-13 | update validation equals create validation and does not depend on IsCompleted |
| TodoModels.BlankTitlesFail | src/Todoo.Api/Models/CreateTodoItemRequest.cs:11 | an empty or white-space-only title is invalid |
| TodoModels.BmpTitleLength | src/Todoo.Api/Models/CreateTodoItemRequest.cs:11 | for BMP text the title is valid exactly when it has at most 100 characters and a non-blank one |
| TodoModels.AstralCharactersCountTwice | src/Todoo.Api/Models/CreateTodoItemRequest.cs:11 | 51 characters outside the BMP exceed the 100-unit limit |
| TodoService.GetTodosForUser | src/Todoo.Api/Services/InMemoryTodoService.cs:9-13 | exactly the user's items, each as often as it is stored |
| TodoService.FindTodoItem | src/Todoo.Api/Services/InMemoryTodoService.cs:17 | the position of the first item with that id and user, or none when there is no such item |
| TodoService.GetTodoItemForUser | src/Todoo.Api/Services/InMemoryTodoService.cs:15-18 | null exactly when the user has no item with that id; otherwise the first such item, never another user's |
| TodoService.AddTodoItem | src/Todoo.Api/Services/InMemoryTodoService.cs:20-24 | the item is appended; earlier items are unchanged; duplicates are kept |
| TodoService.UpdateTodoItem | src/Todoo.Api/Services/InMemoryTodoService.cs:26-29 | the store is left as the handler already changed it in place |
| TodoService.RemoveTodoItem | src/Todoo.Api/Services/InMemoryTodoService.cs:31-35 | an absent item leaves the list unchanged; otherwise its first occurrence is deleted |
| TodoService.AddExtendsOwnerList | src/Todoo.Api/Services/InMemoryTodoService.cs:9-24 | after an add, the owner's list gains the item at its end and other lists are unchanged |
| TodoService.RemoveUndoesAdd | src/Todoo.Api/Services/InMemoryTodoService.cs:20-35 | removing an item just added restores the store |
| TodoEndpoints.GetTodosForCurrentUser | src/Todoo.Api/Endpoints/ApiEndpointsExtensions.cs:30-34 | 200 with the store's list for the caller: exactly the caller's items, each as often as in the store, in store order |
| TodoEndpoints.GetTodoItem | src/Todoo.Api/Endpoints/ApiEndpointsExtensions.cs:36-45 | 404 exactly when the caller has no item with the id; otherwise 200 with the caller's first item with that id |
| TodoEndpoints.AddTodoItem | src/Todoo.Api/Endpoints/ApiEndpointsExtensions.cs:47-60 | one item is appended with the request's text, the caller's id, not completed, no completion time; 201 points to it |
| TodoEndpoints.UpdateTodoItem | src/Todoo.Api/Endpoints/ApiEndpointsExtensions.cs:62-82 | 404 for an unowned id; 400 "Cannot update a completed todo item." with no change for a completed item; otherwise only that item takes the request's values, with a completion time exactly when completed, and 204 |
| TodoEndpoints.RemoveTodoItem | src/Todoo.Api/Endpoints/ApiEndpointsExtensions.cs:84-94 | 404 for an unowned id; otherwise the found item is deleted, completed or not, and 204 |
| TodoEndpoints.FirstEqualIsFirstMatch | src/Todoo.Api/Endpoints/ApiEndpointsExtensions.cs:86-92 | removing the looked-up item deletes the entry the lookup found |
| TodoEndpoints.HandlersKeepCompletionConsistent | src/Todoo.Api/Endpoints/ApiEndpointsExtensions.cs:47-94 | add, update and remove keep every completion time set exactly when its item is completed |
| TodoEndpoints.CompletedItemsAreFrozen | src/Todoo.Api/Endpoints/ApiEndpointsExtensions.cs:70-73 | every update of a completed item answers 400 and changes nothing |
| TodoEndpoints.AddLeavesOtherUsersAlone | src/Todoo.Api/Endpoints/ApiEndpointsExtensions.cs:47-60 | an add leaves every other user's list unchanged |
| TodoEndpoints.UpdateLeavesOtherUsersAlone | src/Todoo.Api/Endpoints/ApiEndpointsExtensions.cs:62-82 | an update leaves every other user's list unchanged |
| TodoEndpoints.RemoveLeavesOtherUsersAlone | src/Todoo.Api/Endpoints/ApiEndpointsExtensions.cs:84-94 | a removal leaves every other user's list unchanged |
| TodoEndpoints.AddThenGet | src/Todoo.Api/Endpoints/ApiEndpointsExtensions.cs:47-60 | a created item is fetched back by its id when the caller had no item with that id |
| TodoEndpoints.UpdateThenGet | src/Todoo.Api/Endpoints/ApiEndpointsExtensions.cs:62-82 | after a successful update, fetching the id returns the updated item |
| TodoEndpoints.RemoveThenGet | src/Todoo.Api/Endpoints/ApiEndpointsExtensions.cs:84-94 | with unique ids, a removed item is no longer found |
| ValidationFilter.GetValidators | src/Todoo.Api/Validation/ValidationFilter.cs:37-55 | one descriptor per parameter with [Validate] and a registered validator, in parameter order, carrying its index, type and validator |
| ValidationFilter.ValidationFilterFactory | src/Todoo.Api/Validation/ValidationFilter.cs:8-13 | the handler runs unfiltered exactly when no parameter is validated |
| ValidationFilter.Validate | src/Todoo.Api/Validation/ValidationFilter.cs:15-35 | null arguments are skipped; the first rejecting descriptor's failures are returned and the handler is not called; otherwise the handler is called once with the same arguments |
| ValidationFilter.Invoke | src/Todoo.Api/Validation/ValidationFilter.cs:12 | without descriptors the handler runs once; with them, a problem exactly when some descriptor rejects |

## Left out

- Cryptography, JSON serialization, base64url, PEM export, UTF-8 and JWK conversion are uninterpreted library functions. So is the token handler's signed path (`JsonWebTokenHandler.CreateToken`, including what it does with a null credential). Nothing is proved about their outputs beyond what a lemma assumes in its requires.
- Which inputs the library rejects is not modelled, only that it may reject them. Examples are HMAC keys shorter than 256 bits in the token handler, and `ES256K` or `RSA-OAEP` in `IsSupportedAlgorithm`. So `JwtBuilders.HmacDerivesSymmetricKey` and the other signed-path lemmas say the build yields whatever the token handler returns, without saying when that is a token.
- `Claims.FindFirstValue` compares claim types ignoring case, as the base `ClaimsIdentity.FindFirst` does. The ordinal comparison of IdentityModel 8's `CaseSensitiveClaimsIdentity` is not modelled, because the repository does not fix which identity type the API's authentication creates. The case folding covers ASCII letters only.
- `JwtBuilders.BuildJwtPayload`: the payload keeps the subject's claims apart from the registered claims. Merging a subject claim named `iss`, `aud`, `nbf`, `exp` or `iat` into the registered one is not modelled.
- `JwtBuilders.BuildJwtPayload`: times are whole seconds. The constructor compares `DateTime` values at tick precision, so two times within one second are not told apart.
- Hosting is not modelled. This covers the identity-provider host setup, run, cancellation and dispose, `WebApplicationFactory`, `HttpClient`, the test fixtures, and the discovery-document request made before credentials are handed out (`TargetApiWebApplicationFactory.cs:59`). The issuer's keyset is a function from algorithm to credential, defined for the configured algorithms.
- The shared static key cache is modelled as a value passed in and returned. Concurrent access is not modelled.
- The test classes that only send a request and assert a status code are not modelled, apart from the empty-list theory-data fallback (`Settings.TheoryData`).
- `ExternalSignature.GetJwt`: the `default` branch that calls `BuildAsync` cannot be reached for the four enum values, and is left out.
- `Text.StartsWith` is ordinal, while the source's `StartsWith("ES")` is culture-sensitive. They agree on the ASCII algorithm names used here.
- `Algorithms.IsNoneAlgorithm` folds only ASCII letters. That is exact for the letters of "none", but not for every non-ASCII input of an ordinal ignore-case comparison.
- Characters are Unicode scalar values, so a string cannot hold a lone surrogate. `Text.Utf16Length` counts characters outside the BMP twice, as .NET's `Length` does.
- The `alg` query parameter is absent or one string. A repeated parameter, which .NET joins with commas, is not modelled.
- `TodoModels.ValidationFailure` keeps the property name and the FluentValidation error code, not the localized message text. `ValidationFilter.Validate` returns the failure list rather than the dictionary that groups messages by property name.
- `ValidationFilter.Validate` assumes each argument is of its validator's type, which ASP.NET's binding ensures. The exception FluentValidation throws for a mismatched instance is not modelled. Its requires asks for a descriptor index inside the argument list, which holds because the descriptors come from the same handler's parameters.
- Reflection in `GetValidators` is replaced by a list of parameter records and a map from type name to validator.
- Object identity of todo items is the item's position in the list (see above). Two distinct objects with equal fields would need a GUID collision.
- `Program.cs`, `Policies.cs`, the service interfaces, the `JsonWebKey` container and the `Todoo.App` front end are configuration, signatures or UI. They are not part of this model.
