/** JSON Web Keys (section 4 of RFC 7517) and their field-filtered projection
    into a dictionary (`JsonWebKeyExtensions.ToDictionary`), which is what the
    embedded-key attack puts into a token header's `jwk` parameter. */
module JsonWebKeys {
  import opened Wrappers
  import opened Text
  import opened Json
  import Seqs

  /** The members of `Microsoft.IdentityModel.Tokens.JsonWebKey` that are
      projected: string members are nullable, list members are never null. */
  datatype JsonWebKey = JsonWebKey(
    alg: Option<string>, crv: Option<string>, d: Option<string>,
    dp: Option<string>, dq: Option<string>, e: Option<string>, k: Option<string>,
    keyOps: seq<string>,
    kid: Option<string>, kty: Option<string>, n: Option<string>,
    oth: seq<string>,
    p: Option<string>, q: Option<string>, qi: Option<string>,
    use: Option<string>, x: Option<string>,
    x5c: seq<string>,
    x5t: Option<string>, x5tS256: Option<string>, x5u: Option<string>, y: Option<string>,
    additionalData: Dictionary)

  /** A JWK with every member unset. */
  const EmptyJwk: JsonWebKey := JsonWebKey(
    None, None, None, None, None, None, None, [], None, None, None, [],
    None, None, None, None, None, [], None, None, None, None, [])

  /** One standard member of a JWK under its JSON name. */
  datatype Member =
    | TextMember(name: string, text: Option<string>)
    | ListMember(name: string, items: seq<string>)
  {
    /** Whether `ToDictionary` emits the member: a string that is neither null
        nor empty, or a list with at least one element. */
    predicate Present() {
      match this
      case TextMember(_, t) => !IsNullOrEmpty(t)
      case ListMember(_, items) => |items| > 0
    }

    /** The member's value, as the dictionary holds it. */
    function Value(): Json {
      match this
      case TextMember(_, t) => JString(t.GetOr(""))
      case ListMember(_, items) => StringArray(items)
    }
  }

  /** The JSON names of the standard members, in the order they are emitted. */
  const MemberNames: seq<string> := [
    "alg", "crv", "d", "dp", "dq", "e", "k", "key_ops", "kid", "kty", "n",
    "oth", "p", "q", "qi", "use", "x", "x5c", "x5t", "x5t#S256", "x5u", "y"]

  /** The standard members of `jwk`, in emission order. */
  function Members(jwk: JsonWebKey): (ms: seq<Member>)
    ensures |ms| == |MemberNames|
    ensures forall i :: 0 <= i < |ms| ==> ms[i].name == MemberNames[i]
  {
    [TextMember("alg", jwk.alg), TextMember("crv", jwk.crv), TextMember("d", jwk.d),
     TextMember("dp", jwk.dp), TextMember("dq", jwk.dq), TextMember("e", jwk.e),
     TextMember("k", jwk.k), ListMember("key_ops", jwk.keyOps), TextMember("kid", jwk.kid),
     TextMember("kty", jwk.kty), TextMember("n", jwk.n), ListMember("oth", jwk.oth),
     TextMember("p", jwk.p), TextMember("q", jwk.q), TextMember("qi", jwk.qi),
     TextMember("use", jwk.use), TextMember("x", jwk.x), ListMember("x5c", jwk.x5c),
     TextMember("x5t", jwk.x5t), TextMember("x5t#S256", jwk.x5tS256),
     TextMember("x5u", jwk.x5u), TextMember("y", jwk.y)]
  }

  /** The names before "oth", and those from "oth" on. */
  const FrontNames: seq<string> := ["alg", "crv", "d", "dp", "dq", "e", "k", "key_ops", "kid", "kty", "n"]
  const BackNames: seq<string> := ["oth", "p", "q", "qi", "use", "x", "x5c", "x5t", "x5t#S256", "x5u", "y"]

  lemma FrontNamesDistinct()
    ensures Seqs.NoDuplicates(FrontNames)
    ensures forall x :: x in FrontNames ==> x[0] in "acdekn"
  {
  }

  lemma BackNamesDistinct()
    ensures Seqs.NoDuplicates(BackNames)
    ensures forall y :: y in BackNames ==> y[0] in "opquxy"
  {
  }

  lemma MemberNamesDistinct()
    ensures Seqs.NoDuplicates(MemberNames)
  {
    FrontNamesDistinct();
    BackNamesDistinct();
    Seqs.NoDuplicatesConcat(FrontNames, BackNames);
    assert MemberNames == FrontNames + BackNames;
  }

  /** The names of a list of members. */
  function NamesOf(ms: seq<Member>): (names: seq<string>)
    ensures |names| == |ms|
    ensures forall i :: 0 <= i < |ms| ==> names[i] == ms[i].name
  {
    seq(|ms|, i requires 0 <= i < |ms| => ms[i].name)
  }

  /** The present members, in order, as dictionary entries. */
  function Emit(ms: seq<Member>): (r: Dictionary)
    ensures forall entry :: entry in r <==>
      exists i :: 0 <= i < |ms| && ms[i].Present() && entry == (ms[i].name, ms[i].Value())
    decreases |ms|
  {
    if ms == [] then []
    else
      var rest := Emit(ms[1..]);
      assert forall i :: 0 < i < |ms| ==> ms[i] == ms[1..][i - 1];
      if ms[0].Present() then [(ms[0].name, ms[0].Value())] + rest else rest
  }

  /** Every emitted name is the name of one of the members. */
  lemma EmitNames(ms: seq<Member>)
    ensures forall name :: name in Names(Emit(ms)) ==> name in NamesOf(ms)
  {
    var r := Emit(ms);
    forall name | name in Names(r) ensures name in NamesOf(ms) {
      var k :| 0 <= k < |r| && Names(r)[k] == name;
      assert r[k] in r;
      var i :| 0 <= i < |ms| && ms[i].Present() && r[k] == (ms[i].name, ms[i].Value());
      assert NamesOf(ms)[i] == name;
    }
  }

  /** Members with distinct names emit a valid dictionary. */
  lemma {:induction false} EmitValid(ms: seq<Member>)
    requires Seqs.NoDuplicates(NamesOf(ms))
    ensures Valid(Emit(ms))
    decreases |ms|
  {
    if ms != [] {
      var tail := ms[1..];
      assert NamesOf(tail) == NamesOf(ms)[1..];
      EmitValid(tail);
      if ms[0].Present() {
        var rest := Emit(tail);
        EmitNames(tail);
        assert ms[0].name !in NamesOf(tail) by {
          forall j | 0 <= j < |tail| ensures NamesOf(tail)[j] != ms[0].name {
            assert NamesOf(ms)[0] != NamesOf(ms)[j + 1];
          }
        }
        assert Names(Emit(ms)) == [ms[0].name] + Names(rest);
        Seqs.NoDuplicatesConcat([ms[0].name], Names(rest));
      }
    }
  }

  /** The standard part of the projection. */
  function StandardEntries(jwk: JsonWebKey): (r: Dictionary)
    ensures Valid(r)
    ensures forall i, v :: 0 <= i < |MemberNames| ==>
      ((MemberNames[i], v) in r <==> Members(jwk)[i].Present() && v == Members(jwk)[i].Value())
    ensures forall name :: name in Names(r) ==> name in MemberNames
  {
    EmitMembers(jwk);
    Emit(Members(jwk))
  }

  lemma EmitMembers(jwk: JsonWebKey)
    ensures Valid(Emit(Members(jwk)))
    ensures forall i, v :: 0 <= i < |MemberNames| ==>
      ((MemberNames[i], v) in Emit(Members(jwk)) <==> Members(jwk)[i].Present() && v == Members(jwk)[i].Value())
    ensures forall name :: name in Names(Emit(Members(jwk))) ==> name in MemberNames
  {
    var ms := Members(jwk);
    MemberNamesDistinct();
    assert NamesOf(ms) == MemberNames;
    EmitValid(ms);
    EmitNames(ms);
    var r := Emit(ms);
    forall i, v | 0 <= i < |MemberNames|
      ensures (MemberNames[i], v) in r <==> ms[i].Present() && v == ms[i].Value()
    {
      if (MemberNames[i], v) in r {
        var j :| 0 <= j < |ms| && ms[j].Present() && (MemberNames[i], v) == (ms[j].name, ms[j].Value());
        assert NamesOf(ms)[i] == NamesOf(ms)[j];
      }
    }
  }

  /** `ToDictionary`: every present standard member under its JSON name, then
      every `AdditionalData` entry verbatim; `Add` fails on a repeated name. */
  function ToDictionary(jwk: JsonWebKey): (r: Result<Dictionary>)
    ensures r.Success? <==> Valid(StandardEntries(jwk) + jwk.additionalData)
    ensures r.Success? ==>
      var std := |StandardEntries(jwk)|;
      && std <= |r.value|
      && r.value[..std] == StandardEntries(jwk)
      && r.value[std..] == jwk.additionalData
    ensures r.Success? ==> forall name :: name in Names(r.value) ==>
      name in MemberNames || name in Names(jwk.additionalData)
  {
    var std := StandardEntries(jwk);
    var r := AddAll(std, jwk.additionalData);
    NamesConcat(std, jwk.additionalData);
    assert r.Success? ==> r.value[..|std|] == std;
    r
  }

  /** Each standard member is emitted, under its JWK name and with its value
      unchanged, exactly when it is non-empty. */
  lemma MemberEmittedIffPresent(jwk: JsonWebKey, i: nat, v: Json)
    requires i < |MemberNames|
    requires ToDictionary(jwk).Success?
    ensures (MemberNames[i], v) in StandardEntries(jwk) <==>
      Members(jwk)[i].Present() && v == Members(jwk)[i].Value()
    ensures Members(jwk)[i].Present() ==> (MemberNames[i], Members(jwk)[i].Value()) in ToDictionary(jwk).value
  {
    var r := ToDictionary(jwk).value;
    var std := StandardEntries(jwk);
    if Members(jwk)[i].Present() {
      var e := (MemberNames[i], Members(jwk)[i].Value());
      assert e in std;
      var k :| 0 <= k < |std| && std[k] == e;
      assert r[..|std|][k] == e;
    }
  }

  /** An additional entry whose name a present standard member already uses
      makes the projection fail. */
  lemma CollisionFails(jwk: JsonWebKey, i: nat, v: Json)
    requires i < |MemberNames| && Members(jwk)[i].Present()
    requires (MemberNames[i], v) in jwk.additionalData
    ensures ToDictionary(jwk).Failure?
  {
    var e := (MemberNames[i], Members(jwk)[i].Value());
    assert e in StandardEntries(jwk);
    SharedNameInvalid(StandardEntries(jwk), jwk.additionalData, e, (MemberNames[i], v));
  }

  /** A JWK with no member set projects to the empty dictionary. */
  lemma EmptyProjectsToEmpty()
    ensures ToDictionary(EmptyJwk) == Success([])
  {
    var ms := Members(EmptyJwk);
    assert forall m :: m in ms ==> !m.Present();
    EmitNothing(ms);
    assert StandardEntries(EmptyJwk) == [];
    var r := ToDictionary(EmptyJwk);
    assert r.Success? && r.value[0..] == [];
  }

  lemma {:induction false} EmitNothing(ms: seq<Member>)
    requires forall m :: m in ms ==> !m.Present()
    ensures Emit(ms) == []
    decreases |ms|
  {
    if ms != [] {
      assert ms[0] in ms;
      EmitNothing(ms[1..]);
    }
  }
}
