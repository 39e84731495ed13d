/** Claims and the user-id extraction of the Todo API
    (`ClaimsPrincipalExtensions.GetUserId`). A principal's identities are
    flattened into one sequence of claims, in the order `FindFirst` visits them. */
module Claims {
  import opened Wrappers
  import opened Text

  datatype Claim = Claim(claimType: string, value: string)

  /** The JWT registered claim names used by the model. */
  const Subject: string := "sub"
  const Name: string := "name"
  const PreferredUserName: string := "preferred_username"

  /** `ClaimsIdentity.FindFirst` matches claim types with
      `StringComparison.OrdinalIgnoreCase`. */
  predicate HasType(claim: Claim, claimType: string) {
    EqualsIgnoreCase(claim.claimType, claimType)
  }

  /** `FindFirstValue(type)`: the value of the first claim whose type equals
      `type` ignoring case. */
  function FindFirstValue(claims: seq<Claim>, claimType: string): (r: Option<string>)
    ensures r.None? <==> forall i :: 0 <= i < |claims| ==> !HasType(claims[i], claimType)
    ensures r.Some? ==> exists i :: 0 <= i < |claims| && HasType(claims[i], claimType) && claims[i].value == r.value
                          && forall j :: 0 <= j < i ==> !HasType(claims[j], claimType)
  {
    if claims == [] then None
    else if HasType(claims[0], claimType) then Some(claims[0].value)
    else
      var r := FindFirstValue(claims[1..], claimType);
      if r.Some? then
        var i :| 0 <= i < |claims[1..]| && HasType(claims[1..][i], claimType) && claims[1..][i].value == r.value
                 && forall j :: 0 <= j < i ==> !HasType(claims[1..][j], claimType);
        assert claims[i + 1] == claims[1..][i];
        r
      else r
  }

  /** `GetUserId`: the value of the first "sub" claim, in any casing, or ""
      when there is none. */
  function GetUserId(user: seq<Claim>): (id: string)
    ensures (forall i :: 0 <= i < |user| ==> !HasType(user[i], Subject)) ==> id == ""
    ensures forall i ::
              (0 <= i < |user| && HasType(user[i], Subject)
               && forall j :: 0 <= j < i ==> !HasType(user[j], Subject))
              ==> id == user[i].value
  {
    FindFirstValue(user, Subject).GetOr("")
  }

  /** A "SUB" claim ahead of the "sub" claim supplies the user id. */
  lemma UpperCaseSubjectCounts(upper: string, lower: string)
    ensures GetUserId([Claim("SUB", upper), Claim(Subject, lower)]) == upper
  {
    assert HasType(Claim("SUB", upper), Subject);
  }

  /** Claims of other types, wherever they occur, do not change the user id. */
  lemma {:induction false} GetUserIdIgnoresOtherClaims(user: seq<Claim>, others: seq<Claim>, k: nat)
    requires k <= |user|
    requires forall i :: 0 <= i < |others| ==> !HasType(others[i], Subject)
    ensures GetUserId(user[..k] + others + user[k..]) == GetUserId(user)
  {
    var u := user[..k] + others + user[k..];
    var first := FindFirstValue(user, Subject);
    if first.None? {
      forall i | 0 <= i < |u| ensures !HasType(u[i], Subject) {
        if i >= k + |others| { assert u[i] == user[i - |others|]; }
        else if i >= k { assert u[i] == others[i - k]; }
        else { assert u[i] == user[i]; }
      }
    } else {
      var i :| 0 <= i < |user| && HasType(user[i], Subject) && user[i].value == first.value
               && forall j :: 0 <= j < i ==> !HasType(user[j], Subject);
      var i' := if i < k then i else i + |others|;
      assert u[i'] == user[i];
      forall j | 0 <= j < i' ensures !HasType(u[j], Subject) {
        if j >= k + |others| { assert u[j] == user[j - |others|]; }
        else if j >= k { assert u[j] == others[j - k]; }
        else { assert u[j] == user[j]; }
      }
    }
  }
}
