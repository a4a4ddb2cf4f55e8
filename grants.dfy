/**
 * `_validateGrantsArray(grants)`: the check made before a list of page
 * grants is turned into XML. Each grant must name exactly one of a user or a
 * group, by a string or a number, and a role as a string. The answer is a
 * pair of a verdict and a message; the first offending grant decides the
 * message.
 */
module Grants {
  import opened Wrappers
  import opened JsonValues

  /** The `[ valid, message ]` pair the function returns. */
  datatype Verdict = Verdict(valid: bool, message: string)

  /** Reading `grant.user` on `null` or `undefined` throws a TypeError. */
  datatype GrantError = PropertyOfNullish

  const NotAnArray: string := "The specified grants must be an array"
  const UserOrGroup: string := "The grant must only define a single user or group, but not both."
  const BadUser: string := "The grant user parameter must be a numeric ID or an username"
  const BadGroup: string := "The grant group parameter must be a numeric ID or an username"
  const BadRole: string := "The grant role must be defined and must be a string."
  const Success: string := "success"

  /** `typeof v === 'string' || typeof v === 'number'`. */
  predicate IsIdentifier(v: Json)
  {
    v.Str? || v.Num?
  }

  /** `null` and `undefined`, the two values whose properties cannot be read. */
  predicate IsNullish(v: Json)
  {
    v == Null || v == Undefined
  }

  /** `grant[key]`: an own member of an object, `undefined` on a primitive. */
  function Field(grant: Json, key: string): Json
    requires !IsNullish(grant)
  {
    if IsObject(grant) then Member(grant, key) else Undefined
  }

  /** What a well-formed grant is, stated on its own. */
  predicate WellFormed(grant: Json)
  {
    && !IsNullish(grant)
    && var user, group := Field(grant, "user"), Field(grant, "group");
    && (user == Undefined) != (group == Undefined)
    && (user != Undefined ==> IsIdentifier(user))
    && (group != Undefined ==> IsIdentifier(group))
    && Field(grant, "role").Str?
  }

  /**
   * One iteration of the loop: `None` when the grant passes, otherwise the
   * message it is rejected with.
   */
  function CheckGrant(grant: Json): (r: Result<Option<string>, GrantError>)
    ensures r == Ok(None) <==> WellFormed(grant)
    ensures r.Err? <==> IsNullish(grant)
    ensures r.Ok? && r.value.Some? ==> r.value.value in {UserOrGroup, BadUser, BadGroup, BadRole}
    ensures r == Ok(Some(UserOrGroup)) <==>
              !IsNullish(grant) && ((Field(grant, "user") == Undefined) == (Field(grant, "group") == Undefined))
  {
    if IsNullish(grant) then Err(PropertyOfNullish)
    else
      var userDefined := Field(grant, "user") != Undefined;
      var groupDefined := Field(grant, "group") != Undefined;
      if userDefined == groupDefined then Ok(Some(UserOrGroup))
      else if userDefined && !IsIdentifier(Field(grant, "user")) then Ok(Some(BadUser))
      else if groupDefined && !IsIdentifier(Field(grant, "group")) then Ok(Some(BadGroup))
      else if !Field(grant, "role").Str? then Ok(Some(BadRole))
      else Ok(None)
  }

  /** The loop over the grants, stopping at the first one rejected. */
  function CheckAll(gs: seq<Json>): Result<Verdict, GrantError>
  {
    if gs == [] then Ok(Verdict(true, Success))
    else
      match CheckGrant(gs[0])
      case Err(e) => Err(e)
      case Ok(Some(message)) => Ok(Verdict(false, message))
      case Ok(None) => CheckAll(gs[1..])
  }

  /** `_validateGrantsArray(grants)` as a value. */
  function Validate(grants: Json): Result<Verdict, GrantError>
  {
    if !grants.Arr? then Ok(Verdict(false, NotAnArray)) else CheckAll(grants.items)
  }

  /** `_validateGrantsArray(grants)`: the `for ... of` loop with its early returns. */
  method ValidateGrantsArray(grants: Json) returns (r: Result<Verdict, GrantError>)
    ensures r == Validate(grants)
  {
    if !grants.Arr? {
      return Ok(Verdict(false, NotAnArray));
    }
    var gs := grants.items;
    var i := 0;
    while i < |gs|
      invariant 0 <= i <= |gs|
      invariant CheckAll(gs) == CheckAll(gs[i..])
    {
      CheckAllStep(gs, i);
      var grant := gs[i];
      if IsNullish(grant) {
        return Err(PropertyOfNullish);
      }
      var userDefined := Field(grant, "user") != Undefined;
      var groupDefined := Field(grant, "group") != Undefined;
      if (userDefined && groupDefined) || (!userDefined && !groupDefined) {
        return Ok(Verdict(false, UserOrGroup));
      }
      if userDefined && !IsIdentifier(Field(grant, "user")) {
        return Ok(Verdict(false, BadUser));
      } else if groupDefined && !IsIdentifier(Field(grant, "group")) {
        return Ok(Verdict(false, BadGroup));
      }
      if !Field(grant, "role").Str? {
        return Ok(Verdict(false, BadRole));
      }
      i := i + 1;
    }
    assert gs[i..] == [];
    r := Ok(Verdict(true, Success));
  }

  /** One turn of the loop: the verdict of the rest of the list from position `i`. */
  lemma CheckAllStep(gs: seq<Json>, i: nat)
    requires i < |gs|
    ensures CheckAll(gs[i..]) ==
      match CheckGrant(gs[i])
      case Err(e) => Err(e)
      case Ok(Some(message)) => Ok(Verdict(false, message))
      case Ok(None) => CheckAll(gs[i + 1..])
  {
    assert gs[i..][0] == gs[i] && gs[i..][1..] == gs[i + 1..];
  }

  // ------------------------------------------------------------ properties

  /** The list is accepted, with `'success'`, exactly when every grant is well formed. */
  lemma {:induction false} CheckAllAccepts(gs: seq<Json>)
    ensures CheckAll(gs) == Ok(Verdict(true, Success)) <==> forall i :: 0 <= i < |gs| ==> WellFormed(gs[i])
    ensures CheckAll(gs).Ok? ==> (CheckAll(gs).value.valid <==> CheckAll(gs).value.message == Success)
  {
    if gs != [] {
      CheckAllAccepts(gs[1..]);
      assert forall i :: 1 <= i < |gs| ==> gs[i] == gs[1..][i - 1];
    }
  }

  /**
   * A rejection, or a throw, comes from the first grant that is not well
   * formed: every grant before it passed.
   */
  lemma {:induction false} CheckAllFirstFailure(gs: seq<Json>)
    ensures CheckAll(gs) != Ok(Verdict(true, Success)) ==>
              exists i :: 0 <= i < |gs| && (forall j :: 0 <= j < i ==> WellFormed(gs[j]))
                && !WellFormed(gs[i])
                && (CheckGrant(gs[i]).Err? ==> CheckAll(gs) == Err(PropertyOfNullish))
                && (CheckGrant(gs[i]).Ok? ==> CheckAll(gs) == Ok(Verdict(false, CheckGrant(gs[i]).value.value)))
  {
    if gs != [] && CheckAll(gs) != Ok(Verdict(true, Success)) {
      if CheckGrant(gs[0]) == Ok(None) {
        CheckAllFirstFailure(gs[1..]);
        var k :| 0 <= k < |gs[1..]| && (forall j :: 0 <= j < k ==> WellFormed(gs[1..][j]))
                 && !WellFormed(gs[1..][k])
                 && (CheckGrant(gs[1..][k]).Err? ==> CheckAll(gs[1..]) == Err(PropertyOfNullish))
                 && (CheckGrant(gs[1..][k]).Ok? ==> CheckAll(gs[1..]) == Ok(Verdict(false, CheckGrant(gs[1..][k]).value.value)));
        assert gs[1..][k] == gs[k + 1];
        assert forall j :: 1 <= j < k + 1 ==> gs[j] == gs[1..][j - 1];
        assert !WellFormed(gs[k + 1]);
      } else {
        assert !WellFormed(gs[0]);
      }
    }
  }

  /**
   * The whole function: an array of well-formed grants, and only that, is
   * valid with `'success'`; anything else that is not an array is rejected
   * with the array message; and a valid verdict always says `'success'`.
   */
  lemma ValidateAccepts(grants: Json)
    ensures Validate(grants) == Ok(Verdict(true, Success)) <==>
              grants.Arr? && forall i :: 0 <= i < |grants.items| ==> WellFormed(grants.items[i])
    ensures !grants.Arr? ==> Validate(grants) == Ok(Verdict(false, NotAnArray))
    ensures Validate(grants).Ok? ==> (Validate(grants).value.valid <==> Validate(grants).value.message == Success)
  {
    if grants.Arr? {
      CheckAllAccepts(grants.items);
    }
  }
}
