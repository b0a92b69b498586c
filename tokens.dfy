/**
 * `POST /token` (`create_token`): who is issuing the token, and which of the
 * requested permission scopes the new token receives.
 */
module Tokens {
  import opened Wrappers
  import opened Models

  const ServerManagement := "server_management"
  const FullControl := "full_control"

  /** The body of the request (the fields `create_token` looks at or stores). */
  datatype TokenRequest = TokenRequest(
    email: string, password: string, permissions: seq<string>, strict: bool,
    appId: string, redirectUrl: string)

  /** The row `models.Token.create` is asked to insert. */
  datatype NewToken = NewToken(userId: int, permissions: seq<string>, appId: string, redirectUrl: string)

  /** Position of the first occurrence of x, as Python's `list.remove` finds it. */
  function IndexOf(xs: seq<string>, x: string): (i: nat)
    requires x in xs
    ensures i < |xs| && xs[i] == x && x !in xs[..i]
  {
    if xs[0] == x then 0
    else
      var j := IndexOf(xs[1..], x);
      assert xs[..j + 1] == [xs[0]] + xs[1..][..j];
      j + 1
  }

  /** Python's `list.remove(x)`: the first occurrence of x is dropped, nothing else. */
  function RemoveFirst(xs: seq<string>, x: string): (r: seq<string>)
    requires x in xs
    ensures |r| == |xs| - 1
    ensures multiset(r) == multiset(xs) - multiset{x}
  {
    var i := IndexOf(xs, x);
    assert xs == xs[..i] + [x] + xs[i + 1..];
    xs[..i] + xs[i + 1..]
  }

  /** Every element of `requested` is one of `held`. */
  predicate Within(requested: seq<string>, held: seq<string>)
  {
    forall p :: p in requested ==> p in held
  }

  /**
   * The scope decision of `create_token`, given the issuing user's superuser
   * flag, the `strict` flag and, when the caller authenticated with a bearer
   * token, that token's permissions (None for an email/password login).
   * Err carries the HTTP status of the failure.
   */
  function ScopePolicy(permissions: seq<string>, isSuperuser: bool, strict: bool,
                       callerScopes: Option<seq<string>>): (r: Result<seq<string>, int>)
    ensures r == Err(422) <==> ServerManagement in permissions && !isSuperuser && strict
    ensures r.Err? ==> r.error == 422 || r.error == 403
    ensures r.Ok? ==> multiset(r.value) <= multiset(permissions)
    ensures r.Ok? && callerScopes.Some? && FullControl !in callerScopes.value ==> Within(r.value, callerScopes.value)
    ensures r.Ok? && (isSuperuser || ServerManagement !in permissions) ==> r.value == permissions
  {
    if ServerManagement in permissions && !isSuperuser && strict then Err(422)
    else
      var kept := if ServerManagement in permissions && !isSuperuser
                  then RemoveFirst(permissions, ServerManagement) else permissions;
      if callerScopes.Some? && FullControl !in callerScopes.value && !Within(kept, callerScopes.value)
      then Err(403)
      else Ok(kept)
  }

  /**
   * The handler: authenticate with the bearer token, falling back to the email
   * and password login, then apply the scope rules and build the new token.
   * `bearer` is what the token authentication returned (None when it raised);
   * `login` is the user the password check returned (None when it failed).
   */
  method CreateToken(bearer: Option<(User, Token)>, login: Option<User>, data: TokenRequest)
    returns (r: Result<NewToken, int>)
    ensures bearer.None? && login.None? ==> r == Err(401)
    ensures bearer.Some? || login.Some? ==>
      var user := if bearer.Some? then bearer.value.0 else login.value;
      var caller := if bearer.Some? then Some(bearer.value.1.permissions) else None;
      var decision := ScopePolicy(data.permissions, user.isSuperuser, data.strict, caller);
      (decision.Err? ==> r == Err(decision.error)) &&
      (decision.Ok? ==> r == Ok(NewToken(user.id, decision.value, data.appId, data.redirectUrl)))
  {
    var user: User;
    var token: Option<Token> := None;
    if bearer.Some? {
      user, token := bearer.value.0, Some(bearer.value.1);
    } else {
      if login.None? {
        return Err(401);
      }
      user := login.value;
    }
    ghost var caller := if token.Some? then Some(token.value.permissions) else None;
    ghost var decision := ScopePolicy(data.permissions, user.isSuperuser, data.strict, caller);
    var strict := data.strict;
    var permissions := data.permissions;
    if ServerManagement in permissions && !user.isSuperuser {
      if strict {
        assert decision == Err(422);
        return Err(422);
      }
      permissions := RemoveFirst(permissions, ServerManagement);
    }
    if token.Some? && FullControl !in token.value.permissions {
      for i := 0 to |permissions|
        invariant forall j :: 0 <= j < i ==> permissions[j] in token.value.permissions
      {
        if permissions[i] !in token.value.permissions {
          assert !Within(permissions, token.value.permissions);
          assert decision == Err(403);
          return Err(403);
        }
      }
      assert Within(permissions, token.value.permissions);
    }
    assert decision == Ok(permissions);
    return Ok(NewToken(user.id, permissions, data.appId, data.redirectUrl));
  }

  /**
   * Whenever a non-superuser's request naming `server_management` is granted
   * (which needs `strict` off), exactly the first occurrence is dropped and
   * the other scopes keep their order, whatever the caller authenticated with.
   */
  lemma NonStrictStripsOneOccurrence(permissions: seq<string>, strict: bool, callerScopes: Option<seq<string>>)
    requires ServerManagement in permissions
    ensures var i := IndexOf(permissions, ServerManagement);
      var r := ScopePolicy(permissions, false, strict, callerScopes);
      r.Ok? ==> !strict && r.value == permissions[..i] + permissions[i + 1..]
  {
  }

  /** A bearer token holding `full_control` may issue any scopes, so it is never refused with 403. */
  lemma FullControlSkipsSubsetCheck(permissions: seq<string>, isSuperuser: bool, strict: bool,
                                    callerScopes: seq<string>)
    requires FullControl in callerScopes
    ensures ScopePolicy(permissions, isSuperuser, strict, Some(callerScopes)) != Err(403)
  {
  }

  /** A password login is never refused for lack of permissions, whatever is requested. */
  lemma PasswordLoginSkipsSubsetCheck(permissions: seq<string>, isSuperuser: bool, strict: bool)
    ensures ScopePolicy(permissions, isSuperuser, strict, None) != Err(403)
  {
  }

  /**
   * Being a superuser exempts only from the `server_management` rule: a
   * superuser calling with a token that lacks `full_control` is refused every
   * scope the token does not hold.
   */
  lemma SuperuserNotExemptFromSubsetCheck(permissions: seq<string>, strict: bool, held: seq<string>, p: string)
    requires FullControl !in held
    requires p in permissions && p !in held
    ensures ScopePolicy(permissions, true, strict, Some(held)) == Err(403)
  {
  }

  /**
   * The subset check in both directions: with a token lacking `full_control`,
   * the request succeeds exactly when the scopes left after the
   * `server_management` step are all held by the token.
   */
  lemma SubsetCheckExact(permissions: seq<string>, isSuperuser: bool, strict: bool, held: seq<string>)
    requires FullControl !in held
    requires !(ServerManagement in permissions && !isSuperuser && strict)
    ensures var kept := if ServerManagement in permissions && !isSuperuser
                        then RemoveFirst(permissions, ServerManagement) else permissions;
      ScopePolicy(permissions, isSuperuser, strict, Some(held)).Ok? <==> Within(kept, held)
  {
  }

  // --- The duplicate `server_management` request ---------------------------

  /**
   * `list.remove` drops one occurrence only: a non-superuser who logs in with
   * a password and asks, without `strict`, for `server_management` twice is
   * granted it once.
   */
  lemma DuplicateServerManagementSurvives()
    ensures ScopePolicy([ServerManagement, ServerManagement], false, false, None) == Ok([ServerManagement])
  {
    var xs := [ServerManagement, ServerManagement];
    assert IndexOf(xs, ServerManagement) == 0;
    assert RemoveFirst(xs, ServerManagement) == xs[1..] == [ServerManagement];
  }

  /** Every occurrence of x dropped, the rest in order. */
  function RemoveAll(xs: seq<string>, x: string): (r: seq<string>)
    ensures x !in r
    ensures forall y :: y != x ==> multiset(r)[y] == multiset(xs)[y]
  {
    if xs == [] then []
    else if xs[0] == x then
      assert xs == [xs[0]] + xs[1..];
      RemoveAll(xs[1..], x)
    else
      assert xs == [xs[0]] + xs[1..];
      [xs[0]] + RemoveAll(xs[1..], x)
  }

  /**
   * The scope decision with `server_management` stripped entirely from a
   * non-superuser's request when `strict` is off.
   */
  function IntendedScopePolicy(permissions: seq<string>, isSuperuser: bool, strict: bool,
                               callerScopes: Option<seq<string>>): (r: Result<seq<string>, int>)
    ensures r.Ok? && !isSuperuser ==> ServerManagement !in r.value
    ensures r == Err(422) <==> ServerManagement in permissions && !isSuperuser && strict
  {
    if ServerManagement in permissions && !isSuperuser && strict then Err(422)
    else
      var kept := if !isSuperuser then RemoveAll(permissions, ServerManagement) else permissions;
      if callerScopes.Some? && FullControl !in callerScopes.value && !Within(kept, callerScopes.value)
      then Err(403)
      else Ok(kept)
  }

  lemma {:induction false} RemoveFirstIsRemoveAllWhenSingle(xs: seq<string>, x: string)
    requires multiset(xs)[x] == 1
    ensures x in xs && RemoveFirst(xs, x) == RemoveAll(xs, x)
  {
    assert x in multiset(xs);
    assert xs == [xs[0]] + xs[1..];
    assert multiset(xs) == multiset{xs[0]} + multiset(xs[1..]);
    if xs[0] == x {
      assert multiset(xs[1..])[x] == 0;
      RemoveAllAbsent(xs[1..], x);
      assert IndexOf(xs, x) == 0;
    } else {
      assert multiset(xs[1..])[x] == 1;
      RemoveFirstIsRemoveAllWhenSingle(xs[1..], x);
      RemoveFirstCons(xs, x);
    }
  }

  lemma RemoveFirstCons(xs: seq<string>, x: string)
    requires |xs| > 0 && xs[0] != x && x in xs[1..]
    ensures x in xs && RemoveFirst(xs, x) == [xs[0]] + RemoveFirst(xs[1..], x)
  {
    var i := IndexOf(xs[1..], x);
    assert IndexOf(xs, x) == i + 1;
    assert xs[..i + 1] == [xs[0]] + xs[1..][..i];
    assert xs[i + 2..] == xs[1..][i + 1..];
  }

  lemma {:induction false} RemoveAllAbsent(xs: seq<string>, x: string)
    requires x !in xs
    ensures RemoveAll(xs, x) == xs
  {
    if xs != [] {
      RemoveAllAbsent(xs[1..], x);
      assert xs == [xs[0]] + xs[1..];
    }
  }

  /** The two policies differ only on requests naming `server_management` more than once. */
  lemma IntendedAgreesOnSingleRequest(permissions: seq<string>, isSuperuser: bool, strict: bool,
                                      callerScopes: Option<seq<string>>)
    requires multiset(permissions)[ServerManagement] <= 1
    ensures IntendedScopePolicy(permissions, isSuperuser, strict, callerScopes)
         == ScopePolicy(permissions, isSuperuser, strict, callerScopes)
  {
    if !isSuperuser {
      if ServerManagement in permissions {
        RemoveFirstIsRemoveAllWhenSingle(permissions, ServerManagement);
      } else {
        RemoveAllAbsent(permissions, ServerManagement);
      }
    }
  }
}
