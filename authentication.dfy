/**
 * The authentication stage (src/infrastructure/koa/middleware/authentication.build.middleware.ts).
 * It reads a Bearer token from the Authorization header (the header form of
 * section 2.1 of RFC 6750), asks the IDM service to validate it for the
 * route's tenant, and records the account in `ctx.state`. The IDM service's
 * answer, or the error its call raises, is a parameter.
 */
module Authentication {
  import opened Wrappers
  import opened Strings
  import opened Errors
  import opened Http

  /** The IDM service's `validateAuthentication` answer: {valid, error?, accountId?}. */
  datatype AuthenticationResult = AuthenticationResult(valid: bool, error: Option<string>, accountId: Option<string>)

  /** `idmClient.validateAuthentication(token, tenantId)`: an answer, or the error the call raised. */
  type Validator = (string, string) -> Result<AuthenticationResult, Error>

  /** The scheme prefix, matched case-sensitively and with exactly one space. */
  const BearerPrefix := "Bearer "

  /** The token of a header that passed the prefix check: the header minus its first 7 characters. */
  function BearerToken(header: string): (token: string)
    requires StartsWith(header, BearerPrefix)
    ensures header == BearerPrefix + token
  {
    header[|BearerPrefix|..]
  }

  /** `"Bearer " + t` yields `t`, whatever `t` is (an empty or space-led token included). */
  lemma BearerTokenRoundTrip(t: string)
    ensures StartsWith(BearerPrefix + t, BearerPrefix)
    ensures BearerToken(BearerPrefix + t) == t
  {
  }

  /** The scheme is compared case-sensitively: `bearer `, `BEARER ` and `Bearer` without the
      space are all refused, although section 2.1 of RFC 7235 makes the scheme name
      case-insensitive. */
  lemma SchemeIsCaseSensitive(t: string)
    ensures !StartsWith("bearer " + t, BearerPrefix)
    ensures !StartsWith("BEARER " + t, BearerPrefix)
    ensures !StartsWith("Bearer", BearerPrefix)
  {
    assert ("bearer " + t)[0] != BearerPrefix[0];
    assert ("BEARER " + t)[1] != BearerPrefix[1];
  }

  /** `ctx.state` after a successful authentication. */
  function Authenticated(c: Ctx, accountId: string, token: string): Ctx {
    c.(state := c.state.(authenticated := true, accountId := Some(accountId), idmAuthUserToken := Some(token)))
  }

  /** The stage's guard sequence: the new context when `next` is to be called, or the error
      the stage throws (and then `next` is not called and nothing is written). */
  function AuthenticateStep(validate: Validator, c: Ctx): (r: Result<Ctx, Error>)
    ensures !Truthy(c.authorization) ==> r == Err(Unauthorized("Missing Authorization header"))
    ensures Truthy(c.authorization) && !StartsWith(c.authorization.value, BearerPrefix) ==>
      r == Err(Unauthorized("Invalid Authorization header format"))
    ensures Truthy(c.authorization) && StartsWith(c.authorization.value, BearerPrefix) && !Truthy(Param(c, "tenantId")) ==>
      r == Err(HttpError(400, "Missing tenantId"))
    ensures r.Ok? ==> (exists accountId :: accountId != "" &&
                        r.value == Authenticated(c, accountId, BearerToken(c.authorization.value)))
  {
    var header := c.authorization;
    if !Truthy(header) then Err(Unauthorized("Missing Authorization header"))
    else if !StartsWith(header.value, BearerPrefix) then Err(Unauthorized("Invalid Authorization header format"))
    else
      var token := BearerToken(header.value);
      var tenantId := Param(c, "tenantId");
      if !Truthy(tenantId) then Err(HttpError(400, "Missing tenantId"))
      else match validate(token, tenantId.value)
        case Err(e) => Err(e)
        case Ok(result) =>
          if !result.valid then Err(Unauthorized(if Truthy(result.error) then result.error.value else "Invalid token"))
          else if !Truthy(result.accountId) then Err(Unauthorized("Invalid token payload"))
          else Ok(Authenticated(c, result.accountId.value, token))
  }

  /** The stage succeeds exactly when every guard passes, and then records what the IDM
      service answered for the token and the route's tenant. */
  lemma AuthenticateSucceedsIff(validate: Validator, c: Ctx)
    ensures AuthenticateStep(validate, c).Ok? <==>
      Truthy(c.authorization) && StartsWith(c.authorization.value, BearerPrefix) && Truthy(Param(c, "tenantId")) &&
      var answer := validate(BearerToken(c.authorization.value), Param(c, "tenantId").value);
      answer.Ok? && answer.value.valid && Truthy(answer.value.accountId)
    ensures AuthenticateStep(validate, c).Ok? ==>
      var answer := validate(BearerToken(c.authorization.value), Param(c, "tenantId").value);
      AuthenticateStep(validate, c).value == Authenticated(c, answer.value.accountId.value, BearerToken(c.authorization.value))
  {
  }

  /** A token the IDM service calls invalid is refused with its own message, or "Invalid token"
      when it gives none; a valid answer without an account is "Invalid token payload". */
  lemma AuthenticateRejections(validate: Validator, c: Ctx)
    requires Truthy(c.authorization) && StartsWith(c.authorization.value, BearerPrefix) && Truthy(Param(c, "tenantId"))
    requires validate(BearerToken(c.authorization.value), Param(c, "tenantId").value).Ok?
    ensures var answer := validate(BearerToken(c.authorization.value), Param(c, "tenantId").value).value;
      (!answer.valid && Truthy(answer.error) ==> AuthenticateStep(validate, c) == Err(Unauthorized(answer.error.value))) &&
      (!answer.valid && !Truthy(answer.error) ==> AuthenticateStep(validate, c) == Err(Unauthorized("Invalid token"))) &&
      (answer.valid && !Truthy(answer.accountId) ==> AuthenticateStep(validate, c) == Err(Unauthorized("Invalid token payload")))
  {
  }

  /** Only the three `ctx.state` fields change; the request and the response are untouched. */
  lemma AuthenticateChangesOnlyState(validate: Validator, c: Ctx)
    requires AuthenticateStep(validate, c).Ok?
    ensures var d := AuthenticateStep(validate, c).value;
      d.(state := c.state) == c &&
      d.state.tenantId == c.state.tenantId && d.state.pathPattern == c.state.pathPattern &&
      d.state.authenticated
  {
  }
}
