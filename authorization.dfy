/**
 * The authorization stage (src/infrastructure/koa/middleware/authorize.build.middleware.ts).
 * It derives the GRN of the requested resource from the controller's base
 * path and the request path, checks its format, and asks the IDM service
 * whether the authenticated user may perform `system:resource:operation` on
 * it. Printing and checking GRNs and actions belong to an external library;
 * they, the IDM service's answer and the configured realm are parameters.
 */
module Authorization {
  import opened Wrappers
  import opened Strings
  import opened Paths
  import opened Errors
  import opened Http
  import opened Grns
  import opened Decorators
  import opened Tenancy

  /** The request sent to `idmClient.authorize`. */
  datatype AuthorizeRequest = AuthorizeRequest(
    applicationRealmPublicUuid: Option<string>, idmAuthUserToken: string, grn: string, action: string)

  /** The IDM service's answer: {allowed, error?}. */
  datatype AuthorizeResult = AuthorizeResult(allowed: bool, error: Option<string>)

  /** The collaborators of the stage. */
  datatype AuthorizationServices = AuthorizationServices(
    /** `isValidGrn`. */
    isValidGrn: string -> bool,
    /** `stringifyGrn`, documented as `grn:partition:system:region:tenantId:resource`. */
    stringifyGrn: Grn -> string,
    /** `stringifyAction({system, resource, operation})`, documented as `system:resource:operation`. */
    stringifyAction: (string, string, string) -> string,
    /** `idmClient.authorize(request)`: an answer, or the error the call raised. */
    authorize: AuthorizeRequest -> Result<AuthorizeResult, Error>,
    resolver: TenantResolver,
    /** `env.get(IDM_AUTH_APPLICATION_REALM_PUBLIC_UUID)`. */
    realmPublicUuid: Option<string>)

  /** `ctx.params?.[key] || ''`. */
  function ParamOrEmpty(c: Ctx, key: string): (v: string)
    ensures Truthy(Param(c, key)) ==> v == c.params[key]
    ensures !Truthy(Param(c, key)) ==> v == ""
  {
    if Truthy(Param(c, key)) then c.params[key] else ""
  }

  /** The controller base path with each `:name` replaced by that route parameter. */
  function ResolveBasePath(basePath: string, c: Ctx): string {
    ReplaceParams(basePath, (key: string) => ParamOrEmpty(c, key))
  }

  /** The part of the request path after the resolved base, or "" off the base. */
  function PathSuffix(path: string, resolvedBase: string): (suffix: string)
    ensures StartsWith(path, resolvedBase) ==> path == resolvedBase + suffix
    ensures !StartsWith(path, resolvedBase) ==> suffix == ""
  {
    if StartsWith(path, resolvedBase) then path[|resolvedBase|..] else ""
  }

  /** The suffix naming every resource of a collection. */
  const Wildcard := "/*"

  /** The resource: the controller's resource name and the suffix, or the name and the
      wildcard when the suffix is empty or a lone slash. */
  function ResourcePath(resourceName: string, suffix: string): (r: string)
    ensures suffix != "" && suffix != "/" ==> r == resourceName + suffix
    ensures suffix == "" || suffix == "/" ==> r == resourceName + Wildcard
  {
    if suffix != "" && suffix != "/" then resourceName + suffix else resourceName + Wildcard
  }

  /** The GRN before the entry's resource builder is applied. */
  function BaseGrn(options: AuthorizeEntry, system: string, resourceName: string, basePath: string, tenantId: string, c: Ctx): (g: Grn)
    ensures g.partition == (if Truthy(options.partition) then options.partition.value else "global")
    ensures g.region == (if Truthy(options.region) then options.region.value else "")
    ensures g.system == system && g.tenantId == tenantId
    ensures g.resource == ResourcePath(resourceName, PathSuffix(c.path, ResolveBasePath(basePath, c)))
  {
    Grn(
      if Truthy(options.partition) then options.partition.value else "global",
      system,
      if Truthy(options.region) then options.region.value else "",
      tenantId,
      ResourcePath(resourceName, PathSuffix(c.path, ResolveBasePath(basePath, c))))
  }

  /** `buildGrn`: the entry's resource builder applied to the base GRN, printed. */
  function BuildGrn(svc: AuthorizationServices, options: AuthorizeEntry, system: string, resourceName: string, basePath: string, tenantId: string, c: Ctx): string {
    svc.stringifyGrn(options.resource(BaseGrn(options, system, resourceName, basePath, tenantId, c), c))
  }

  /** The realm sent to the IDM service: the configured value unless it is the literal
      `UNDEFINED`, in which case the tenant resolver's core UUID (whose error propagates). */
  function RealmPublicUuid(svc: AuthorizationServices): (r: Result<Option<string>, Error>)
    ensures svc.realmPublicUuid != Some("UNDEFINED") ==> r == Ok(svc.realmPublicUuid)
    ensures svc.realmPublicUuid == Some("UNDEFINED") && GetTenantCorePublicUuid(svc.resolver).Ok? ==>
      r == Ok(Some(GetTenantCorePublicUuid(svc.resolver).value))
    ensures svc.realmPublicUuid == Some("UNDEFINED") && GetTenantCorePublicUuid(svc.resolver).Err? ==>
      r == Err(GetTenantCorePublicUuid(svc.resolver).error)
  {
    if svc.realmPublicUuid != Some("UNDEFINED") then Ok(svc.realmPublicUuid)
    else match GetTenantCorePublicUuid(svc.resolver)
      case Ok(u) => Ok(Some(u))
      case Err(e) => Err(e)
  }

  /** The request the stage sends once its guards have passed. */
  function Request(svc: AuthorizationServices, options: AuthorizeEntry, system: string, resourceName: string, basePath: string, c: Ctx, realm: Option<string>): AuthorizeRequest
    requires Truthy(c.state.idmAuthUserToken) && Truthy(Param(c, "tenantId"))
  {
    AuthorizeRequest(realm, c.state.idmAuthUserToken.value,
      BuildGrn(svc, options, system, resourceName, basePath, c.params["tenantId"], c),
      svc.stringifyAction(system, resourceName, options.operation))
  }

  /** The stage's guard sequence: the error it throws, or None when `next` is to be called.
      The stage writes nothing. */
  function AuthorizeStep(svc: AuthorizationServices, options: AuthorizeEntry, system: string, resourceName: string, basePath: string, c: Ctx): (r: Option<Error>)
    ensures !Truthy(c.state.idmAuthUserToken) || !Truthy(Param(c, "tenantId")) ==> r == Some(Forbidden("User not authenticated"))
    ensures (Truthy(c.state.idmAuthUserToken) && Truthy(Param(c, "tenantId")) &&
             !svc.isValidGrn(BuildGrn(svc, options, system, resourceName, basePath, c.params["tenantId"], c))) ==>
      r == Some(Forbidden("Invalid resource format"))
  {
    var token := c.state.idmAuthUserToken;
    var tenantId := Param(c, "tenantId");
    if !Truthy(token) || !Truthy(tenantId) then Some(Forbidden("User not authenticated"))
    else
      var action := svc.stringifyAction(system, resourceName, options.operation);
      var grn := BuildGrn(svc, options, system, resourceName, basePath, tenantId.value, c);
      if !svc.isValidGrn(grn) then Some(Forbidden("Invalid resource format"))
      else match RealmPublicUuid(svc)
        case Err(e) => Some(e)
        case Ok(realm) =>
          match svc.authorize(AuthorizeRequest(realm, token.value, grn, action))
          case Err(e) => Some(e)
          case Ok(result) =>
            if !result.allowed then Some(Forbidden(if Truthy(result.error) then result.error.value else "Access denied"))
            else None
  }

  /** `next` is called exactly when every guard passes and the IDM service allows the request
      built from the token, the GRN and the action. */
  lemma AuthorizeAllowsIff(svc: AuthorizationServices, options: AuthorizeEntry, system: string, resourceName: string, basePath: string, c: Ctx)
    ensures AuthorizeStep(svc, options, system, resourceName, basePath, c).None? <==>
      Truthy(c.state.idmAuthUserToken) && Truthy(Param(c, "tenantId")) &&
      svc.isValidGrn(BuildGrn(svc, options, system, resourceName, basePath, c.params["tenantId"], c)) &&
      RealmPublicUuid(svc).Ok? &&
      var answer := svc.authorize(Request(svc, options, system, resourceName, basePath, c, RealmPublicUuid(svc).value));
      answer.Ok? && answer.value.allowed
  {
  }

  /** A denial carries the IDM service's error, or "Access denied" when it gives none. */
  lemma DenialMessage(svc: AuthorizationServices, options: AuthorizeEntry, system: string, resourceName: string, basePath: string, c: Ctx)
    requires Truthy(c.state.idmAuthUserToken) && Truthy(Param(c, "tenantId"))
    requires svc.isValidGrn(BuildGrn(svc, options, system, resourceName, basePath, c.params["tenantId"], c))
    requires RealmPublicUuid(svc).Ok?
    requires var answer := svc.authorize(Request(svc, options, system, resourceName, basePath, c, RealmPublicUuid(svc).value));
      answer.Ok? && !answer.value.allowed
    ensures var answer := svc.authorize(Request(svc, options, system, resourceName, basePath, c, RealmPublicUuid(svc).value));
      AuthorizeStep(svc, options, system, resourceName, basePath, c) ==
        Some(Forbidden(if Truthy(answer.value.error) then answer.value.error.value else "Access denied"))
  {
  }

  /** Off the base path, at the base, or at the base with a trailing slash, the resource is
      the whole collection (the name and the wildcard); below the base it is the resource name
      and the rest of the path. */
  lemma ResourceOfPath(resourceName: string, path: string, resolvedBase: string)
    ensures !StartsWith(path, resolvedBase) ==> ResourcePath(resourceName, PathSuffix(path, resolvedBase)) == resourceName + Wildcard
    ensures path == resolvedBase || path == resolvedBase + "/" ==>
      ResourcePath(resourceName, PathSuffix(path, resolvedBase)) == resourceName + Wildcard
    ensures forall rest :: path == resolvedBase + rest && rest != "" && rest != "/" ==>
      ResourcePath(resourceName, PathSuffix(path, resolvedBase)) == resourceName + rest
  {
    if path == resolvedBase + "/" {
      assert StartsWith(path, resolvedBase);
      assert path[|resolvedBase|..] == "/";
    }
    forall rest | path == resolvedBase + rest && rest != "" && rest != "/"
      ensures ResourcePath(resourceName, PathSuffix(path, resolvedBase)) == resourceName + rest
    {
      assert StartsWith(path, resolvedBase);
      assert path[|resolvedBase|..] == rest;
    }
  }

  /** A base path with one parameter and otherwise literal text resolves to the text around
      that parameter's value: `/api/realm/:tenantId/accounts` becomes
      `/api/realm/<tenantId>/accounts`, or `/api/realm//accounts` without it. */
  lemma ResolveOneParam(prefix: string, name: string, rest: string, c: Ctx)
    requires forall i :: 0 <= i < |prefix| ==> prefix[i] != ':'
    requires forall i :: 0 <= i < |rest| ==> rest[i] != ':'
    requires name != [] && forall i :: 0 <= i < |name| ==> IsWordChar(name[i])
    requires rest == [] || !IsWordChar(rest[0])
    ensures ResolveBasePath(prefix + ":" + name + rest, c) == prefix + ParamOrEmpty(c, name) + rest
  {
    var f := (key: string) => ParamOrEmpty(c, key);
    var t := ":" + name + rest;
    assert prefix + ":" + name + rest == prefix + t;
    ReplaceParamsLiteral(prefix, t, f);
    ReplaceParamsStep(name, rest, f);
    ReplaceParamsNone(rest, f);
    var v := ParamOrEmpty(c, name);
    assert ReplaceParams(prefix + t, f) == prefix + (v + rest);
    assert prefix + (v + rest) == prefix + v + rest;
  }

  /** Without a resource builder of its own, the entry's GRN is the base GRN. */
  lemma DefaultBuilderKeepsGrn(svc: AuthorizationServices, options: AuthorizeOptions, system: string, resourceName: string, basePath: string, tenantId: string, c: Ctx)
    requires options.resource.None?
    ensures var entry := AuthorizeEntryOf(options);
      BuildGrn(svc, entry, system, resourceName, basePath, tenantId, c) ==
        svc.stringifyGrn(BaseGrn(entry, system, resourceName, basePath, tenantId, c))
  {
  }
}
