/**
 * Tenant to database resolution (src/infrastructure/tenant/defaultTenantResolver.provider.ts).
 * A resolver is either the default one, whose two hooks always fail, or an
 * application-supplied one whose hooks' answers are parameters.
 */
module Tenancy {
  import opened Wrappers
  import opened Errors
  import opened ExecutionContexts
  import Http

  datatype TenantResolver =
    | DefaultTenantResolver
    | CustomTenantResolver(resolveDbName: string -> Result<string, Error>, corePublicUuid: Result<string, Error>)

  /** `resolveTenantDbName(tenantId)`. */
  function ResolveTenantDbName(r: TenantResolver, tenantId: string): (res: Result<string, Error>)
    ensures r.DefaultTenantResolver? ==> res == Err(TenantResolverNotConfigured(tenantId))
    ensures r.CustomTenantResolver? ==> res == r.resolveDbName(tenantId)
  {
    match r
    case DefaultTenantResolver => Err(TenantResolverNotConfigured(tenantId))
    case CustomTenantResolver(f, _) => f(tenantId)
  }

  /** `getTenantCorePublicUUID()`. */
  function GetTenantCorePublicUuid(r: TenantResolver): (res: Result<string, Error>)
    ensures r.DefaultTenantResolver? ==> res == Err(TenantResolverNotConfigured("core"))
    ensures r.CustomTenantResolver? ==> res == r.corePublicUuid
  {
    match r
    case DefaultTenantResolver => Err(TenantResolverNotConfigured("core"))
    case CustomTenantResolver(_, u) => u
  }

  /** The error getDbName throws without a tenant in context. */
  const NoTenantContext := Plain("No tenant context available")

  /** `getDbName()`: the current context's tenant, resolved; an error when it is null or empty. */
  function GetDbName(r: TenantResolver, stack: seq<ExecutionContext>): (res: Result<string, Error>)
    ensures !Http.Truthy(TenantIdOf(stack)) ==> res == Err(NoTenantContext)
    ensures Http.Truthy(TenantIdOf(stack)) ==> res == ResolveTenantDbName(r, TenantIdOf(stack).value)
  {
    var tenantId := TenantIdOf(stack);
    if !Http.Truthy(tenantId) then Err(NoTenantContext) else ResolveTenantDbName(r, tenantId.value)
  }

  /** With the default resolver, getDbName always fails: with the tenant it was asked about,
      or for want of one. */
  lemma DefaultResolverNeverResolves(stack: seq<ExecutionContext>)
    ensures GetDbName(DefaultTenantResolver, stack).Err?
    ensures Http.Truthy(TenantIdOf(stack)) ==>
      GetDbName(DefaultTenantResolver, stack).error == TenantResolverNotConfigured(stack[|stack| - 1].tenantId.value)
  {
  }
}
