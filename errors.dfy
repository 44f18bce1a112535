/**
 * The error classes the framework raises (the files under src/error), folded into one
 * datatype. `Name`, `Message` and `Code` give what the error handler reads:
 * `error.name`, `error.message` and `error.code`.
 */
module Errors {
  import opened Wrappers
  import opened Json

  datatype Error =
    /** UnauthorizedError(message). */
    | Unauthorized(msg: string)
    /** ForbiddenError(message = 'Forbidden'). */
    | Forbidden(msg: string)
    /** NotFoundError(resource, identifier). */
    | NotFound(resource: string, identifier: string)
    /** `ctx.throw(status, message)`: a Koa HTTP error. */
    | HttpError(status: int, msg: string)
    /** ExecutionContextNotInitializedError. */
    | ExecutionContextNotInitialized
    /** TenantIdRequiredError(source, name). */
    | TenantIdRequired(source: string, name: string)
    /** TenantResolverNotConfiguredError(tenantId). */
    | TenantResolverNotConfigured(tenantId: string)
    /** TenantNotFoundError(tenantId). */
    | TenantNotFound(tenantId: string)
    /** MultiTenantConfigurationError(controllerName). */
    | MultiTenantConfiguration(controllerName: string)
    /** RuntimeConfigurationError(message). */
    | RuntimeConfiguration(msg: string)
    /** A plain `new Error(message)`. */
    | Plain(msg: string)
    /** An error raised by a library (mongoose, zod, the IDM client): its name, message,
        optional `code` and optional `keyValue`, all as the library set them. */
    | Foreign(name: string, msg: string, code: Option<string>, keyValue: Option<Value>)
  {
    /** `error.name`. */
    function Name(): string {
      match this
      case Unauthorized(_) => "UnauthorizedError"
      case Forbidden(_) => "ForbiddenError"
      case NotFound(_, _) => "NotFoundError"
      case HttpError(_, _) => "HttpError"
      case ExecutionContextNotInitialized => "ExecutionContextNotInitializedError"
      case TenantIdRequired(_, _) => "TenantIdRequiredError"
      case TenantResolverNotConfigured(_) => "TenantResolverNotConfiguredError"
      case TenantNotFound(_) => "TenantNotFoundError"
      case MultiTenantConfiguration(_) => "MultiTenantConfigurationError"
      case RuntimeConfiguration(_) => "RuntimeConfigurationError"
      case Plain(_) => "Error"
      case Foreign(n, _, _, _) => n
    }

    /** `error.message`, as each class's constructor builds it. */
    function Message(): string {
      match this
      case Unauthorized(m) => m
      case Forbidden(m) => m
      case NotFound(r, id) => r + " not found: " + id
      case HttpError(_, m) => m
      case ExecutionContextNotInitialized =>
        "ExecutionContext not initialized. Call executionContext.init() before using repository."
      case TenantIdRequired(src, n) =>
        "Multi-tenant " + src + " '" + n + "' requires tenantId in execution context."
      case TenantResolverNotConfigured(t) =>
        "TenantResolver not configured. Multi-tenant repository tried to resolve tenantId '" + t + "'. "
        + "Call framework.setTenantResolver() before init() to configure tenant resolution."
      case TenantNotFound(t) => "Tenant not found: " + t
      case MultiTenantConfiguration(c) =>
        "Controller " + c + " is configured as multiTenant=true but tenantId is missing from route params. "
        + "Ensure route has ':tenantId' parameter and it's being validated."
      case RuntimeConfiguration(m) => m
      case Plain(m) => m
      case Foreign(_, m, _, _) => m
    }

    /** `error.code`: only library errors carry one. */
    function Code(): Option<string> {
      if Foreign? then code else None
    }

    /** `error.keyValue`: only library errors carry one. */
    function KeyValue(): Option<Value> {
      if Foreign? then keyValue else None
    }
  }

  /** ForbiddenError's default message. */
  const DefaultForbidden := Forbidden("Forbidden")
}
