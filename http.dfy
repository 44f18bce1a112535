/**
 * The Koa request context as the framework's stages see it: request line,
 * the Authorization header, route params, query, request body, `ctx.state`,
 * and the response status and body.
 */
module Http {
  import opened Wrappers
  import opened Json
  import opened Pagination

  /** The route verbs recorded by the route decorators. */
  datatype HttpMethod = GET | POST | PUT | DELETE | PATCH {
    /** The method's string value, used in route keys. */
    function Name(): string {
      match this
      case GET => "GET"
      case POST => "POST"
      case PUT => "PUT"
      case DELETE => "DELETE"
      case PATCH => "PATCH"
    }
  }

  /** A query-string value: Koa gives a string, or an array for a repeated key. */
  datatype QueryValue = QStr(s: string) | QList(items: seq<string>)

  /** `ctx.state`: the fields the framework's stages read and write. */
  datatype State = State(
    tenantId: Option<string>,
    authenticated: bool,
    accountId: Option<string>,
    idmAuthUserToken: Option<string>,
    pathPattern: Option<string>)

  const EmptyState := State(None, false, None, None, None)

  /** The ErrorResponse record: {error, message?, code?, details?}. */
  datatype ErrorResponse = ErrorResponse(error: string, message: Option<string>, code: Option<string>, details: Option<Value>)

  /** One request-validation violation: dotted path and the schema's message. */
  datatype ValidationDetail = ValidationDetail(path: string, message: string)

  /** {error, message, details} written by the request-validation stage. */
  datatype ValidationErrorResponse = ValidationErrorResponse(error: string, message: string, details: seq<ValidationDetail>)

  /** `ctx.body`. */
  datatype Body =
    | NoBody
    | ErrorBody(err: ErrorResponse)
    | InvalidBody(invalid: ValidationErrorResponse)
    | JsonBody(json: Value)
    | PageBody(page: PaginatedResponse<Value>)

  datatype Ctx = Ctx(
    httpMethod: string,
    path: string,
    /** The Authorization header, absent when the request has none. */
    authorization: Option<string>,
    params: map<string, string>,
    query: map<string, QueryValue>,
    requestBody: Value,
    /** koa-router's `_matchedRoute`. */
    matchedRoute: Option<string>,
    state: State,
    status: int,
    body: Body)

  /** `ctx.params[key]`, absent when the route has no such parameter. */
  function Param(c: Ctx, key: string): Option<string> {
    if key in c.params then Some(c.params[key]) else None
  }

  /** JavaScript truthiness of an optional string: present and non-empty. */
  predicate Truthy(s: Option<string>) {
    s.Some? && s.value != ""
  }
}
