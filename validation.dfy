/**
 * The request-validation stage
 * (src/infrastructure/koa/middleware/zodValidateRequest.build.middleware.ts).
 * Each configured part of the request (params, body, query, in that order) is
 * checked against its schema and every issue of every part is collected.
 * What a schema reports for a value is a parameter: the list of zod issues,
 * empty when the value parses.
 */
module RequestValidation {
  import opened Wrappers
  import opened Strings
  import opened Json
  import opened Http
  import opened Grns
  import opened Decorators

  /** A zod issue: the path to the offending value and its message. */
  datatype Issue = Issue(path: seq<string>, message: string)

  /** `schema.safeParse(value)`: the issues found, none when parsing succeeds. */
  type SafeParse = (Schema, Value) -> seq<Issue>

  /** One issue of `part` as it is reported: `<part>.<path joined by '.'>` and the message. */
  function Detail(part: string, issue: Issue): (d: ValidationDetail)
    ensures d.path == part + "." + Join(issue.path, ".")
    ensures d.message == issue.message
  {
    ValidationDetail(part + "." + Join(issue.path, "."), issue.message)
  }

  /** All issues of `part`, one detail each, in the schema's order. */
  function Details(part: string, issues: seq<Issue>): (ds: seq<ValidationDetail>)
    ensures |ds| == |issues|
    ensures forall i :: 0 <= i < |issues| ==> ds[i] == Detail(part, issues[i])
  {
    seq(|issues|, i requires 0 <= i < |issues| => Detail(part, issues[i]))
  }

  /** `ctx.params` as the object the params schema is given. */
  function ParamsValue(c: Ctx): Value {
    Obj(map k | k in c.params :: Str(c.params[k]))
  }

  function QueryItem(q: QueryValue): Value {
    match q
    case QStr(s) => Str(s)
    case QList(items) => Arr(seq(|items|, i requires 0 <= i < |items| => Str(items[i])))
  }

  /** `ctx.query` as the object the query schema is given. */
  function QueryValueOf(c: Ctx): Value {
    Obj(map k | k in c.query :: QueryItem(c.query[k]))
  }

  /** The details one part contributes: none when it has no schema. */
  function PartDetails(part: string, schema: Option<Schema>, input: Value, safeParse: SafeParse): seq<ValidationDetail> {
    if schema.Some? then Details(part, safeParse(schema.value, input)) else []
  }

  /** Every violation of the request, params first, then body, then query. */
  function Violations(c: Ctx, schemas: ZodValidateRequestOptions, safeParse: SafeParse): seq<ValidationDetail> {
    PartDetails("params", schemas.params, ParamsValue(c), safeParse)
    + PartDetails("body", schemas.body, c.requestBody, safeParse)
    + PartDetails("query", schemas.query, QueryValueOf(c), safeParse)
  }

  /** The response for a list of violations: null when there are none. */
  function ValidationResult(details: seq<ValidationDetail>): (r: Option<ValidationErrorResponse>)
    ensures r.None? <==> details == []
    ensures r.Some? ==> r.value == ValidationErrorResponse("Validation failed", "Request validation failed", details)
  {
    if |details| > 0 then Some(ValidationErrorResponse("Validation failed", "Request validation failed", details)) else None
  }

  /** `issues.forEach(err => errors.push(...))` for one part. */
  method PushDetails(errors: seq<ValidationDetail>, part: string, issues: seq<Issue>) returns (out: seq<ValidationDetail>)
    ensures out == errors + Details(part, issues)
  {
    out := errors;
    var i := 0;
    while i < |issues|
      invariant 0 <= i <= |issues|
      invariant |out| == |errors| + i
      invariant out[..|errors|] == errors
      invariant forall j :: 0 <= j < i ==> out[|errors| + j] == Detail(part, issues[j])
    {
      out := out + [Detail(part, issues[i])];
      i := i + 1;
    }
    assert out == errors + Details(part, issues) by {
      forall j | 0 <= j < |out|
        ensures out[j] == (errors + Details(part, issues))[j]
      {
        if j >= |errors| {
          assert out[|errors| + (j - |errors|)] == Detail(part, issues[j - |errors|]);
        } else {
          assert out[..|errors|][j] == errors[j];
        }
      }
    }
  }

  /** `validateRequest(ctx, schemas)`: the configured parts are parsed in order and their
      issues appended to one list; the result is null exactly when that list is empty. */
  method ValidateRequest(c: Ctx, schemas: ZodValidateRequestOptions, safeParse: SafeParse) returns (r: Option<ValidationErrorResponse>)
    ensures r == ValidationResult(Violations(c, schemas, safeParse))
  {
    ghost var p := PartDetails("params", schemas.params, ParamsValue(c), safeParse);
    ghost var b := PartDetails("body", schemas.body, c.requestBody, safeParse);
    ghost var q := PartDetails("query", schemas.query, QueryValueOf(c), safeParse);
    var errors: seq<ValidationDetail> := [];
    if schemas.params.Some? {
      errors := PushDetails(errors, "params", safeParse(schemas.params.value, ParamsValue(c)));
    }
    assert errors == p;
    if schemas.body.Some? {
      errors := PushDetails(errors, "body", safeParse(schemas.body.value, c.requestBody));
    }
    assert errors == p + b;
    if schemas.query.Some? {
      errors := PushDetails(errors, "query", safeParse(schemas.query.value, QueryValueOf(c)));
    }
    assert errors == p + b + q;
    if |errors| > 0 {
      return Some(ValidationErrorResponse("Validation failed", "Request validation failed", errors));
    }
    return None;
  }

  /** The request passes exactly when no configured part reports an issue. */
  lemma PassesIff(c: Ctx, schemas: ZodValidateRequestOptions, safeParse: SafeParse)
    ensures ValidationResult(Violations(c, schemas, safeParse)).None? <==>
      (schemas.params.Some? ==> safeParse(schemas.params.value, ParamsValue(c)) == []) &&
      (schemas.body.Some? ==> safeParse(schemas.body.value, c.requestBody) == []) &&
      (schemas.query.Some? ==> safeParse(schemas.query.value, QueryValueOf(c)) == [])
  {
    var p := PartDetails("params", schemas.params, ParamsValue(c), safeParse);
    var b := PartDetails("body", schemas.body, c.requestBody, safeParse);
    var q := PartDetails("query", schemas.query, QueryValueOf(c), safeParse);
    assert Violations(c, schemas, safeParse) == p + b + q;
    assert |p + b + q| == |p| + |b| + |q|;
  }

  /** A failing part does not hide the others: the report holds every issue of every
      configured part, each part's issues in a block of its own, in the order params, body,
      query. */
  lemma AllPartsReported(c: Ctx, schemas: ZodValidateRequestOptions, safeParse: SafeParse)
    ensures var v := Violations(c, schemas, safeParse);
      var p := PartDetails("params", schemas.params, ParamsValue(c), safeParse);
      var b := PartDetails("body", schemas.body, c.requestBody, safeParse);
      var q := PartDetails("query", schemas.query, QueryValueOf(c), safeParse);
      |v| == |p| + |b| + |q| &&
      v[..|p|] == p && v[|p|..|p| + |b|] == b && v[|p| + |b|..] == q
  {
    var p := PartDetails("params", schemas.params, ParamsValue(c), safeParse);
    var b := PartDetails("body", schemas.body, c.requestBody, safeParse);
    var q := PartDetails("query", schemas.query, QueryValueOf(c), safeParse);
    var v := p + b + q;
    assert v[..|p|] == p;
    assert v[|p|..|p| + |b|] == b;
    assert v[|p| + |b|..] == q;
  }

  /** A part without a schema is never parsed: its issues cannot appear. */
  lemma UnconfiguredPartIgnored(c: Ctx, schemas: ZodValidateRequestOptions, safeParse: SafeParse, other: SafeParse)
    requires schemas.params.None? && schemas.query.None?
    requires schemas.body.Some? && other(schemas.body.value, c.requestBody) == safeParse(schemas.body.value, c.requestBody)
    ensures Violations(c, schemas, safeParse) == Violations(c, schemas, other)
  {
  }

  /** The documented detail paths: `params.id` for a params issue at `id`, and
      `body.address.city` for a nested body issue. */
  lemma DetailPathExamples(m: string)
    ensures Detail("params", Issue(["id"], m)).path == "params.id"
    ensures Detail("body", Issue(["address", "city"], m)).path == "body.address.city"
  {
    assert Join(["address", "city"], ".") == "address" + "." + Join(["city"], ".");
  }
}
