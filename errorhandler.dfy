/**
 * The error handler (src/infrastructure/koa/middleware/errorHandler.middleware.ts).
 * It catches whatever the rest of the request throws and answers it with a
 * status and an ErrorResponse body, choosing by a first-match table; a
 * subclass's `handleCustomError` hook is consulted first and may take over.
 */
module ErrorHandling {
  import opened Wrappers
  import opened Strings
  import opened Json
  import opened Errors
  import opened Http
  import opened Pipeline

  /** The status and body the handler writes. */
  datatype Answer = Answer(status: int, response: ErrorResponse)

  /** `handleCustomError(ctx, error)`: the context the hook leaves when it handles the error,
      or None when it returns false. */
  type CustomHandler = (Ctx, Error) -> Option<Ctx>

  /** The base class's hook handles nothing. */
  function NoCustomHandling(c: Ctx, e: Error): Option<Ctx> { None }

  /** The duplicate-key test: the message mentions E11000, or the code is "11000". */
  predicate IsDuplicateKey(e: Error) {
    Mentions(e.Message(), "E11000") || e.Code() == Some("11000")
  }

  /** The `n` characters of `m` from index `i`. */
  function Window(m: string, i: nat, n: nat): string
    requires i + n <= |m|
  {
    m[i..i + n]
  }

  /** `m.includes(sub)` as a window of `m`; `MentionsIsIncludes` shows it is `Includes`. */
  predicate Mentions(m: string, sub: string) {
    exists i: nat :: i + |sub| <= |m| && Window(m, i, |sub|) == sub
  }

  lemma MentionsIsIncludes(m: string, sub: string)
    ensures Mentions(m, sub) <==> Includes(m, sub)
  {
    if Mentions(m, sub) {
      var i: nat :| i + |sub| <= |m| && Window(m, i, |sub|) == sub;
      IncludesAt(m, sub, i);
    }
    if Includes(m, sub) {
      IncludesWindow(m, sub);
    }
  }

  /** Where `Includes` finds `sub`. */
  lemma {:induction false} IncludesWindow(m: string, sub: string)
    requires Includes(m, sub)
    ensures Mentions(m, sub)
    decreases |m|
  {
    if StartsWith(m, sub) {
      assert Window(m, 0, |sub|) == sub;
    } else {
      IncludesWindow(m[1..], sub);
      var i: nat :| i + |sub| <= |m[1..]| && Window(m[1..], i, |sub|) == sub;
      assert Window(m, i + 1, |sub|) == sub;
    }
  }

  /** `error.name === n`, for the two names the table tests: none of the error kinds the
      modelled core raises carries them (`NamedLikeIsName`), so only errors built elsewhere do,
      the driver's and the framework's own ValidationError class among them. */
  predicate NamedLike(e: Error, n: string) {
    e.Foreign? && e.name == n
  }

  lemma NamedLikeIsName(e: Error, n: string)
    requires n == "CastError" || n == "ValidationError"
    ensures NamedLike(e, n) <==> e.Name() == n
  {
    if !e.Foreign? {
      OwnNames(e);
    }
  }

  /** The rows of the built-in table of `handle`, in the order they are tried. */
  datatype Row = UnauthorizedRow | NotFoundRow | DuplicateKeyRow | CastErrorRow | ValidationErrorRow | InternalRow

  /** The first row whose test the error passes. */
  function RowOf(e: Error): Row {
    if e.Unauthorized? then UnauthorizedRow
    else if e.NotFound? then NotFoundRow
    else if IsDuplicateKey(e) then DuplicateKeyRow
    else if NamedLike(e, "CastError") then CastErrorRow
    else if NamedLike(e, "ValidationError") then ValidationErrorRow
    else InternalRow
  }

  /** Each row's status. */
  function RowStatus(row: Row): int {
    match row
    case UnauthorizedRow => 401
    case NotFoundRow => 404
    case DuplicateKeyRow => 409
    case CastErrorRow => 400
    case ValidationErrorRow => 400
    case InternalRow => 500
  }

  /** Each row's body for the error. */
  function RowResponse(row: Row, e: Error): ErrorResponse {
    match row
    case UnauthorizedRow => ErrorResponse("Unauthorized", Some(e.Message()), Some("UNAUTHORIZED"), None)
    case NotFoundRow => ErrorResponse("Not Found", Some(e.Message()), Some("NOT_FOUND"), None)
    case DuplicateKeyRow => ErrorResponse("Duplicate key error", Some("A record with this value already exists"), Some("E11000"), e.KeyValue())
    case CastErrorRow => ErrorResponse("Invalid ID format", Some(e.Message()), Some("CAST_ERROR"), None)
    case ValidationErrorRow => ErrorResponse("Validation error", Some(e.Message()), Some("VALIDATION_ERROR"), None)
    case InternalRow => ErrorResponse("Internal Server Error", Some(e.Message()), None, None)
  }

  /** The built-in table of `handle`, as written: the first matching row's status and body.
      Only the last row answers 500, and only it gives no code. */
  function Classify(e: Error): (a: Answer)
    ensures a.status == 500 <==> RowOf(e) == InternalRow
    ensures a.response.code.None? <==> RowOf(e) == InternalRow
  {
    var row := RowOf(e);
    Answer(RowStatus(row), RowResponse(row, e))
  }

  /** The table with ForbiddenError answered by its own status code, 403, in the style of
      the 401 and 404 rows. */
  function ClassifyFixed(e: Error): (a: Answer)
    ensures e.Forbidden? ==> a.status == 403
    ensures !e.Forbidden? ==> a == Classify(e)
  {
    if e.Forbidden? then Answer(403, ErrorResponse("Forbidden", Some(e.Message()), Some("FORBIDDEN"), None))
    else Classify(e)
  }

  /** `setErrorResponse(ctx, status, response)`. */
  function SetErrorResponse(c: Ctx, a: Answer): (d: Ctx)
    ensures d.status == a.status && d.body == ErrorBody(a.response)
    ensures d.(status := c.status, body := c.body) == c
  {
    c.(status := a.status, body := ErrorBody(a.response))
  }

  /** `handle(ctx, error)` as written: the hook first; otherwise the written table's answer,
      and only status and body change. */
  function Handle(custom: CustomHandler, c: Ctx, e: Error): (d: Ctx)
    ensures custom(c, e).Some? ==> d == custom(c, e).value
    ensures custom(c, e).None? ==>
      d.status == Classify(e).status && d.body == ErrorBody(Classify(e).response) && d.(status := c.status, body := c.body) == c
  {
    match custom(c, e)
    case Some(d) => d
    case None => SetErrorResponse(c, Classify(e))
  }

  /** `handle` with the corrected table. */
  function HandleFixed(custom: CustomHandler, c: Ctx, e: Error): (d: Ctx)
    ensures custom(c, e).Some? ==> d == custom(c, e).value
    ensures custom(c, e).None? ==>
      d.status == ClassifyFixed(e).status && d.body == ErrorBody(ClassifyFixed(e).response) && d.(status := c.status, body := c.body) == c
  {
    match custom(c, e)
    case Some(d) => d
    case None => SetErrorResponse(c, ClassifyFixed(e))
  }

  /** `middleware()`: `await next()`, and handle what it throws. Given what running the rest
      produced, the handler's outcome: it never throws, and without an error it writes nothing. */
  function ErrorHandlerMiddleware(custom: CustomHandler, inner: Outcome): (r: Outcome)
    ensures r.error.None?
    ensures inner.error.None? ==> r == inner
    ensures inner.error.Some? ==> r.world == inner.world.(ctx := Handle(custom, inner.world.ctx, inner.error.value))
  {
    match inner.error
    case None => inner
    case Some(e) => Outcome(inner.world.(ctx := Handle(custom, inner.world.ctx, e)), None)
  }

  /** The middleware with the corrected table. */
  function ErrorHandlerMiddlewareFixed(custom: CustomHandler, inner: Outcome): (r: Outcome)
    ensures r.error.None?
    ensures inner.error.None? ==> r == inner
    ensures inner.error.Some? ==> r.world == inner.world.(ctx := HandleFixed(custom, inner.world.ctx, inner.error.value))
  {
    match inner.error
    case None => inner
    case Some(e) => Outcome(inner.world.(ctx := HandleFixed(custom, inner.world.ctx, e)), None)
  }

  /** Every answer has one of the table's statuses. */
  lemma ClassifyStatuses(e: Error)
    ensures Classify(e).status in {401, 404, 409, 400, 500}
  {
    var row := RowOf(e);
    assert Classify(e).status == RowStatus(row);
  }

  /** 401 exactly for UnauthorizedError, 404 exactly for NotFoundError, with their messages. */
  lemma ClassifyUnauthorizedAndNotFound(e: Error)
    ensures Classify(e).status == 401 <==> e.Unauthorized?
    ensures Classify(e).status == 404 <==> e.NotFound?
    ensures e.Unauthorized? ==> Classify(e).response == ErrorResponse("Unauthorized", Some(e.msg), Some("UNAUTHORIZED"), None)
    ensures e.NotFound? ==>
      Classify(e).response == ErrorResponse("Not Found", Some(e.resource + " not found: " + e.identifier), Some("NOT_FOUND"), None)
  {
    RowOfUnauthorizedAndNotFound(e);
  }

  lemma RowOfUnauthorizedAndNotFound(e: Error)
    ensures RowOf(e) == UnauthorizedRow <==> e.Unauthorized?
    ensures RowOf(e) == NotFoundRow <==> e.NotFound?
  {
  }

  /** 409 exactly for a duplicate-key error that is neither of the two above; its details are
      the error's keyValue. */
  lemma ClassifyDuplicateKey(e: Error)
    ensures Classify(e).status == 409 <==> !e.Unauthorized? && !e.NotFound? && IsDuplicateKey(e)
    ensures Classify(e).status == 409 ==> Classify(e).response.code == Some("E11000") && Classify(e).response.details == e.KeyValue()
  {
    RowOfDuplicateKey(e);
  }

  lemma RowOfDuplicateKey(e: Error)
    ensures RowOf(e) == DuplicateKeyRow <==> !e.Unauthorized? && !e.NotFound? && IsDuplicateKey(e)
  {
  }

  /** A driver error with code 11000, or with E11000 anywhere in its message, is a conflict. */
  lemma DuplicateKeyExamples(name: string, msg: string, keyValue: Option<Value>, before: string, after: string)
    ensures Classify(Foreign(name, msg, Some("11000"), keyValue)).status == 409
    ensures Classify(Foreign(name, before + "E11000" + after, None, keyValue)).status == 409
  {
    var m := before + "E11000" + after;
    assert Window(m, |before|, 6) == "E11000";
  }

  /** The rows are tried in order: a CastError whose message mentions E11000 is a conflict. */
  lemma FirstMatchWins(msg: string, before: string, after: string)
    ensures Classify(Foreign("CastError", msg, None, None)).status == 400 <==> !Includes(msg, "E11000")
    ensures Classify(Foreign("CastError", before + "E11000" + after, None, None)).status == 409
  {
    MentionsIsIncludes(msg, "E11000");
    DuplicateKeyExamples("CastError", msg, None, before, after);
  }

  /** Errors the framework raises itself other than the three named kinds are 500s with their
      message and no code; among them ctx.throw's HTTP errors, whose own status is not read. */
  lemma FrameworkErrorsAre500(e: Error)
    requires !e.Unauthorized? && !e.NotFound? && !e.Foreign? && !IsDuplicateKey(e)
    ensures Classify(e) == Answer(500, ErrorResponse("Internal Server Error", Some(e.Message()), None, None))
  {
    assert RowOf(e) == InternalRow;
  }

  /** None of the error kinds the modelled core raises is named CastError or ValidationError. */
  lemma OwnNames(e: Error)
    requires !e.Foreign?
    ensures e.Name() != "CastError" && e.Name() != "ValidationError"
  {
    if e.HttpError? {
      assert e.Name()[0] == 'H';
    } else if e.Plain? {
      assert |e.Name()| == 5;
    }
  }

  /** The framework's ValidationError class sets its name to 'ValidationError' and has no
      `code`, so the table's ValidationError row answers it 400 with its message, unless the
      message mentions E11000. */
  lemma ValidationErrorClassAnswered400(msg: string)
    requires !Includes(msg, "E11000")
    ensures Classify(Foreign("ValidationError", msg, None, None))
         == Answer(400, ErrorResponse("Validation error", Some(msg), Some("VALIDATION_ERROR"), None))
  {
    MentionsIsIncludes(msg, "E11000");
  }

  /** As written, a ForbiddenError (whose class declares status code 403) is answered 500. */
  lemma ForbiddenAnswered500(m: string)
    requires !Includes(m, "E11000")
    ensures Classify(Forbidden(m)).status == 500
  {
    MentionsIsIncludes(m, "E11000");
  }

  /** The corrected table answers a ForbiddenError 403 with its message, and agrees with the
      written table on every other error. */
  lemma ClassifyFixedProperties(e: Error)
    ensures e.Forbidden? ==> ClassifyFixed(e) == Answer(403, ErrorResponse("Forbidden", Some(e.msg), Some("FORBIDDEN"), None))
    ensures !e.Forbidden? ==> ClassifyFixed(e) == Classify(e)
    ensures ClassifyFixed(e).status == 403 <==> e.Forbidden?
  {
    ClassifyStatuses(e);
  }

  /** As written, a ForbiddenError a request's stages throw reaches the client as a 500
      (unless its message mentions E11000, which makes it a 409). */
  lemma AuthorizationDenialsAre500(svc: Services, stages: seq<Stage>, w: World)
    requires Run(svc, stages, w).error.Some? && Run(svc, stages, w).error.value.Forbidden?
    requires !Includes(Run(svc, stages, w).error.value.msg, "E11000")
    ensures var r := ErrorHandlerMiddleware(NoCustomHandling, Run(svc, stages, w));
      r.world.ctx.status == 500 && r.error.None?
  {
    ForbiddenAnswered500(Run(svc, stages, w).error.value.msg);
  }

  /** With the corrected table, every ForbiddenError a request's stages throw is answered 403. */
  lemma AuthorizationDenialsAre403(svc: Services, stages: seq<Stage>, w: World)
    requires Run(svc, stages, w).error.Some? && Run(svc, stages, w).error.value.Forbidden?
    ensures var r := ErrorHandlerMiddlewareFixed(NoCustomHandling, Run(svc, stages, w));
      r.world.ctx.status == 403 && r.error.None?
  {
    ClassifyFixedProperties(Run(svc, stages, w).error.value);
  }

  /** A hook that handles an error decides the whole response: the table is not consulted. */
  lemma CustomHandlerWins(custom: CustomHandler, c: Ctx, e: Error)
    requires custom(c, e).Some?
    ensures Handle(custom, c, e) == custom(c, e).value
  {
  }

  /** With the base hook, the handler writes exactly the written table's status and body. */
  lemma DefaultHandleWritesStatusAndBody(c: Ctx, e: Error)
    ensures var d := Handle(NoCustomHandling, c, e);
      d.status == Classify(e).status && d.body == ErrorBody(Classify(e).response) &&
      d.(status := c.status, body := c.body) == c
  {
  }
}
