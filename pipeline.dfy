/**
 * The stage list a route runs and the koa-compose semantics it runs with
 * (src/infrastructure/koa/registerRouter.provider.ts:212 and the stage bodies
 * under src/infrastructure/koa/middleware). Running a list runs its first
 * stage with `next` bound to running the rest; a stage that returns without
 * calling `next` ends the chain, and an error thrown anywhere ends it too and
 * travels out unchanged.
 *
 * `Run` is the reference semantics on values; `Invocation.Execute` runs the
 * same list imperatively, updating the request context and the execution
 * context provider in place, and is proved to agree with `Run`.
 */
module Pipeline {
  import opened Wrappers
  import opened Errors
  import opened Http
  import opened Decorators
  import opened ExecutionContexts
  import opened Tenancy
  import opened Authentication
  import opened RequestValidation
  import opened Authorization

  /** What a bound controller method does with the `next` it is given. */
  datatype HandlerStep = Finish | CallNext | Raise(error: Error)

  /** The controller method's effect on the request context and how it ends. */
  datatype HandlerResult = HandlerResult(ctx: Ctx, step: HandlerStep)

  /** Everything outside the framework a stage consults. */
  datatype Services = Services(
    validateAuthentication: Validator,
    safeParse: SafeParse,
    authorization: AuthorizationServices,
    /** The controller method named, run on the context and the context stack it sees. */
    handler: (string, Ctx, seq<ExecutionContext>) -> HandlerResult)

  /** The stage kinds the builders produce, with what each was built from. */
  datatype Stage =
    | ExecContext
    | InjectCoreTenant
    | Authenticate
    | ValidateRequest(schemas: ZodValidateRequestOptions)
    | Authorize(options: AuthorizeEntry, system: string, resourceName: string, basePath: string)
    | Handler(methodName: string)
    | ValidateResponse(responses: ZodValidateResponseOptions)
    | PopulateTenantId

  /** The state a request's stages share: the Koa context, the execution-context stack and
      the supply of transaction ids (the `n`-th id drawn is `n`). */
  datatype World = World(ctx: Ctx, contexts: seq<ExecutionContext>, nextTxn: nat)

  /** What running a list leaves, and the error it throws, if any. */
  datatype Outcome = Outcome(world: World, error: Option<Error>)

  /** `ctx.params?.tenantId ?? ctx.state?.tenantId ?? null`: presence, not truthiness, decides. */
  function ContextTenantId(c: Ctx): (t: Option<string>)
    ensures "tenantId" in c.params ==> t == Some(c.params["tenantId"])
    ensures "tenantId" !in c.params ==> t == c.state.tenantId
  {
    if "tenantId" in c.params then Some(c.params["tenantId"]) else c.state.tenantId
  }

  /** The core-tenant stage's writes: `ctx.state.tenantId` and the current context's tenant. */
  function InjectTenant(w: World, tenantId: string): World {
    w.(ctx := w.ctx.(state := w.ctx.state.(tenantId := Some(tenantId))), contexts := WithTenantId(w.contexts, tenantId))
  }

  /** The populate stage: a truthy `params.tenantId` is copied into `ctx.state`. */
  function PopulateTenantIdStep(c: Ctx): (d: Ctx)
    ensures Truthy(Param(c, "tenantId")) ==> d == c.(state := c.state.(tenantId := Some(c.params["tenantId"])))
    ensures !Truthy(Param(c, "tenantId")) ==> d == c
  {
    var tenantId := Param(c, "tenantId");
    if Truthy(tenantId) then c.(state := c.state.(tenantId := tenantId)) else c
  }

  /** `compose(stages)(ctx)`. */
  function Run(svc: Services, stages: seq<Stage>, w: World): Outcome
    decreases |stages|
  {
    if stages == [] then Outcome(w, None)
    else
      var rest := stages[1..];
      match stages[0]
      case ExecContext =>
        var context := ExecutionContext(w.nextTxn, ContextTenantId(w.ctx));
        var inner := Run(svc, rest, World(w.ctx, w.contexts + [context], w.nextTxn + 1));
        Outcome(inner.world.(contexts := w.contexts), inner.error)
      case InjectCoreTenant =>
        (match GetTenantCorePublicUuid(svc.authorization.resolver)
         case Err(e) => Outcome(w, Some(e))
         case Ok(t) => Run(svc, rest, InjectTenant(w, t)))
      case Authenticate =>
        (match AuthenticateStep(svc.validateAuthentication, w.ctx)
         case Err(e) => Outcome(w, Some(e))
         case Ok(c) => Run(svc, rest, w.(ctx := c)))
      case ValidateRequest(schemas) =>
        (match ValidationResult(Violations(w.ctx, schemas, svc.safeParse))
         case Some(v) => Outcome(w.(ctx := w.ctx.(status := 400, body := InvalidBody(v))), None)
         case None => Run(svc, rest, w))
      case Authorize(options, system, resourceName, basePath) =>
        (match AuthorizeStep(svc.authorization, options, system, resourceName, basePath, w.ctx)
         case Some(e) => Outcome(w, Some(e))
         case None => Run(svc, rest, w))
      case Handler(m) =>
        var h := svc.handler(m, w.ctx, w.contexts);
        var after := w.(ctx := h.ctx);
        (match h.step
         case Finish => Outcome(after, None)
         case Raise(e) => Outcome(after, Some(e))
         case CallNext => Run(svc, rest, after))
      case ValidateResponse(_) => Run(svc, rest, w)
      case PopulateTenantId => Run(svc, rest, w.(ctx := PopulateTenantIdStep(w.ctx)))
  }

  /** The response-validation stage only awaits `next`: inserting it anywhere in a list
      changes nothing about the outcome, so it never changes a final status or body. */
  lemma {:induction false} ValidateResponseTransparent(svc: Services, pre: seq<Stage>, post: seq<Stage>, responses: ZodValidateResponseOptions, w: World)
    ensures Run(svc, pre + [ValidateResponse(responses)] + post, w) == Run(svc, pre + post, w)
    decreases |pre|
  {
    var s := ValidateResponse(responses);
    if pre == [] {
      assert [s] + post == pre + [s] + post;
      assert ([s] + post)[1..] == post;
      assert pre + post == post;
    } else {
      var full := pre + [s] + post;
      assert full[0] == pre[0] && full[1..] == pre[1..] + [s] + post;
      assert (pre + post)[0] == pre[0] && (pre + post)[1..] == pre[1..] + post;
      match pre[0]
      case ExecContext =>
        var context := ExecutionContext(w.nextTxn, ContextTenantId(w.ctx));
        ValidateResponseTransparent(svc, pre[1..], post, responses, World(w.ctx, w.contexts + [context], w.nextTxn + 1));
      case InjectCoreTenant =>
        var t := GetTenantCorePublicUuid(svc.authorization.resolver);
        if t.Ok? {
          ValidateResponseTransparent(svc, pre[1..], post, responses, InjectTenant(w, t.value));
        }
      case Authenticate =>
        var a := AuthenticateStep(svc.validateAuthentication, w.ctx);
        if a.Ok? {
          ValidateResponseTransparent(svc, pre[1..], post, responses, w.(ctx := a.value));
        }
      case ValidateRequest(schemas) =>
        ValidateResponseTransparent(svc, pre[1..], post, responses, w);
      case Authorize(options, system, resourceName, basePath) =>
        ValidateResponseTransparent(svc, pre[1..], post, responses, w);
      case Handler(m) =>
        var h := svc.handler(m, w.ctx, w.contexts);
        ValidateResponseTransparent(svc, pre[1..], post, responses, w.(ctx := h.ctx));
      case ValidateResponse(_) =>
        ValidateResponseTransparent(svc, pre[1..], post, responses, w);
      case PopulateTenantId =>
        ValidateResponseTransparent(svc, pre[1..], post, responses, w.(ctx := PopulateTenantIdStep(w.ctx)));
    }
  }

  /** Every stage leaves as many contexts established as it found: each execution-context
      stage pops what it pushed, and the core-tenant stage only rewrites the current one. */
  lemma {:induction false} ContextDepthPreserved(svc: Services, stages: seq<Stage>, w: World)
    ensures |Run(svc, stages, w).world.contexts| == |w.contexts|
    decreases |stages|
  {
    if stages != [] {
      var rest := stages[1..];
      match stages[0]
      case ExecContext =>
      case InjectCoreTenant =>
        var t := GetTenantCorePublicUuid(svc.authorization.resolver);
        if t.Ok? {
          ContextDepthPreserved(svc, rest, InjectTenant(w, t.value));
        }
      case Authenticate =>
        var a := AuthenticateStep(svc.validateAuthentication, w.ctx);
        if a.Ok? {
          ContextDepthPreserved(svc, rest, w.(ctx := a.value));
        }
      case ValidateRequest(schemas) =>
        ContextDepthPreserved(svc, rest, w);
      case Authorize(options, system, resourceName, basePath) =>
        ContextDepthPreserved(svc, rest, w);
      case Handler(m) =>
        var h := svc.handler(m, w.ctx, w.contexts);
        ContextDepthPreserved(svc, rest, w.(ctx := h.ctx));
      case ValidateResponse(_) =>
        ContextDepthPreserved(svc, rest, w);
      case PopulateTenantId =>
        ContextDepthPreserved(svc, rest, w.(ctx := PopulateTenantIdStep(w.ctx)));
    }
  }

  /** The established contexts' ids increase from the outermost in and all lie below the
      supply: no two established contexts share an id, and the next id drawn is new. */
  predicate WellNumbered(w: World) {
    (forall i, j :: 0 <= i < j < |w.contexts| ==> w.contexts[i].globalTransactionId < w.contexts[j].globalTransactionId)
    && (forall i :: 0 <= i < |w.contexts| ==> w.contexts[i].globalTransactionId < w.nextTxn)
  }

  /** The core-tenant stage rewrites a tenant, never an id. */
  lemma InjectTenantKeepsIds(w: World, t: string)
    ensures InjectTenant(w, t).nextTxn == w.nextTxn
    ensures |InjectTenant(w, t).contexts| == |w.contexts|
    ensures forall i :: 0 <= i < |w.contexts| ==>
      InjectTenant(w, t).contexts[i].globalTransactionId == w.contexts[i].globalTransactionId
  {
    var r := InjectTenant(w, t).contexts;
    forall i | 0 <= i < |w.contexts|
      ensures r[i].globalTransactionId == w.contexts[i].globalTransactionId
    {
      if i < |w.contexts| - 1 {
        assert r[i] == w.contexts[i];
      } else {
        assert r[i] == w.contexts[i].(tenantId := Some(t));
      }
    }
  }

  /** The supply of transaction ids only moves forward, and every run keeps the established
      contexts well numbered. */
  lemma {:induction false} TransactionIdsAdvance(svc: Services, stages: seq<Stage>, w: World)
    ensures Run(svc, stages, w).world.nextTxn >= w.nextTxn
    ensures WellNumbered(w) ==> WellNumbered(Run(svc, stages, w).world)
    decreases |stages|
  {
    if stages != [] {
      var rest := stages[1..];
      match stages[0]
      case ExecContext =>
        var context := ExecutionContext(w.nextTxn, ContextTenantId(w.ctx));
        TransactionIdsAdvance(svc, rest, World(w.ctx, w.contexts + [context], w.nextTxn + 1));
      case InjectCoreTenant =>
        var t := GetTenantCorePublicUuid(svc.authorization.resolver);
        if t.Ok? {
          InjectTenantKeepsIds(w, t.value);
          TransactionIdsAdvance(svc, rest, InjectTenant(w, t.value));
        }
      case Authenticate =>
        var a := AuthenticateStep(svc.validateAuthentication, w.ctx);
        if a.Ok? {
          TransactionIdsAdvance(svc, rest, w.(ctx := a.value));
        }
      case ValidateRequest(schemas) =>
        TransactionIdsAdvance(svc, rest, w);
      case Authorize(options, system, resourceName, basePath) =>
        TransactionIdsAdvance(svc, rest, w);
      case Handler(m) =>
        var h := svc.handler(m, w.ctx, w.contexts);
        TransactionIdsAdvance(svc, rest, w.(ctx := h.ctx));
      case ValidateResponse(_) =>
        TransactionIdsAdvance(svc, rest, w);
      case PopulateTenantId =>
        TransactionIdsAdvance(svc, rest, w.(ctx := PopulateTenantIdStep(w.ctx)));
    }
  }

  /** The execution-context stage draws the id `w.nextTxn`, which no established context
      carries, and leaves the supply past it, so a request run afterwards draws another id. */
  lemma ExecContextDrawsFresh(svc: Services, rest: seq<Stage>, w: World)
    requires WellNumbered(w)
    ensures forall i :: 0 <= i < |w.contexts| ==> w.contexts[i].globalTransactionId != w.nextTxn
    ensures Run(svc, [ExecContext] + rest, w).world.nextTxn > w.nextTxn
    ensures WellNumbered(Run(svc, [ExecContext] + rest, w).world)
  {
    assert ([ExecContext] + rest)[1..] == rest;
    var inside := World(w.ctx, w.contexts + [ExecutionContext(w.nextTxn, ContextTenantId(w.ctx))], w.nextTxn + 1);
    TransactionIdsAdvance(svc, rest, inside);
  }

  /** Two requests run one after the other, each inside an execution-context stage, draw
      different transaction ids. */
  lemma ConsecutiveRequestsDistinctIds(svc: Services, rest1: seq<Stage>, rest2: seq<Stage>, w: World)
    requires WellNumbered(w)
    ensures var w2 := Run(svc, [ExecContext] + rest1, w).world;
      w2.nextTxn != w.nextTxn && WellNumbered(w2) && Run(svc, [ExecContext] + rest2, w2).world.nextTxn > w2.nextTxn
  {
    ExecContextDrawsFresh(svc, rest1, w);
    ExecContextDrawsFresh(svc, rest2, Run(svc, [ExecContext] + rest1, w).world);
  }

  /** The execution-context stage runs the rest of the list inside a fresh context (a new
      transaction id and the request's tenant), lets its error through unchanged, and on the
      way out, normally or by a throw, makes the previous stack current again. */
  lemma ExecContextScopes(svc: Services, rest: seq<Stage>, w: World)
    ensures var inside := World(w.ctx, w.contexts + [ExecutionContext(w.nextTxn, ContextTenantId(w.ctx))], w.nextTxn + 1);
      var o := Run(svc, [ExecContext] + rest, w);
      o.world.contexts == w.contexts &&
      o.error == Run(svc, rest, inside).error &&
      o.world.ctx == Run(svc, rest, inside).world.ctx
  {
    assert ([ExecContext] + rest)[1..] == rest;
  }

  /** A failing request validation writes status 400 and the violation report, throws
      nothing, and runs none of the later stages. */
  lemma ValidationFailureStops(svc: Services, schemas: ZodValidateRequestOptions, rest: seq<Stage>, w: World)
    requires Violations(w.ctx, schemas, svc.safeParse) != []
    ensures Run(svc, [ValidateRequest(schemas)] + rest, w) ==
      Outcome(w.(ctx := w.ctx.(status := 400,
        body := InvalidBody(ValidationErrorResponse("Validation failed", "Request validation failed", Violations(w.ctx, schemas, svc.safeParse))))), None)
  {
  }

  /** A passing request validation leaves status and body alone and calls `next` once. */
  lemma ValidationSuccessContinues(svc: Services, schemas: ZodValidateRequestOptions, rest: seq<Stage>, w: World)
    requires Violations(w.ctx, schemas, svc.safeParse) == []
    ensures Run(svc, [ValidateRequest(schemas)] + rest, w) == Run(svc, rest, w)
  {
    assert ([ValidateRequest(schemas)] + rest)[1..] == rest;
  }

  /** A handler that does not call `next` ends the chain: whatever follows it is never run. */
  lemma FinishingHandlerEndsChain(svc: Services, m: string, rest1: seq<Stage>, rest2: seq<Stage>, w: World)
    requires !svc.handler(m, w.ctx, w.contexts).step.CallNext?
    ensures Run(svc, [Handler(m)] + rest1, w) == Run(svc, [Handler(m)] + rest2, w)
  {
  }

  /** A core-tenant stage whose resolver fails writes nothing and calls no further stage. */
  lemma InjectFailureStops(svc: Services, rest: seq<Stage>, w: World)
    requires GetTenantCorePublicUuid(svc.authorization.resolver).Err?
    ensures Run(svc, [InjectCoreTenant] + rest, w) == Outcome(w, Some(GetTenantCorePublicUuid(svc.authorization.resolver).error))
  {
  }

  /** Without decorators a route runs `[ExecContext, Handler(m)]`: the handler sees the
      request's tenant in a fresh context on top of the stack, and afterwards the stack is
      as before. */
  lemma MinimalRouteRun(svc: Services, m: string, w: World)
    ensures var context := ExecutionContext(w.nextTxn, ContextTenantId(w.ctx));
      var h := svc.handler(m, w.ctx, w.contexts + [context]);
      Run(svc, [ExecContext, Handler(m)], w) ==
        Outcome(World(h.ctx, w.contexts, w.nextTxn + 1), if h.step.Raise? then Some(h.step.error) else None)
  {
    var context := ExecutionContext(w.nextTxn, ContextTenantId(w.ctx));
    var inside := World(w.ctx, w.contexts + [context], w.nextTxn + 1);
    assert [ExecContext, Handler(m)][1..] == [Handler(m)];
    assert [Handler(m)][1..] == [];
    var h := svc.handler(m, inside.ctx, inside.contexts);
    assert Run(svc, [Handler(m)], inside).world == inside.(ctx := h.ctx);
  }

  /** A list whose only stage is the handler ends with the handler's context and error. */
  lemma HandlerLast(svc: Services, m: string, w: World)
    ensures var h := svc.handler(m, w.ctx, w.contexts);
      Run(svc, [Handler(m)], w) == Outcome(w.(ctx := h.ctx), if h.step.Raise? then Some(h.step.error) else None)
  {
    assert [Handler(m)][1..] == [];
  }

  /** With @InjectCoreTenantId, the handler sees the core tenant both in `ctx.state` and in the
      execution context the first stage established, whatever tenant the request carried. */
  lemma InjectedTenantReachesHandler(svc: Services, m: string, w: World)
    requires GetTenantCorePublicUuid(svc.authorization.resolver).Ok?
    ensures var t := GetTenantCorePublicUuid(svc.authorization.resolver).value;
      var stack := w.contexts + [ExecutionContext(w.nextTxn, Some(t))];
      var c := w.ctx.(state := w.ctx.state.(tenantId := Some(t)));
      var h := svc.handler(m, c, stack);
      Run(svc, [ExecContext, InjectCoreTenant, Handler(m)], w) ==
        Outcome(World(h.ctx, w.contexts, w.nextTxn + 1), if h.step.Raise? then Some(h.step.error) else None)
  {
    var t := GetTenantCorePublicUuid(svc.authorization.resolver).value;
    var context := ExecutionContext(w.nextTxn, ContextTenantId(w.ctx));
    var inside := World(w.ctx, w.contexts + [context], w.nextTxn + 1);
    assert [ExecContext, InjectCoreTenant, Handler(m)][1..] == [InjectCoreTenant, Handler(m)];
    assert [InjectCoreTenant, Handler(m)][1..] == [Handler(m)];
    assert [Handler(m)][1..] == [];
    var injected := InjectTenant(inside, t);
    assert injected.contexts == w.contexts + [ExecutionContext(w.nextTxn, Some(t))];
    var h := svc.handler(m, injected.ctx, injected.contexts);
    var last := Run(svc, [Handler(m)], injected);
    HandlerLast(svc, m, injected);
    assert Run(svc, [InjectCoreTenant, Handler(m)], inside) == last;
  }

  /**
   * One request being run: the Koa context, the transaction-id supply, and the
   * execution context provider the stages set up and the handler reads.
   */
  class Invocation {
    var ctx: Ctx
    var nextTxn: nat
    const contexts: ExecutionContextProvider

    constructor (c: Ctx, provider: ExecutionContextProvider)
      ensures ctx == c && nextTxn == 0 && contexts == provider
    {
      ctx := c;
      nextTxn := 0;
      contexts := provider;
    }

    /** Everything the stages share, as a value. */
    function Snapshot(): World
      reads this, contexts
    {
      World(ctx, contexts.stack, nextTxn)
    }

    /** The core-tenant stage: resolve the core tenant, then write it into `ctx.state` and
        into the current execution context; on a resolver error write nothing. */
    method RunInjectCoreTenantId(resolver: TenantResolver) returns (err: Option<Error>)
      modifies this, contexts
      ensures GetTenantCorePublicUuid(resolver).Err? ==>
        err == Some(GetTenantCorePublicUuid(resolver).error) && Snapshot() == old(Snapshot())
      ensures GetTenantCorePublicUuid(resolver).Ok? ==>
        err.None? && Snapshot() == InjectTenant(old(Snapshot()), GetTenantCorePublicUuid(resolver).value)
    {
      var tenantId := GetTenantCorePublicUuid(resolver);
      if tenantId.Err? {
        return Some(tenantId.error);
      }
      ctx := ctx.(state := ctx.state.(tenantId := Some(tenantId.value)));
      contexts.SetTenantId(tenantId.value);
      return None;
    }

    /** The populate stage, writing `ctx.state.tenantId` in place. */
    method RunPopulateTenantId()
      modifies this
      ensures ctx == PopulateTenantIdStep(old(ctx)) && nextTxn == old(nextTxn)
    {
      var tenantId := Param(ctx, "tenantId");
      if Truthy(tenantId) {
        ctx := ctx.(state := ctx.state.(tenantId := tenantId));
      }
    }

    /** `compose(stages)(ctx)`, stage by stage, in place. */
    method Execute(svc: Services, stages: seq<Stage>) returns (err: Option<Error>)
      modifies this, contexts
      ensures Snapshot() == Run(svc, stages, old(Snapshot())).world
      ensures err == Run(svc, stages, old(Snapshot())).error
      decreases |stages|
    {
      if stages == [] {
        return None;
      }
      var rest := stages[1..];
      match stages[0]
      case ExecContext =>
        var context := ExecutionContext(nextTxn, ContextTenantId(ctx));
        nextTxn := nextTxn + 1;
        var previous := contexts.stack;
        contexts.Enter(context);
        err := Execute(svc, rest);
        contexts.Restore(previous);
      case InjectCoreTenant =>
        err := RunInjectCoreTenantId(svc.authorization.resolver);
        if err.None? {
          err := Execute(svc, rest);
        }
      case Authenticate =>
        var result := AuthenticateStep(svc.validateAuthentication, ctx);
        if result.Err? {
          return Some(result.error);
        }
        ctx := result.value;
        err := Execute(svc, rest);
      case ValidateRequest(schemas) =>
        var validationError := RequestValidation.ValidateRequest(ctx, schemas, svc.safeParse);
        if validationError.Some? {
          ctx := ctx.(status := 400, body := InvalidBody(validationError.value));
          return None;
        }
        err := Execute(svc, rest);
      case Authorize(options, system, resourceName, basePath) =>
        var denied := AuthorizeStep(svc.authorization, options, system, resourceName, basePath, ctx);
        if denied.Some? {
          return denied;
        }
        err := Execute(svc, rest);
      case Handler(m) =>
        var h := svc.handler(m, ctx, contexts.stack);
        ctx := h.ctx;
        match h.step {
          case Finish =>
            err := None;
          case Raise(e) =>
            err := Some(e);
          case CallNext =>
            err := Execute(svc, rest);
        }
      case ValidateResponse(_) =>
        err := Execute(svc, rest);
      case PopulateTenantId =>
        RunPopulateTenantId();
        err := Execute(svc, rest);
    }
  }
}
