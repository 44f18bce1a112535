/**
 * MagicRouter (MagicRouter.ts), the older router that pairs a koa-router with
 * an OpenAPI registry. A route config carries its own middlewares, handlers
 * and optional authentication and authorization configs; `buildHandlers`
 * turns it into the stage list handed to koa-router, `convertPath` turns its
 * OpenAPI path into a Koa path, and the router keeps the configs it was given
 * and the routers mounted under it. `registryAll` and `getAvailableActions`
 * walk that tree, composing every route's full path from the parent prefix,
 * the router's base path and the route's path.
 *
 * The validation, authentication and authorization middlewares it installs
 * come from modules that are not part of this model: their behaviour on a
 * context is supplied.
 */
module MagicRouting {
  import opened Wrappers
  import opened Errors
  import opened Http
  import opened Paths
  import opened Pipeline

  /** The verbs of a route config. */
  datatype RouteMethod = Get | Post | Put | Delete | Patch | Head | Options | Trace

  /** AuthenticationConfig: the two fields the router reads. */
  datatype AuthenticationConfig = AuthenticationConfig(someOneMethod: bool, onlyJwt: bool)

  /** AuthorizationConfig: an optional system id, the operation and the resource. */
  datatype AuthorizationConfig = AuthorizationConfig(systemId: Option<string>, operation: string, resource: string)

  /** MagicRouteConfig: the OpenAPI route (method, path) plus the router's own fields. Middlewares
      and handlers are named by what they are. */
  datatype MagicRouteConfig = MagicRouteConfig(
    verb: RouteMethod,
    path: string,
    name: string,
    middlewares: seq<string>,
    handlers: seq<string>,
    authentication: Option<AuthenticationConfig>,
    authorization: Option<AuthorizationConfig>)

  // ----- buildHandlers and the stages it returns -----

  /** The stages `buildHandlers` returns. `WrappedLast` holds the last handler, absent when the
      config has none. */
  datatype MagicStage =
    | RequestValidation
    | PathPatternStage
    | AuthenticationStage(authentication: AuthenticationConfig)
    | AuthorizationStage(authorization: AuthorizationConfig)
    | Custom(middleware: string)
    | PlainHandler(handler: string)
    | WrappedLast(last: Option<string>)
    | ResponseValidation

  /** What the installed middlewares and the route's own functions do to a context. */
  datatype MagicServices = MagicServices(
    requestValidation: Ctx -> HandlerResult,
    responseValidation: Ctx -> HandlerResult,
    authentication: (AuthenticationConfig, Ctx) -> HandlerResult,
    authorization: (AuthorizationConfig, Ctx) -> HandlerResult,
    /** A middleware or handler of the config, by name. */
    run: (string, Ctx) -> HandlerResult)

  /** `handlers.pop()` on a copy: every handler but the last, and the last one. */
  function AllButLast(hs: seq<string>): seq<string> {
    if hs == [] then [] else hs[..|hs| - 1]
  }

  function LastOf(hs: seq<string>): Option<string> {
    if hs == [] then None else Some(hs[|hs| - 1])
  }

  /** `buildHandlers(config)`. */
  function BuildHandlers(config: MagicRouteConfig): (r: seq<MagicStage>)
    ensures var a := if config.authentication.Some? then 1 else 0;
            var z := if config.authorization.Some? then 1 else 0;
            var m := |config.middlewares|;
            var hs := config.handlers;
            |r| == 4 + a + z + m + |AllButLast(hs)|
            && r[0] == RequestValidation && r[1] == PathPatternStage
            && (config.authentication.Some? ==> r[2] == AuthenticationStage(config.authentication.value))
            && (config.authorization.Some? ==> r[2 + a] == AuthorizationStage(config.authorization.value))
            && (forall k :: 0 <= k < m ==> r[2 + a + z + k] == Custom(config.middlewares[k]))
            && (forall k :: 0 <= k < |AllButLast(hs)| ==> r[2 + a + z + m + k] == PlainHandler(hs[k]))
            && r[|r| - 2] == WrappedLast(LastOf(hs)) && r[|r| - 1] == ResponseValidation
  {
    var head := HeadStages(config);
    var mws := seq(|config.middlewares|, k requires 0 <= k < |config.middlewares| => Custom(config.middlewares[k]));
    var rest := AllButLast(config.handlers);
    var plain := seq(|rest|, k requires 0 <= k < |rest| => PlainHandler(rest[k]));
    var tail := [WrappedLast(LastOf(config.handlers)), ResponseValidation];
    ConcatIndices(head, mws, plain, tail);
    head + mws + plain + tail
  }

  /** The stages before the custom middlewares: request validation, the path pattern, then
      authentication and authorization when configured. */
  function HeadStages(config: MagicRouteConfig): (r: seq<MagicStage>)
    ensures var a := if config.authentication.Some? then 1 else 0;
            var z := if config.authorization.Some? then 1 else 0;
            |r| == 2 + a + z && r[0] == RequestValidation && r[1] == PathPatternStage
            && (config.authentication.Some? ==> r[2] == AuthenticationStage(config.authentication.value))
            && (config.authorization.Some? ==> r[2 + a] == AuthorizationStage(config.authorization.value))
  {
    var auth := if config.authentication.Some? then [AuthenticationStage(config.authentication.value)] else [];
    var authz := if config.authorization.Some? then [AuthorizationStage(config.authorization.value)] else [];
    [RequestValidation, PathPatternStage] + auth + authz
  }

  /** Where the parts of a four-part concatenation sit. */
  lemma ConcatIndices<T>(p: seq<T>, q: seq<T>, s: seq<T>, t: seq<T>)
    ensures var r := p + q + s + t;
            |r| == |p| + |q| + |s| + |t|
            && (forall k :: 0 <= k < |p| ==> r[k] == p[k])
            && (forall k :: 0 <= k < |q| ==> r[|p| + k] == q[k])
            && (forall k :: 0 <= k < |s| ==> r[|p| + |q| + k] == s[k])
            && (forall k :: 0 <= k < |t| ==> r[|p| + |q| + |s| + k] == t[k])
  {
  }

  /** The pattern the path-pattern stage records: `ctx._matchedRoute || ctx.path`. */
  function PathPatternOf(c: Ctx): string {
    if Truthy(c.matchedRoute) then c.matchedRoute.value else c.path
  }

  /** What calling the last handler's missing function throws. */
  const MissingLastHandler: Error := Foreign("TypeError", "lastHandler is not a function", None, None)

  /** One stage on a context: its effect and whether it called `next`. */
  function Step(svc: MagicServices, st: MagicStage, c: Ctx): HandlerResult {
    match st
    case RequestValidation => svc.requestValidation(c)
    case PathPatternStage => HandlerResult(c.(state := c.state.(pathPattern := Some(PathPatternOf(c)))), CallNext)
    case AuthenticationStage(cfg) => svc.authentication(cfg, c)
    case AuthorizationStage(cfg) => svc.authorization(cfg, c)
    case Custom(n) => svc.run(n, c)
    case PlainHandler(n) => svc.run(n, c)
    case WrappedLast(None) => HandlerResult(c, Raise(MissingLastHandler))
    case WrappedLast(Some(n)) =>
      var r := svc.run(n, c);
      if r.step.Raise? then r else HandlerResult(r.ctx, CallNext)
    case ResponseValidation => svc.responseValidation(c)
  }

  /** What running a stage list leaves: the context, the error thrown, the stages entered in
      order, and whether the last stage called `next` (the chain ran to its end). */
  datatype MagicOutcome = MagicOutcome(ctx: Ctx, error: Option<Error>, trace: seq<MagicStage>, completed: bool)

  /** koa-compose over the stage list: a stage that does not call `next` ends the chain, and an
      error ends it and travels out. */
  function RunMagic(svc: MagicServices, stages: seq<MagicStage>, c: Ctx): (r: MagicOutcome)
    ensures r.completed ==> r.error.None? && r.trace == stages
    ensures r.trace <= stages
    decreases |stages|
  {
    if stages == [] then MagicOutcome(c, None, [], true)
    else
      var h := Step(svc, stages[0], c);
      match h.step
      case CallNext =>
        var r := RunMagic(svc, stages[1..], h.ctx);
        assert [stages[0]] + stages[1..] == stages;
        r.(trace := [stages[0]] + r.trace)
      case Finish => MagicOutcome(h.ctx, None, [stages[0]], false)
      case Raise(e) => MagicOutcome(h.ctx, Some(e), [stages[0]], false)
  }

  /** Running `a + b` runs `a`, and runs `b` after it exactly when `a` ran to its end. */
  lemma {:induction false} RunMagicAppend(svc: MagicServices, a: seq<MagicStage>, b: seq<MagicStage>, c: Ctx)
    ensures var ra := RunMagic(svc, a, c);
            var rb := RunMagic(svc, b, ra.ctx);
            RunMagic(svc, a + b, c) == if ra.completed then rb.(trace := a + rb.trace) else ra
    decreases |a|
  {
    if a == [] {
      assert a + b == b;
    } else {
      assert (a + b)[0] == a[0];
      assert (a + b)[1..] == a[1..] + b;
      var h := Step(svc, a[0], c);
      if h.step.CallNext? {
        RunMagicAppend(svc, a[1..], b, h.ctx);
        assert [a[0]] + a[1..] == a;
      }
    }
  }

  /** The path-pattern stage records the matched pattern, or the path when koa-router matched
      none, and always goes on. */
  lemma PathPatternRecorded(svc: MagicServices, rest: seq<MagicStage>, c: Ctx)
    ensures var d := c.(state := c.state.(pathPattern := Some(if Truthy(c.matchedRoute) then c.matchedRoute.value else c.path)));
            var r := RunMagic(svc, rest, d);
            RunMagic(svc, [PathPatternStage] + rest, c) == r.(trace := [PathPatternStage] + r.trace)
  {
    assert ([PathPatternStage] + rest)[1..] == rest;
  }

  /** The wrapped last handler goes on whether or not the handler calls its own `next`; only an
      error stops it. */
  lemma {:induction false} WrappedLastGoesOn(svc: MagicServices, h: string, rest: seq<MagicStage>, c: Ctx)
    requires !svc.run(h, c).step.Raise?
    ensures var r := RunMagic(svc, rest, svc.run(h, c).ctx);
            RunMagic(svc, [WrappedLast(Some(h))] + rest, c) == r.(trace := [WrappedLast(Some(h))] + r.trace)
  {
    assert ([WrappedLast(Some(h))] + rest)[1..] == rest;
  }

  /** A plain handler that does not call `next` ends the chain: the handlers after it do not run. */
  lemma PlainHandlerCanStop(svc: MagicServices, h: string, rest: seq<MagicStage>, c: Ctx)
    requires svc.run(h, c).step.Finish?
    ensures RunMagic(svc, [PlainHandler(h)] + rest, c) == MagicOutcome(svc.run(h, c).ctx, None, [PlainHandler(h)], false)
  {
  }

  /** Response validation always follows the route's last handler: once the stages before the
      wrapped last handler have all called `next` and the last handler does not throw, response
      validation runs on what the handler left, even if the handler never calls `next`. */
  lemma ResponseValidationFollowsLastHandler(svc: MagicServices, config: MagicRouteConfig, c: Ctx)
    requires config.handlers != []
    ensures var stages := BuildHandlers(config);
            var pre := stages[..|stages| - 2];
            var rp := RunMagic(svc, pre, c);
            var last := config.handlers[|config.handlers| - 1];
            rp.completed && !svc.run(last, rp.ctx).step.Raise? ==>
              var r := RunMagic(svc, stages, c);
              r.trace == stages && r.ctx == svc.responseValidation(svc.run(last, rp.ctx).ctx).ctx
  {
    var stages := BuildHandlers(config);
    var last := config.handlers[|config.handlers| - 1];
    var pre := stages[..|stages| - 2];
    assert stages[|stages| - 2..] == [WrappedLast(Some(last)), ResponseValidation];
    assert stages == pre + stages[|stages| - 2..];
    LastTwoStages(svc, pre, last, c);
  }

  /** A list ending in the wrapped last handler and response validation: once the stages before
      them have run to their end and the handler does not throw, both run. */
  lemma LastTwoStages(svc: MagicServices, pre: seq<MagicStage>, last: string, c: Ctx)
    ensures var rp := RunMagic(svc, pre, c);
            rp.completed && !svc.run(last, rp.ctx).step.Raise? ==>
              var r := RunMagic(svc, pre + [WrappedLast(Some(last)), ResponseValidation], c);
              r.trace == pre + [WrappedLast(Some(last)), ResponseValidation]
              && r.ctx == svc.responseValidation(svc.run(last, rp.ctx).ctx).ctx
  {
    var post := [WrappedLast(Some(last)), ResponseValidation];
    RunMagicAppend(svc, pre, post, c);
    var rp := RunMagic(svc, pre, c);
    if rp.completed && !svc.run(last, rp.ctx).step.Raise? {
      assert post == [WrappedLast(Some(last))] + [ResponseValidation];
      WrappedLastGoesOn(svc, last, [ResponseValidation], rp.ctx);
    }
  }

  /** A config without handlers fails when its chain reaches the missing last handler. */
  lemma NoHandlersThrows(svc: MagicServices, rest: seq<MagicStage>, c: Ctx)
    ensures RunMagic(svc, [WrappedLast(None)] + rest, c).error == Some(MissingLastHandler)
  {
  }

  /** `convertPath` agrees with the Swagger processor: on a path with no `{`, the OpenAPI path
      the processor writes converts back to the Koa path it came from. */
  lemma ConvertPathRoundTrip(koaPath: string)
    requires forall i :: 0 <= i < |koaPath| ==> koaPath[i] != '{'
    ensures KoaPath(SwaggerPath(koaPath)) == koaPath
  {
    KoaPathInvertsSwaggerPath(koaPath);
  }

  // ----- the router tree -----

  /** A router as its walks see it: its base path, its route configs in registration order and
      its children with their mount prefixes, in mount order. */
  datatype RouterTree = RouterTree(basePath: string, routes: seq<MagicRouteConfig>, children: seq<Mount>)
  datatype Mount = Mount(pathPrefix: string, router: RouterTree)

  // ----- registryAll -----

  /** One `registry.registerPath` call: the route with its full path, and whether the bearer
      security requirement was set on it. */
  datatype Registration = Registration(route: MagicRouteConfig, path: string, bearerAuth: bool)

  /** The route as `registryAll` registers it under the full prefix `fullPrefix`. */
  function RegistrationOf(fullPrefix: string, route: MagicRouteConfig): (r: Registration)
    ensures r.route == route && r.path == fullPrefix + route.path
    ensures r.bearerAuth <==> route.authentication.Some? && (route.authentication.value.someOneMethod || route.authentication.value.onlyJwt)
  {
    Registration(route, fullPrefix + route.path,
                 route.authentication.Some? && (route.authentication.value.someOneMethod || route.authentication.value.onlyJwt))
  }

  /** A router's own routes registered in order. */
  function OwnRegistrations(fullPrefix: string, routes: seq<MagicRouteConfig>): (r: seq<Registration>)
    ensures |r| == |routes|
    ensures forall k :: 0 <= k < |routes| ==> r[k] == RegistrationOf(fullPrefix, routes[k])
  {
    if routes == [] then []
    else OwnRegistrations(fullPrefix, routes[..|routes| - 1]) + [RegistrationOf(fullPrefix, routes[|routes| - 1])]
  }

  /** `registryAll(parentPrefix)`: the router's own routes, then each child's walk with the full
      prefix followed by the child's mount prefix. */
  function Registrations(parentPrefix: string, t: RouterTree): seq<Registration>
    decreases t, |t.children| + 1
  {
    OwnRegistrations(parentPrefix + t.basePath, t.routes) + ChildRegistrations(parentPrefix + t.basePath, t, 0)
  }

  function ChildRegistrations(fullPrefix: string, t: RouterTree, i: nat): seq<Registration>
    decreases t, |t.children| - i
  {
    if i >= |t.children| then []
    else
      assert t.children[i] in t.children;
      Registrations(fullPrefix + t.children[i].pathPrefix, t.children[i].router) + ChildRegistrations(fullPrefix, t, i + 1)
  }

  /** The router's own routes come first, each under parent prefix + base path + route path. */
  lemma OwnRoutesRegisteredFirst(parentPrefix: string, t: RouterTree, k: nat)
    requires k < |t.routes|
    ensures k < |Registrations(parentPrefix, t)|
    ensures Registrations(parentPrefix, t)[k] == RegistrationOf(parentPrefix + t.basePath, t.routes[k])
    ensures Registrations(parentPrefix, t)[k].path == parentPrefix + t.basePath + t.routes[k].path
  {
  }

  /** A child's walk is part of its parent's. */
  lemma {:induction false} ChildWalkIncluded(fullPrefix: string, t: RouterTree, i: nat, j: nat, x: Registration)
    requires j <= i < |t.children|
    requires x in Registrations(fullPrefix + t.children[i].pathPrefix, t.children[i].router)
    ensures x in ChildRegistrations(fullPrefix, t, j)
    decreases i - j
  {
    if j < i {
      ChildWalkIncluded(fullPrefix, t, i, j + 1, x);
    }
  }

  /** A route of a mounted child is registered under the parent's full prefix, the mount prefix,
      the child's base path and the route's path. */
  lemma ChildRouteRegistered(parentPrefix: string, t: RouterTree, i: nat, k: nat)
    requires i < |t.children| && k < |t.children[i].router.routes|
    ensures var c := t.children[i];
            Registration(c.router.routes[k], parentPrefix + t.basePath + c.pathPrefix + c.router.basePath + c.router.routes[k].path,
                         RegistrationOf("", c.router.routes[k]).bearerAuth)
              in Registrations(parentPrefix, t)
  {
    var c := t.children[i];
    var fp := parentPrefix + t.basePath;
    OwnRoutesRegisteredFirst(fp + c.pathPrefix, c.router, k);
    var x := Registrations(fp + c.pathPrefix, c.router)[k];
    ChildWalkIncluded(fp, t, i, 0, x);
    assert fp + c.pathPrefix + c.router.basePath + c.router.routes[k].path
        == parentPrefix + t.basePath + c.pathPrefix + c.router.basePath + c.router.routes[k].path;
  }

  // ----- getAvailableActions -----

  /** One route's contribution: its system, full path, resource and operation. */
  datatype Action = Action(systemId: string, pathPattern: string, resourceType: string, operation: string)

  /** An entry of a system's availableActions. */
  datatype AvailableAction = AvailableAction(resourceType: string, pathPattern: string, operations: seq<string>)

  /** An entry of the accumulator. */
  datatype SystemActions = SystemActions(systemId: string, availableActions: seq<AvailableAction>)

  /** The action of a route with an authorization config; the route's own system id, when
      given, overrides the default. */
  function ActionsOfRoute(systemId: string, fullPrefix: string, route: MagicRouteConfig): (r: seq<Action>)
    ensures route.authorization.None? ==> r == []
    ensures route.authorization.Some? ==> r == [Action(route.authorization.value.systemId.GetOr(systemId), fullPrefix + route.path,
                                                       route.authorization.value.resource, route.authorization.value.operation)]
  {
    match route.authorization
    case None => []
    case Some(a) => [Action(a.systemId.GetOr(systemId), fullPrefix + route.path, a.resource, a.operation)]
  }

  /** The actions of a router's own routes, in order. */
  function OwnActions(systemId: string, fullPrefix: string, routes: seq<MagicRouteConfig>): seq<Action> {
    if routes == [] then []
    else OwnActions(systemId, fullPrefix, routes[..|routes| - 1]) + ActionsOfRoute(systemId, fullPrefix, routes[|routes| - 1])
  }

  /** The actions of a router tree in visiting order: own routes, then each child. */
  function TreeActions(systemId: string, parentPrefix: string, t: RouterTree): seq<Action>
    decreases t, |t.children| + 1
  {
    OwnActions(systemId, parentPrefix + t.basePath, t.routes) + ChildActions(systemId, parentPrefix + t.basePath, t, 0)
  }

  function ChildActions(systemId: string, fullPrefix: string, t: RouterTree, i: nat): seq<Action>
    decreases t, |t.children| - i
  {
    if i >= |t.children| then []
    else
      assert t.children[i] in t.children;
      TreeActions(systemId, fullPrefix + t.children[i].pathPrefix, t.children[i].router) + ChildActions(systemId, fullPrefix, t, i + 1)
  }

  /** `accumulator.find((s) => s.systemId === id)`: the first entry of that system. */
  function FindSystem(acc: seq<SystemActions>, id: string): (r: Option<nat>)
    ensures r.Some? ==> r.value < |acc| && acc[r.value].systemId == id && forall k :: 0 <= k < r.value ==> acc[k].systemId != id
    ensures r.None? ==> forall k :: 0 <= k < |acc| ==> acc[k].systemId != id
  {
    if acc == [] then None
    else if acc[0].systemId == id then Some(0)
    else match FindSystem(acc[1..], id)
      case None => None
      case Some(k) => Some(k + 1)
  }

  /** `availableActions.find((a) => a.pathPattern === path)`: the first entry of that path. */
  function FindAction(actions: seq<AvailableAction>, path: string): (r: Option<nat>)
    ensures r.Some? ==> r.value < |actions| && actions[r.value].pathPattern == path
                        && forall k :: 0 <= k < r.value ==> actions[k].pathPattern != path
    ensures r.None? ==> forall k :: 0 <= k < |actions| ==> actions[k].pathPattern != path
  {
    if actions == [] then None
    else if actions[0].pathPattern == path then Some(0)
    else match FindAction(actions[1..], path)
      case None => None
      case Some(k) => Some(k + 1)
  }

  /** `if (!operations.includes(op)) operations.push(op)`. */
  function AddOp(ops: seq<string>, op: string): (r: seq<string>)
    ensures op in r && (forall x :: x in r <==> x in ops || x == op)
    ensures op in ops ==> r == ops
    ensures op !in ops ==> r == ops + [op]
  {
    if op in ops then ops else ops + [op]
  }

  /** One route's step of the walk: find or add its system, find or add its path entry (with
      the route's resource), then add the operation unless it is there. */
  function AddAction(acc: seq<SystemActions>, a: Action): seq<SystemActions> {
    var found := FindSystem(acc, a.systemId);
    var acc1 := if found.None? then acc + [SystemActions(a.systemId, [])] else acc;
    var i := if found.None? then |acc| else found.value;
    var actions := acc1[i].availableActions;
    var foundAction := FindAction(actions, a.pathPattern);
    var actions1 := if foundAction.None? then actions + [AvailableAction(a.resourceType, a.pathPattern, [])] else actions;
    var j := if foundAction.None? then |actions| else foundAction.value;
    var e := actions1[j];
    acc1[i := acc1[i].(availableActions := actions1[j := e.(operations := AddOp(e.operations, a.operation))])]
  }

  /** The walk's steps one after the other. */
  function AddAll(acc: seq<SystemActions>, actions: seq<Action>): seq<SystemActions> {
    if actions == [] then acc
    else AddAction(AddAll(acc, actions[..|actions| - 1]), actions[|actions| - 1])
  }

  lemma {:induction false} AddAllAppend(acc: seq<SystemActions>, a: seq<Action>, b: seq<Action>)
    ensures AddAll(acc, a + b) == AddAll(AddAll(acc, a), b)
    decreases |b|
  {
    if b == [] {
      assert a + b == a;
    } else {
      assert (a + b)[..|a + b| - 1] == a + b[..|b| - 1];
      AddAllAppend(acc, a, b[..|b| - 1]);
    }
  }

  /** The entry for system `s` and path `p`: the first system entry with that id, and in it the
      first action entry with that path. */
  function Entry(acc: seq<SystemActions>, s: string, p: string): Option<AvailableAction> {
    match FindSystem(acc, s)
    case None => None
    case Some(i) =>
      match FindAction(acc[i].availableActions, p)
      case None => None
      case Some(j) => Some(acc[i].availableActions[j])
  }

  /** An entry after one more route of its system and path: a new entry starts with that route's
      resource and no operations; the operation is then added unless present. */
  function Joined(e: Option<AvailableAction>, a: Action): AvailableAction {
    var base := if e.Some? then e.value else AvailableAction(a.resourceType, a.pathPattern, []);
    base.(operations := AddOp(base.operations, a.operation))
  }

  lemma FindSystemSameIds(a: seq<SystemActions>, b: seq<SystemActions>, id: string)
    requires |a| == |b| && forall k :: 0 <= k < |a| ==> a[k].systemId == b[k].systemId
    ensures FindSystem(a, id) == FindSystem(b, id)
  {
  }

  lemma FindActionSamePaths(a: seq<AvailableAction>, b: seq<AvailableAction>, p: string)
    requires |a| == |b| && forall k :: 0 <= k < |a| ==> a[k].pathPattern == b[k].pathPattern
    ensures FindAction(a, p) == FindAction(b, p)
  {
  }

  lemma FindSystemAppend(acc: seq<SystemActions>, x: SystemActions, id: string)
    ensures FindSystem(acc + [x], id) ==
      if FindSystem(acc, id).Some? then FindSystem(acc, id) else if x.systemId == id then Some(|acc|) else None
  {
    var r := FindSystem(acc + [x], id);
    assert forall k :: 0 <= k < |acc| ==> (acc + [x])[k] == acc[k];
    if FindSystem(acc, id).Some? {
    } else if x.systemId == id {
      assert (acc + [x])[|acc|] == x;
    }
  }

  lemma FindActionAppend(actions: seq<AvailableAction>, x: AvailableAction, p: string)
    ensures FindAction(actions + [x], p) ==
      if FindAction(actions, p).Some? then FindAction(actions, p) else if x.pathPattern == p then Some(|actions|) else None
  {
    var r := FindAction(actions + [x], p);
    assert forall k :: 0 <= k < |actions| ==> (actions + [x])[k] == actions[k];
    if FindAction(actions, p).Some? {
    } else if x.pathPattern == p {
      assert (actions + [x])[|actions|] == x;
    }
  }

  /** One step changes only the entry of its own system and path, and that one by `Joined`. */
  lemma AddActionEntry(acc: seq<SystemActions>, a: Action, s: string, p: string)
    ensures Entry(AddAction(acc, a), s, p) ==
      if s == a.systemId && p == a.pathPattern then Some(Joined(Entry(acc, s, p), a)) else Entry(acc, s, p)
  {
    var found := FindSystem(acc, a.systemId);
    var acc1 := if found.None? then acc + [SystemActions(a.systemId, [])] else acc;
    var i := if found.None? then |acc| else found.value;
    var actions := acc1[i].availableActions;
    var foundAction := FindAction(actions, a.pathPattern);
    var actions1 := if foundAction.None? then actions + [AvailableAction(a.resourceType, a.pathPattern, [])] else actions;
    var j := if foundAction.None? then |actions| else foundAction.value;
    var e := actions1[j];
    var actions2 := actions1[j := e.(operations := AddOp(e.operations, a.operation))];
    var r := acc1[i := acc1[i].(availableActions := actions2)];
    assert r == AddAction(acc, a);
    FindSystemAppend(acc, SystemActions(a.systemId, []), s);
    FindSystemSameIds(r, acc1, s);
    FindActionAppend(actions, AvailableAction(a.resourceType, a.pathPattern, []), p);
    FindActionSamePaths(actions2, actions1, p);
    if s == a.systemId {
      assert FindSystem(r, s) == Some(i);
      if found.None? {
        assert actions == [];
      }
    }
  }

  /** An entry after a sequence of steps, from the entry before them. */
  function FoldEntry(e: Option<AvailableAction>, actions: seq<Action>, s: string, p: string): Option<AvailableAction> {
    if actions == [] then e
    else
      var before := FoldEntry(e, actions[..|actions| - 1], s, p);
      var a := actions[|actions| - 1];
      if a.systemId == s && a.pathPattern == p then Some(Joined(before, a)) else before
  }

  /** The walk, seen from one system and path: only that system's routes on that path matter. */
  lemma {:induction false} AddAllEntry(acc: seq<SystemActions>, actions: seq<Action>, s: string, p: string)
    ensures Entry(AddAll(acc, actions), s, p) == FoldEntry(Entry(acc, s, p), actions, s, p)
    decreases |actions|
  {
    if actions != [] {
      AddAllEntry(acc, actions[..|actions| - 1], s, p);
      AddActionEntry(AddAll(acc, actions[..|actions| - 1]), actions[|actions| - 1], s, p);
    }
  }

  /** The operations of the routes with system `s` and path `p`, in order. */
  function MatchingOps(actions: seq<Action>, s: string, p: string): seq<string> {
    if actions == [] then []
    else
      var a := actions[|actions| - 1];
      MatchingOps(actions[..|actions| - 1], s, p) + (if a.systemId == s && a.pathPattern == p then [a.operation] else [])
  }

  /** `ops` with each of `more` appended unless already present. */
  function AddOps(ops: seq<string>, more: seq<string>): seq<string> {
    if more == [] then ops else AddOp(AddOps(ops, more[..|more| - 1]), more[|more| - 1])
  }

  function OpsOf(e: Option<AvailableAction>): seq<string> {
    if e.Some? then e.value.operations else []
  }

  /** The operations of an entry after the walk: its operations before, then the operations of
      its routes in the order the walk meets them, each once. */
  lemma {:induction false} WalkOperations(acc: seq<SystemActions>, actions: seq<Action>, s: string, p: string)
    ensures OpsOf(Entry(AddAll(acc, actions), s, p)) == AddOps(OpsOf(Entry(acc, s, p)), MatchingOps(actions, s, p))
  {
    AddAllEntry(acc, actions, s, p);
    FoldOperations(Entry(acc, s, p), actions, s, p);
  }

  lemma {:induction false} FoldOperations(e: Option<AvailableAction>, actions: seq<Action>, s: string, p: string)
    ensures OpsOf(FoldEntry(e, actions, s, p)) == AddOps(OpsOf(e), MatchingOps(actions, s, p))
    decreases |actions|
  {
    if actions != [] {
      var init := actions[..|actions| - 1];
      var a := actions[|actions| - 1];
      FoldOperations(e, init, s, p);
      var m := MatchingOps(init, s, p);
      if a.systemId == s && a.pathPattern == p {
        assert MatchingOps(actions, s, p) == m + [a.operation];
        assert (m + [a.operation])[..|m|] == m;
      } else {
        assert MatchingOps(actions, s, p) == m + [];
        assert m + [] == m;
      }
    }
  }

  /** Operations are kept in first-seen order with no repeats: what there was stays in front,
      and every added operation appears once. */
  lemma {:induction false} AddOpsProperties(ops: seq<string>, more: seq<string>)
    ensures ops <= AddOps(ops, more)
    ensures forall x :: x in AddOps(ops, more) <==> x in ops || x in more
    ensures NoRepeats(ops) ==> NoRepeats(AddOps(ops, more))
    decreases |more|
  {
    if more != [] {
      var init := more[..|more| - 1];
      AddOpsProperties(ops, init);
      assert more == init + [more[|more| - 1]];
    }
  }

  predicate NoRepeats(s: seq<string>) {
    forall i, j :: 0 <= i < j < |s| ==> s[i] != s[j]
  }

  /** The first route of a system and path gives the entry its resource type; later routes on
      the same path do not change it. */
  lemma {:induction false} FirstRouteResource(acc: seq<SystemActions>, actions: seq<Action>, s: string, p: string, k: nat)
    requires Entry(acc, s, p).None?
    requires k < |actions| && actions[k].systemId == s && actions[k].pathPattern == p
    requires forall m :: 0 <= m < k ==> !(actions[m].systemId == s && actions[m].pathPattern == p)
    ensures Entry(AddAll(acc, actions), s, p).Some?
    ensures Entry(AddAll(acc, actions), s, p).value.resourceType == actions[k].resourceType
  {
    AddAllEntry(acc, actions, s, p);
    FoldResource(actions, s, p, k);
  }

  lemma {:induction false} FoldResource(actions: seq<Action>, s: string, p: string, k: nat)
    requires k < |actions| && actions[k].systemId == s && actions[k].pathPattern == p
    requires forall m :: 0 <= m < k ==> !(actions[m].systemId == s && actions[m].pathPattern == p)
    ensures FoldEntry(None, actions, s, p).Some?
    ensures FoldEntry(None, actions, s, p).value.resourceType == actions[k].resourceType
    decreases |actions|
  {
    var init := actions[..|actions| - 1];
    if k < |actions| - 1 {
      FoldResource(init, s, p, k);
    } else {
      FoldNone(init, s, p);
    }
  }

  lemma {:induction false} FoldNone(actions: seq<Action>, s: string, p: string)
    requires forall m :: 0 <= m < |actions| ==> !(actions[m].systemId == s && actions[m].pathPattern == p)
    ensures FoldEntry(None, actions, s, p) == None
    decreases |actions|
  {
    if actions != [] {
      FoldNone(actions[..|actions| - 1], s, p);
    }
  }

  /** Grouping: one entry per system, one action entry per path within a system, and no
      operation twice in an entry. */
  predicate Grouped(acc: seq<SystemActions>) {
    (forall i, j :: 0 <= i < j < |acc| ==> acc[i].systemId != acc[j].systemId)
    && (forall i :: 0 <= i < |acc| ==> PathsDistinct(acc[i].availableActions))
  }

  predicate PathsDistinct(actions: seq<AvailableAction>) {
    (forall i, j :: 0 <= i < j < |actions| ==> actions[i].pathPattern != actions[j].pathPattern)
    && (forall i :: 0 <= i < |actions| ==> NoRepeats(actions[i].operations))
  }

  lemma AppendSystemGrouped(acc: seq<SystemActions>, id: string)
    requires Grouped(acc) && FindSystem(acc, id).None?
    ensures Grouped(acc + [SystemActions(id, [])])
  {
    assert forall k :: 0 <= k < |acc| ==> (acc + [SystemActions(id, [])])[k] == acc[k];
  }

  lemma AppendActionDistinct(actions: seq<AvailableAction>, x: AvailableAction)
    requires PathsDistinct(actions) && FindAction(actions, x.pathPattern).None? && NoRepeats(x.operations)
    ensures PathsDistinct(actions + [x])
  {
    assert forall k :: 0 <= k < |actions| ==> (actions + [x])[k] == actions[k];
  }

  lemma AddOpNoRepeats(ops: seq<string>, op: string)
    requires NoRepeats(ops)
    ensures NoRepeats(AddOp(ops, op))
  {
    if op !in ops {
      assert forall k :: 0 <= k < |ops| ==> (ops + [op])[k] == ops[k];
    }
  }

  lemma UpdateOpsDistinct(actions: seq<AvailableAction>, j: nat, ops: seq<string>)
    requires PathsDistinct(actions) && j < |actions| && NoRepeats(ops)
    ensures PathsDistinct(actions[j := actions[j].(operations := ops)])
  {
  }

  lemma UpdateSystemGrouped(acc: seq<SystemActions>, i: nat, actions: seq<AvailableAction>)
    requires Grouped(acc) && i < |acc| && PathsDistinct(actions)
    ensures Grouped(acc[i := acc[i].(availableActions := actions)])
  {
  }

  /** One step keeps the accumulator grouped. */
  lemma AddActionGrouped(acc: seq<SystemActions>, a: Action)
    requires Grouped(acc)
    ensures Grouped(AddAction(acc, a))
  {
    var found := FindSystem(acc, a.systemId);
    var acc1 := if found.None? then acc + [SystemActions(a.systemId, [])] else acc;
    var i := if found.None? then |acc| else found.value;
    if found.None? {
      AppendSystemGrouped(acc, a.systemId);
    }
    var actions := acc1[i].availableActions;
    var foundAction := FindAction(actions, a.pathPattern);
    var x := AvailableAction(a.resourceType, a.pathPattern, []);
    var actions1 := if foundAction.None? then actions + [x] else actions;
    if foundAction.None? {
      AppendActionDistinct(actions, x);
    }
    var j := if foundAction.None? then |actions| else foundAction.value;
    var e := actions1[j];
    AddOpNoRepeats(e.operations, a.operation);
    var actions2 := actions1[j := e.(operations := AddOp(e.operations, a.operation))];
    UpdateOpsDistinct(actions1, j, AddOp(e.operations, a.operation));
    UpdateSystemGrouped(acc1, i, actions2);
    assert AddAction(acc, a) == acc1[i := acc1[i].(availableActions := actions2)];
  }

  /** The whole walk keeps the accumulator grouped; the empty accumulator is grouped. */
  lemma {:induction false} AddAllGrouped(acc: seq<SystemActions>, actions: seq<Action>)
    requires Grouped(acc)
    ensures Grouped(AddAll(acc, actions))
    decreases |actions|
  {
    if actions != [] {
      AddAllGrouped(acc, actions[..|actions| - 1]);
      AddActionGrouped(AddAll(acc, actions[..|actions| - 1]), actions[|actions| - 1]);
    }
  }

  /** Routes without an authorization config contribute no action. */
  lemma {:induction false} UnauthorizedRoutesIgnored(systemId: string, fullPrefix: string, routes: seq<MagicRouteConfig>)
    requires forall k :: 0 <= k < |routes| ==> routes[k].authorization.None?
    ensures OwnActions(systemId, fullPrefix, routes) == []
  {
    if routes != [] {
      UnauthorizedRoutesIgnored(systemId, fullPrefix, routes[..|routes| - 1]);
    }
  }

  /** Every authorized route of a router contributes its action, under the full path. */
  lemma {:induction false} AuthorizedRouteContributes(systemId: string, fullPrefix: string, routes: seq<MagicRouteConfig>, k: nat)
    requires k < |routes| && routes[k].authorization.Some?
    ensures var z := routes[k].authorization.value;
            Action(z.systemId.GetOr(systemId), fullPrefix + routes[k].path, z.resource, z.operation) in OwnActions(systemId, fullPrefix, routes)
  {
    var init := routes[..|routes| - 1];
    if k < |routes| - 1 {
      AuthorizedRouteContributes(systemId, fullPrefix, init, k);
    }
  }

  /** One more route of the list adds its actions at the end. */
  lemma OwnActionsStep(systemId: string, fullPrefix: string, routes: seq<MagicRouteConfig>, i: nat)
    requires i < |routes|
    ensures OwnActions(systemId, fullPrefix, routes[..i + 1]) == OwnActions(systemId, fullPrefix, routes[..i]) + ActionsOfRoute(systemId, fullPrefix, routes[i])
  {
    assert routes[..i + 1][..i] == routes[..i];
  }

  lemma AddAllSingle(acc: seq<SystemActions>, a: Action)
    ensures AddAll(acc, [a]) == AddAction(acc, a)
  {
    assert [a][..0] == [];
  }

  /** The step of the child loop of `getAvailableActions`: one child's walk done. */
  lemma ChildLoopStep(systemId: string, fullPrefix: string, t: RouterTree, j: nat, r: seq<SystemActions>, afterOwn: seq<SystemActions>)
    requires j < |t.children|
    requires AddAll(r, ChildActions(systemId, fullPrefix, t, j)) == AddAll(afterOwn, ChildActions(systemId, fullPrefix, t, 0))
    ensures var c := t.children[j];
            var r1 := AddAll(r, TreeActions(systemId, fullPrefix + c.pathPrefix, c.router));
            AddAll(r1, ChildActions(systemId, fullPrefix, t, j + 1)) == AddAll(afterOwn, ChildActions(systemId, fullPrefix, t, 0))
  {
    var c := t.children[j];
    AddAllAppend(r, TreeActions(systemId, fullPrefix + c.pathPrefix, c.router), ChildActions(systemId, fullPrefix, t, j + 1));
  }

  /** After both loops the whole tree's walk is done. */
  lemma ChildLoopEnd(systemId: string, parentPrefix: string, t: RouterTree, accumulator: seq<SystemActions>, afterOwn: seq<SystemActions>, r: seq<SystemActions>)
    requires afterOwn == AddAll(accumulator, OwnActions(systemId, parentPrefix + t.basePath, t.routes))
    requires r == AddAll(afterOwn, ChildActions(systemId, parentPrefix + t.basePath, t, 0))
    ensures r == AddAll(accumulator, TreeActions(systemId, parentPrefix, t))
  {
    var fp := parentPrefix + t.basePath;
    AddAllAppend(accumulator, OwnActions(systemId, fp, t.routes), ChildActions(systemId, fp, t, 0));
  }

  // ----- the router -----

  /** What a verb method hands to koa-router: the verb, the Koa path and the stage list. */
  datatype KoaRoute = KoaRoute(verb: RouteMethod, path: string, stages: seq<MagicStage>)

  /** The argument of `useMagic`: a mount prefix, or the router itself. */
  datatype UseArgument = PrefixArgument(prefix: string) | RouterArgument(router: MagicRouter)

  class MagicRouter {
    var basePath: string
    var routeConfigs: seq<MagicRouteConfig>
    var childRouters: seq<Mount>
    /** The routes given to the underlying koa-router, in order. */
    var koaRoutes: seq<KoaRoute>

    /** `new MagicRouter(opts)`: the base path is `opts.prefix`, or "" without one. */
    constructor(prefix: Option<string>)
      ensures basePath == prefix.GetOr("")
      ensures routeConfigs == [] && childRouters == [] && koaRoutes == []
    {
      basePath := prefix.GetOr("");
      routeConfigs := [];
      childRouters := [];
      koaRoutes := [];
    }

    /** The router as its walks see it. */
    function Tree(): (t: RouterTree)
      reads this
      ensures t.basePath == basePath && t.routes == routeConfigs && t.children == childRouters
    {
      RouterTree(basePath, routeConfigs, childRouters)
    }

    /** `registerRoute(method, config)`: the config, with the method set, is appended to
        routeConfigs; returned are the Koa path and the stage list. */
    method RegisterRoute(m: RouteMethod, config: MagicRouteConfig) returns (koaPath: string, allHandlers: seq<MagicStage>)
      modifies this
      ensures routeConfigs == old(routeConfigs) + [config.(verb := m)]
      ensures koaPath == KoaPath(config.path)
      ensures allHandlers == BuildHandlers(config.(verb := m))
      ensures basePath == old(basePath) && childRouters == old(childRouters) && koaRoutes == old(koaRoutes)
    {
      var configLocal := config.(verb := m);
      allHandlers := BuildHandlers(configLocal);
      koaPath := KoaPath(configLocal.path);
      routeConfigs := routeConfigs + [configLocal];
    }

    /** `get`/`post`/`put`/`delete`/`patch(config)`: register, then hand the Koa path and the
        stages to koa-router. */
    method AddRoute(m: RouteMethod, config: MagicRouteConfig)
      modifies this
      ensures routeConfigs == old(routeConfigs) + [config.(verb := m)]
      ensures koaRoutes == old(koaRoutes) + [KoaRoute(m, KoaPath(config.path), BuildHandlers(config.(verb := m)))]
      ensures basePath == old(basePath) && childRouters == old(childRouters)
    {
      var koaPath, allHandlers := RegisterRoute(m, config);
      koaRoutes := koaRoutes + [KoaRoute(m, koaPath, allHandlers)];
    }

    method Get(config: MagicRouteConfig)
      modifies this
      ensures routeConfigs == old(routeConfigs) + [config.(verb := RouteMethod.Get)]
      ensures koaRoutes == old(koaRoutes) + [KoaRoute(RouteMethod.Get, KoaPath(config.path), BuildHandlers(config.(verb := RouteMethod.Get)))]
      ensures basePath == old(basePath) && childRouters == old(childRouters)
    {
      AddRoute(RouteMethod.Get, config);
    }

    method Post(config: MagicRouteConfig)
      modifies this
      ensures routeConfigs == old(routeConfigs) + [config.(verb := RouteMethod.Post)]
      ensures koaRoutes == old(koaRoutes) + [KoaRoute(RouteMethod.Post, KoaPath(config.path), BuildHandlers(config.(verb := RouteMethod.Post)))]
      ensures basePath == old(basePath) && childRouters == old(childRouters)
    {
      AddRoute(RouteMethod.Post, config);
    }

    method Put(config: MagicRouteConfig)
      modifies this
      ensures routeConfigs == old(routeConfigs) + [config.(verb := RouteMethod.Put)]
      ensures koaRoutes == old(koaRoutes) + [KoaRoute(RouteMethod.Put, KoaPath(config.path), BuildHandlers(config.(verb := RouteMethod.Put)))]
      ensures basePath == old(basePath) && childRouters == old(childRouters)
    {
      AddRoute(RouteMethod.Put, config);
    }

    method Delete(config: MagicRouteConfig)
      modifies this
      ensures routeConfigs == old(routeConfigs) + [config.(verb := RouteMethod.Delete)]
      ensures koaRoutes == old(koaRoutes) + [KoaRoute(RouteMethod.Delete, KoaPath(config.path), BuildHandlers(config.(verb := RouteMethod.Delete)))]
      ensures basePath == old(basePath) && childRouters == old(childRouters)
    {
      AddRoute(RouteMethod.Delete, config);
    }

    method Patch(config: MagicRouteConfig)
      modifies this
      ensures routeConfigs == old(routeConfigs) + [config.(verb := RouteMethod.Patch)]
      ensures koaRoutes == old(koaRoutes) + [KoaRoute(RouteMethod.Patch, KoaPath(config.path), BuildHandlers(config.(verb := RouteMethod.Patch)))]
      ensures basePath == old(basePath) && childRouters == old(childRouters)
    {
      AddRoute(RouteMethod.Patch, config);
    }

    /** `useMagic(prefix, router)` mounts the router under the prefix, `useMagic(router)` under
        ""; a prefix without a router mounts nothing. The child is recorded as it is when
        mounted. */
    method UseMagic(prefixOrRouter: UseArgument, router: Option<MagicRouter>)
      modifies this
      ensures prefixOrRouter.PrefixArgument? && router.Some? ==>
        childRouters == old(childRouters) + [Mount(prefixOrRouter.prefix, old(router.value.Tree()))]
      ensures prefixOrRouter.RouterArgument? ==>
        childRouters == old(childRouters) + [Mount("", old(prefixOrRouter.router.Tree()))]
      ensures prefixOrRouter.PrefixArgument? && router.None? ==> childRouters == old(childRouters)
      ensures basePath == old(basePath) && routeConfigs == old(routeConfigs) && koaRoutes == old(koaRoutes)
    {
      match prefixOrRouter
      case PrefixArgument(p) =>
        if router.Some? {
          var child := router.value.Tree();
          childRouters := childRouters + [Mount(p, child)];
        }
      case RouterArgument(r) =>
        var child := r.Tree();
        childRouters := childRouters + [Mount("", child)];
    }

    /** `registryAll(parentPrefix)`: the paths registered, in order. */
    method RegistryAll(parentPrefix: string) returns (registered: seq<Registration>)
      ensures registered == Registrations(parentPrefix, Tree())
    {
      var fullPrefix := parentPrefix + basePath;
      registered := [];
      var i := 0;
      while i < |routeConfigs|
        invariant 0 <= i <= |routeConfigs|
        invariant registered == OwnRegistrations(fullPrefix, routeConfigs[..i])
      {
        var route := routeConfigs[i];
        registered := registered + [RegistrationOf(fullPrefix, route)];
        assert routeConfigs[..i + 1][..i] == routeConfigs[..i];
        i := i + 1;
      }
      assert routeConfigs[..i] == routeConfigs;
      var j := 0;
      var own := registered;
      while j < |childRouters|
        invariant 0 <= j <= |childRouters|
        invariant registered + ChildRegistrations(fullPrefix, Tree(), j) == own + ChildRegistrations(fullPrefix, Tree(), 0)
      {
        var c := childRouters[j];
        registered := registered + Registrations(fullPrefix + c.pathPrefix, c.router);
        j := j + 1;
      }
    }

    /** The first loop of `getAvailableActions`: this router's own authorized routes. */
    method CollectOwnActions(systemId: string, accumulator: seq<SystemActions>, fullPrefix: string) returns (r: seq<SystemActions>)
      ensures r == AddAll(accumulator, OwnActions(systemId, fullPrefix, routeConfigs))
    {
      r := accumulator;
      var i := 0;
      while i < |routeConfigs|
        invariant 0 <= i <= |routeConfigs|
        invariant r == AddAll(accumulator, OwnActions(systemId, fullPrefix, routeConfigs[..i]))
      {
        var route := routeConfigs[i];
        OwnActionsStep(systemId, fullPrefix, routeConfigs, i);
        AddAllAppend(accumulator, OwnActions(systemId, fullPrefix, routeConfigs[..i]), ActionsOfRoute(systemId, fullPrefix, route));
        if route.authorization.Some? {
          var z := route.authorization.value;
          var a := Action(z.systemId.GetOr(systemId), fullPrefix + route.path, z.resource, z.operation);
          AddAllSingle(r, a);
          r := AddAction(r, a);
        }
        i := i + 1;
      }
      assert routeConfigs[..i] == routeConfigs;
    }

    /** `getAvailableActions(systemId, accumulator, parentPrefix)`: the accumulator after the
        walk of this router's tree, its own routes first and then each child's walk under the
        full prefix followed by the child's mount prefix. */
    method GetAvailableActions(systemId: string, accumulator: seq<SystemActions>, parentPrefix: string) returns (r: seq<SystemActions>)
      ensures r == AddAll(accumulator, TreeActions(systemId, parentPrefix, Tree()))
    {
      var fullPrefix := parentPrefix + basePath;
      var t := Tree();
      var afterOwn := CollectOwnActions(systemId, accumulator, fullPrefix);
      r := CollectChildActions(systemId, fullPrefix, t, afterOwn);
      ChildLoopEnd(systemId, parentPrefix, t, accumulator, afterOwn, r);
    }
  }

  /** The second loop of `getAvailableActions`: each child's walk in mount order, under the full
      prefix followed by the child's mount prefix. */
  method CollectChildActions(systemId: string, fullPrefix: string, t: RouterTree, afterOwn: seq<SystemActions>) returns (r: seq<SystemActions>)
    ensures r == AddAll(afterOwn, ChildActions(systemId, fullPrefix, t, 0))
  {
    r := afterOwn;
    var j := 0;
    while j < |t.children|
      invariant 0 <= j <= |t.children|
      invariant AddAll(r, ChildActions(systemId, fullPrefix, t, j)) == AddAll(afterOwn, ChildActions(systemId, fullPrefix, t, 0))
    {
      var c := t.children[j];
      ChildLoopStep(systemId, fullPrefix, t, j, r, afterOwn);
      r := AddAll(r, TreeActions(systemId, fullPrefix + c.pathPrefix, c.router));
      j := j + 1;
    }
    assert ChildActions(systemId, fullPrefix, t, j) == [];
  }

  /** A fresh walk is grouped: one entry per system, one per path, no repeated operation. */
  lemma WalkIsGrouped(systemId: string, parentPrefix: string, t: RouterTree)
    ensures Grouped(AddAll([], TreeActions(systemId, parentPrefix, t)))
  {
    AddAllGrouped([], TreeActions(systemId, parentPrefix, t));
  }
}
