/**
 * RegisterRouter (src/infrastructure/koa/registerRouter.provider.ts): it
 * builds each route's stage list, keeps it under the key `<verb>:<full path>`,
 * documents the route in the OpenAPI registry, and runs a stored list on
 * request. Registering with koa-router itself is outside this model; the lists
 * it is given are the ones kept here.
 */
module Router {
  import opened Wrappers
  import opened Strings
  import opened Errors
  import opened Paths
  import opened Http
  import opened Metadata
  import opened Decorators
  import opened Stereotypes
  import opened Swagger
  import opened Pipeline
  import opened Builders

  /** The key a route's stage list is stored under. */
  function RouteKey(verb: string, path: string): string {
    verb + ":" + path
  }

  /** No verb name contains the key separator. */
  lemma VerbNameHasNoColon(v: HttpMethod)
    ensures forall i :: 0 <= i < |v.Name()| ==> v.Name()[i] != ':'
  {
  }

  /** Route keys of verbs are distinct for distinct routes: the key determines the verb and
      the path. */
  lemma RouteKeyInjective(v1: HttpMethod, p1: string, v2: HttpMethod, p2: string)
    requires RouteKey(v1.Name(), p1) == RouteKey(v2.Name(), p2)
    ensures v1 == v2 && p1 == p2
  {
    VerbNameHasNoColon(v1);
    VerbNameHasNoColon(v2);
    ColonJoinInjective(v1.Name(), p1, v2.Name(), p2);
  }

  /** `contextPath + ...` in JavaScript: an unset context path is the text `undefined`. */
  function ContextPathText(contextPath: Option<string>): string {
    if contextPath.Some? then contextPath.value else "undefined"
  }

  /** The full path of a route: context path, base path and route path, slashes normalised. */
  function FullPath(contextPath: Option<string>, basePath: string, routePath: string): string {
    NormalizePath(ContextPathText(contextPath) + basePath + routePath)
  }

  /** What RegisterRouter holds: the stage lists by route key and the documented paths. */
  datatype Routes = Routes(handlers: map<string, seq<Stage>>, paths: seq<RouteConfig>)

  /** `registerRoute` on values: nothing for a name without a function; a builder's error with
      nothing changed; otherwise the list stored under the route's key (replacing any earlier
      one) and the route documented. */
  function RegisterRouteSpec(st: Routes, md: MethodMetadata, docs: OwnStore<SwaggerDocOptions>, cls: ControllerClass,
                             m: string, route: RouteMetadata, fullPath: string): (Routes, Option<Error>)
  {
    if m !in cls.methods then (st, None)
    else match Handlers(md, cls, m)
      case Err(e) => (st, Some(e))
      case Ok(l) =>
        (Routes(st.handlers[RouteKey(route.verb.Name(), fullPath) := l],
                Documented(st.paths, Options(cls), InheritedLookup(cls.docAncestry), Collected(docs, cls.prototypes), m, route, fullPath)),
         None)
  }

  /** The `forEach` of `registerController` on values, stopping at the first error. */
  function RegisterAll(st: Routes, md: MethodMetadata, docs: OwnStore<SwaggerDocOptions>, cls: ControllerClass,
                       contextPath: Option<string>, basePath: string, entries: seq<(string, RouteMetadata)>): (Routes, Option<Error>)
    decreases |entries|
  {
    if entries == [] then (st, None)
    else
      var (m, route) := entries[0];
      var step := RegisterRouteSpec(st, md, docs, cls, m, route, FullPath(contextPath, basePath, route.path));
      if step.1.Some? then step
      else RegisterAll(step.0, md, docs, cls, contextPath, basePath, entries[1..])
  }

  /** RegisterAll unfolded once. */
  lemma RegisterAllStep(st: Routes, md: MethodMetadata, docs: OwnStore<SwaggerDocOptions>, cls: ControllerClass,
                        contextPath: Option<string>, basePath: string, entries: seq<(string, RouteMetadata)>)
    requires entries != []
    ensures var step := RegisterRouteSpec(st, md, docs, cls, entries[0].0, entries[0].1, FullPath(contextPath, basePath, entries[0].1.path));
      RegisterAll(st, md, docs, cls, contextPath, basePath, entries) ==
        if step.1.Some? then step else RegisterAll(step.0, md, docs, cls, contextPath, basePath, entries[1..])
  {
  }

  /** `registerController` on values: nothing for a class without controller options. */
  function RegisterControllerSpec(st: Routes, md: MethodMetadata, docs: OwnStore<SwaggerDocOptions>, cls: ControllerClass,
                                  contextPath: Option<string>, entries: seq<(string, RouteMetadata)>): (Routes, Option<Error>)
  {
    if Options(cls).None? then (st, None)
    else RegisterAll(st, md, docs, cls, contextPath, Options(cls).value.basePath, entries)
  }

  /** `Object.entries(routes)`: each route once, under its method name, in some order. */
  predicate Enumerates(entries: seq<(string, RouteMetadata)>, routes: map<string, RouteMetadata>) {
    (forall i, j :: 0 <= i < j < |entries| ==> entries[i].0 != entries[j].0) &&
    (forall i :: 0 <= i < |entries| ==> entries[i].0 in routes && routes[entries[i].0] == entries[i].1) &&
    (forall k :: k in routes ==> exists i :: 0 <= i < |entries| && entries[i].0 == k)
  }

  /** After a registration without error, the stored keys are the earlier keys and the key of
      every entry whose name has a function, and nothing else. */
  lemma {:induction false} RegisterAllKeys(st: Routes, md: MethodMetadata, docs: OwnStore<SwaggerDocOptions>, cls: ControllerClass,
                                           contextPath: Option<string>, basePath: string, entries: seq<(string, RouteMetadata)>, k: string)
    requires RegisterAll(st, md, docs, cls, contextPath, basePath, entries).1.None?
    ensures k in RegisterAll(st, md, docs, cls, contextPath, basePath, entries).0.handlers <==>
      k in st.handlers ||
      exists i :: 0 <= i < |entries| && entries[i].0 in cls.methods &&
        k == RouteKey(entries[i].1.verb.Name(), FullPath(contextPath, basePath, entries[i].1.path))
    decreases |entries|
  {
    if entries != [] {
      var (m, route) := entries[0];
      var step := RegisterRouteSpec(st, md, docs, cls, m, route, FullPath(contextPath, basePath, route.path));
      RegisterAllKeys(step.0, md, docs, cls, contextPath, basePath, entries[1..], k);
      var key := RouteKey(route.verb.Name(), FullPath(contextPath, basePath, route.path));
      assert k in step.0.handlers <==> k in st.handlers || (m in cls.methods && k == key);
      if exists i :: 0 <= i < |entries[1..]| && entries[1..][i].0 in cls.methods &&
          k == RouteKey(entries[1..][i].1.verb.Name(), FullPath(contextPath, basePath, entries[1..][i].1.path)) {
        var i :| 0 <= i < |entries[1..]| && entries[1..][i].0 in cls.methods &&
          k == RouteKey(entries[1..][i].1.verb.Name(), FullPath(contextPath, basePath, entries[1..][i].1.path));
        assert entries[i + 1] == entries[1..][i];
      }
      if exists i :: 0 <= i < |entries| && entries[i].0 in cls.methods &&
          k == RouteKey(entries[i].1.verb.Name(), FullPath(contextPath, basePath, entries[i].1.path)) {
        var i :| 0 <= i < |entries| && entries[i].0 in cls.methods &&
          k == RouteKey(entries[i].1.verb.Name(), FullPath(contextPath, basePath, entries[i].1.path));
        if i > 0 {
          assert entries[1..][i - 1] == entries[i];
        }
      }
    }
  }

  /** The number of entries whose name has a function. */
  function Registrable(cls: ControllerClass, entries: seq<(string, RouteMetadata)>): (n: nat)
    ensures n <= |entries|
    decreases |entries|
  {
    if entries == [] then 0 else (if entries[0].0 in cls.methods then 1 else 0) + Registrable(cls, entries[1..])
  }

  /** A successful registration of a class with options documents one more path per entry
      whose name has a function, after the paths documented before. */
  lemma {:induction false} RegisterAllPaths(st: Routes, md: MethodMetadata, docs: OwnStore<SwaggerDocOptions>, cls: ControllerClass,
                                            contextPath: Option<string>, basePath: string, entries: seq<(string, RouteMetadata)>)
    requires Options(cls).Some?
    requires RegisterAll(st, md, docs, cls, contextPath, basePath, entries).1.None?
    ensures var after := RegisterAll(st, md, docs, cls, contextPath, basePath, entries).0.paths;
      |after| == |st.paths| + Registrable(cls, entries) && after[..|st.paths|] == st.paths
    decreases |entries|
  {
    if entries != [] {
      var (m, route) := entries[0];
      var step := RegisterRouteSpec(st, md, docs, cls, m, route, FullPath(contextPath, basePath, route.path));
      RegisterAllPaths(step.0, md, docs, cls, contextPath, basePath, entries[1..]);
      var after := RegisterAll(st, md, docs, cls, contextPath, basePath, entries).0.paths;
      assert after[..|step.0.paths|] == step.0.paths;
      assert step.0.paths[..|st.paths|] == st.paths;
      assert after[..|st.paths|] == after[..|step.0.paths|][..|st.paths|];
    }
  }

  /** The list stored for a route is the one its builders produced, until a later route
      with the same key replaces it. */
  lemma RegisteredRouteIsFound(st: Routes, md: MethodMetadata, docs: OwnStore<SwaggerDocOptions>, cls: ControllerClass,
                               m: string, route: RouteMetadata, fullPath: string)
    requires m in cls.methods && Handlers(md, cls, m).Ok?
    ensures var after := RegisterRouteSpec(st, md, docs, cls, m, route, fullPath).0;
      RouteKey(route.verb.Name(), fullPath) in after.handlers &&
      after.handlers[RouteKey(route.verb.Name(), fullPath)] == Handlers(md, cls, m).value &&
      forall k :: k in st.handlers && k != RouteKey(route.verb.Name(), fullPath) ==> k in after.handlers && after.handlers[k] == st.handlers[k]
  {
  }

  /** Two routes of a class differing in verb or full path never share a key, so neither
      replaces the other. */
  lemma DistinctRoutesKeepBoth(st: Routes, md: MethodMetadata, docs: OwnStore<SwaggerDocOptions>, cls: ControllerClass,
                               m1: string, r1: RouteMetadata, f1: string, m2: string, r2: RouteMetadata, f2: string)
    requires m1 in cls.methods && Handlers(md, cls, m1).Ok?
    requires m2 in cls.methods && Handlers(md, cls, m2).Ok?
    requires r1.verb != r2.verb || f1 != f2
    ensures var after := RegisterRouteSpec(RegisterRouteSpec(st, md, docs, cls, m1, r1, f1).0, md, docs, cls, m2, r2, f2).0;
      after.handlers[RouteKey(r1.verb.Name(), f1)] == Handlers(md, cls, m1).value &&
      after.handlers[RouteKey(r2.verb.Name(), f2)] == Handlers(md, cls, m2).value
  {
    if RouteKey(r1.verb.Name(), f1) == RouteKey(r2.verb.Name(), f2) {
      RouteKeyInjective(r1.verb, f1, r2.verb, f2);
    }
  }

  /** The route registry. */
  class RegisterRouter {
    var routeHandlers: map<string, seq<Stage>>
    const registry: OpenApiRegistry

    constructor (registry: OpenApiRegistry)
      ensures routeHandlers == map[] && this.registry == registry
    {
      routeHandlers := map[];
      this.registry := registry;
    }

    /** What the router holds, as a value. */
    function Snapshot(): Routes
      reads this, registry
    {
      Routes(routeHandlers, registry.paths)
    }

    /** One group's loop: every builder in order, its stage pushed when it gives one. */
    method RunBuilders(handlers: seq<Stage>, group: seq<Builder>, md: MethodMetadata, cls: ControllerClass, m: string)
      returns (r: Result<seq<Stage>, Error>)
      ensures r == RunGroup(Ok(handlers), group, md, cls, m)
    {
      var acc := handlers;
      for i := 0 to |group|
        invariant RunGroup(Ok(acc), group[i..], md, cls, m) == RunGroup(Ok(handlers), group, md, cls, m)
      {
        assert group[i..][0] == group[i] && group[i..][1..] == group[i + 1..];
        var middleware := Build(group[i], md, cls, m);
        if middleware.Err? {
          RunGroupErr(middleware.error, group[i + 1..], md, cls, m);
          return Err(middleware.error);
        }
        if middleware.value.Some? {
          acc := acc + [middleware.value.value];
        } else {
          assert acc + Contributed(middleware.value) == acc;
        }
      }
      assert group[|group|..] == [];
      return Ok(acc);
    }

    /** `buildHandlers`: the groups in order, the bound method after authorization. */
    method BuildHandlers(md: MethodMetadata, cls: ControllerClass, m: string) returns (r: Result<seq<Stage>, Error>)
      ensures r == Handlers(md, cls, m)
    {
      r := RunBuilders([], ExecutionContextBuilders, md, cls, m);
      if r.Ok? {
        r := RunBuilders(r.value, AuthenticationBuilders, md, cls, m);
      } else {
        RunGroupErr(r.error, AuthenticationBuilders, md, cls, m);
      }
      if r.Ok? {
        r := RunBuilders(r.value, ValidationRequestBuilders, md, cls, m);
      } else {
        RunGroupErr(r.error, ValidationRequestBuilders, md, cls, m);
      }
      assert r == BeforeAuthorization(md, cls, m);
      if r.Ok? {
        r := RunBuilders(r.value, AuthorizationBuilders, md, cls, m);
      } else {
        RunGroupErr(r.error, AuthorizationBuilders, md, cls, m);
      }
      if r.Ok? && m in cls.methods {
        r := Ok(r.value + [Handler(m)]);
      }
      if r.Ok? {
        r := RunBuilders(r.value, ValidationResponseBuilders, md, cls, m);
      } else {
        RunGroupErr(r.error, ValidationResponseBuilders, md, cls, m);
      }
    }

    /** `registerRoute`. */
    method RegisterRoute(md: MethodMetadata, docs: OwnStore<SwaggerDocOptions>, cls: ControllerClass,
                         m: string, route: RouteMetadata, fullPath: string) returns (err: Option<Error>)
      modifies this, registry
      ensures (Snapshot(), err) == RegisterRouteSpec(old(Snapshot()), md, docs, cls, m, route, fullPath)
    {
      if m !in cls.methods {
        return None;
      }
      var handlers := BuildHandlers(md, cls, m);
      if handlers.Err? {
        return Some(handlers.error);
      }
      var routeKey := RouteKey(route.verb.Name(), fullPath);
      routeHandlers := routeHandlers[routeKey := handlers.value];
      ProcessSwaggerRoute(registry, Options(cls), InheritedLookup(cls.docAncestry), Collected(docs, cls.prototypes), m, route, fullPath);
      return None;
    }

    /** `getRouteHandlers(path, method)`: the list stored under `<verb>:<path>`, if any. */
    function GetRouteHandlers(path: string, verb: string): (r: Option<seq<Stage>>)
      reads this
      ensures r.Some? <==> RouteKey(verb, path) in routeHandlers
      ensures r.Some? ==> r.value == routeHandlers[RouteKey(verb, path)]
    {
      var routeKey := RouteKey(verb, path);
      if routeKey in routeHandlers then Some(routeHandlers[routeKey]) else None
    }

    /** `executeRoute(path, method, ctx)` with the method as `verb`: an unknown route is an error and runs nothing;
        a known one runs its list with koa-compose semantics. */
    method ExecuteRoute(svc: Services, path: string, verb: string, inv: Invocation) returns (err: Option<Error>)
      modifies inv, inv.contexts
      ensures GetRouteHandlers(path, verb).None? ==>
        err == Some(Plain("Route not found: " + verb + " " + path)) && inv.Snapshot() == old(inv.Snapshot())
      ensures GetRouteHandlers(path, verb).Some? ==>
        var outcome := Run(svc, GetRouteHandlers(path, verb).value, old(inv.Snapshot()));
        inv.Snapshot() == outcome.world && err == outcome.error
    {
      var handlers := GetRouteHandlers(path, verb);
      if handlers.None? {
        return Some(Plain("Route not found: " + verb + " " + path));
      }
      err := inv.Execute(svc, handlers.value);
    }

    /** `registerController`: with controller options, every route of the class in `entries`
        order, each under its normalised full path; a builder error stops the registration. */
    method RegisterController(md: MethodMetadata, docs: OwnStore<SwaggerDocOptions>, cls: ControllerClass,
                              contextPath: Option<string>, entries: seq<(string, RouteMetadata)>) returns (err: Option<Error>)
      requires Enumerates(entries, Collected(md.routes, cls.prototypes))
      modifies this, registry
      ensures (Snapshot(), err) == RegisterControllerSpec(old(Snapshot()), md, docs, cls, contextPath, entries)
    {
      var controllerOptions := Options(cls);
      if controllerOptions.None? {
        return None;
      }
      var basePath := controllerOptions.value.basePath;
      ghost var start := Snapshot();
      for i := 0 to |entries|
        invariant RegisterAll(Snapshot(), md, docs, cls, contextPath, basePath, entries[i..]) ==
          RegisterAll(start, md, docs, cls, contextPath, basePath, entries)
      {
        assert entries[i..][0] == entries[i] && entries[i..][1..] == entries[i + 1..];
        RegisterAllStep(Snapshot(), md, docs, cls, contextPath, basePath, entries[i..]);
        var (methodName, route) := entries[i];
        var fullPath := FullPath(contextPath, basePath, route.path);
        err := RegisterRoute(md, docs, cls, methodName, route, fullPath);
        if err.Some? {
          return err;
        }
      }
      assert entries[|entries|..] == [];
      return None;
    }
  }

  /** A route registered from a full path can be executed through that path. */
  lemma ExecuteFindsRegistered(st: Routes, md: MethodMetadata, docs: OwnStore<SwaggerDocOptions>, cls: ControllerClass,
                               m: string, route: RouteMetadata, fullPath: string)
    requires m in cls.methods
    ensures var (after, err) := RegisterRouteSpec(st, md, docs, cls, m, route, fullPath);
      err.None? ==> (RouteKey(route.verb.Name(), fullPath) in after.handlers &&
        after.handlers[RouteKey(route.verb.Name(), fullPath)] == Handlers(md, cls, m).value)
  {
  }

  /** Every full path is normalised: non-empty, no doubled slash, and no trailing slash
      except for the root. */
  lemma FullPathNormalised(contextPath: Option<string>, basePath: string, routePath: string)
    ensures var p := FullPath(contextPath, basePath, routePath);
      p != [] && NoDoubleSlash(p) && (p[|p| - 1] == '/' <==> p == "/") && NormalizePath(p) == p
  {
    NormalizeIdempotent(ContextPathText(contextPath) + basePath + routePath);
  }

  /** With the default context path `/`, a base path and route path join with one slash:
      `/` + `/api/realm/:tenantId/accounts` + `/:id` is `/api/realm/:tenantId/accounts/:id`
      up to the slashes, every other character kept in order. */
  lemma FullPathKeepsText(contextPath: Option<string>, basePath: string, routePath: string)
    ensures Segments(FullPath(contextPath, basePath, routePath)) ==
      Segments(ContextPathText(contextPath)) + Segments(basePath) + Segments(routePath)
  {
    NormalizeKeepsSegments(ContextPathText(contextPath) + basePath + routePath);
    SegmentsAppend(ContextPathText(contextPath) + basePath, routePath);
    SegmentsAppend(ContextPathText(contextPath), basePath);
  }
}
