/**
 * The stage builders (the `build*` functions under
 * src/infrastructure/koa/middleware) and the order in which RegisterRouter
 * applies them (src/infrastructure/koa/registerRouter.provider.ts:47-117).
 * A builder looks at a controller class's metadata for one method and
 * returns a stage, nothing, or (the authorization builder) an error.
 */
module Builders {
  import opened Wrappers
  import opened Errors
  import opened Http
  import opened Metadata
  import opened Decorators
  import opened Stereotypes
  import opened Swagger
  import opened Pipeline

  /** A controller class as registration sees it. */
  datatype ControllerClass = ControllerClass(
    /** `controllerClass.name`. */
    name: string,
    /** The prototype chain method metadata is merged over, the class's own prototype first. */
    prototypes: seq<Proto>,
    /** The @Controller options stored on the class and on each ancestor constructor, nearest first. */
    ancestry: seq<Option<ControllerOptions>>,
    /** The @SwaggerDocController options stored on the class and on each ancestor, nearest first. */
    docAncestry: seq<Option<SwaggerControllerDoc>>,
    /** The names under which the controller instance has a function. */
    methods: set<string>)

  /** `getControllerOptions(controllerClass)`. */
  function Options(cls: ControllerClass): Option<ControllerOptions> {
    GetControllerOptions(cls.ancestry)
  }

  /** The list a builder's result contributes: its stage, or nothing. */
  function Contributed(o: Option<Stage>): (s: seq<Stage>)
    ensures o.Some? ==> s == [o.value]
    ensures o.None? ==> s == []
  {
    if o.Some? then [o.value] else []
  }

  /** `buildInjectCoreTenantId`: a stage exactly for a method marked `true`. */
  function InjectCoreTenantIdStage(md: MethodMetadata, cls: ControllerClass, m: string): (r: Option<Stage>)
    ensures r.Some? <==> m in Collected(md.injectCoreTenantId, cls.prototypes) && Collected(md.injectCoreTenantId, cls.prototypes)[m]
    ensures r.Some? ==> r.value == InjectCoreTenant
  {
    var metadata := Collected(md.injectCoreTenantId, cls.prototypes);
    if m !in metadata || !metadata[m] then None else Some(InjectCoreTenant)
  }

  /** `buildAuthenticationMiddleware`: a stage when the lookup finds something. The lookup is
      given the method name *itself*, so an empty name looks up the whole (always truthy) map. */
  function AuthenticationStage(md: MethodMetadata, cls: ControllerClass, m: string): (r: Option<Stage>)
    ensures r.Some? ==> r.value == Authenticate
  {
    match GetAuthenticationMetadata(md.authentication, cls.prototypes, Some(m))
    case Entry(e) => if e.Some? then Some(Authenticate) else None
    case Whole(_) => Some(Authenticate)
  }

  /** `buildZodValidateRequest`: a stage carrying the method's schemas, when it has an entry. */
  function ZodValidateRequestStage(md: MethodMetadata, cls: ControllerClass, m: string): (r: Option<Stage>)
    ensures r.Some? <==> m in Collected(md.zodRequest, cls.prototypes)
    ensures r.Some? ==> r.value == ValidateRequest(Collected(md.zodRequest, cls.prototypes)[m])
  {
    var validations := Collected(md.zodRequest, cls.prototypes);
    if m !in validations then None else Some(ValidateRequest(validations[m]))
  }

  /** `buildZodValidateResponse`: a stage carrying the method's response schemas, when it has an entry. */
  function ZodValidateResponseStage(md: MethodMetadata, cls: ControllerClass, m: string): (r: Option<Stage>)
    ensures r.Some? <==> m in Collected(md.zodResponse, cls.prototypes)
    ensures r.Some? ==> r.value == ValidateResponse(Collected(md.zodResponse, cls.prototypes)[m])
  {
    var metadata := Collected(md.zodResponse, cls.prototypes);
    if m !in metadata then None else Some(ValidateResponse(metadata[m]))
  }

  /** The class's options name a (non-empty) system and resource. */
  predicate HasSystemAndResource(options: Option<ControllerOptions>) {
    options.Some? && Truthy(options.value.system) && Truthy(options.value.resource)
  }

  /** The error `buildAuthorize` throws for a class without system or resource. */
  function MissingSystemOrResource(className: string): Error {
    Plain("Controller " + className + " must define 'system' and 'resource' in @Controller options when using @Authorize")
  }

  /** `buildAuthorize`: nothing for a method without @Authorize; an error when the class lacks
      system or resource; otherwise a stage bound to the entry and the class's options. */
  function AuthorizeStage(md: MethodMetadata, cls: ControllerClass, m: string): (r: Result<Option<Stage>, Error>)
    ensures r == Ok(None) <==> m !in Collected(md.authorize, cls.prototypes)
    ensures r.Err? <==> m in Collected(md.authorize, cls.prototypes) && !HasSystemAndResource(Options(cls))
    ensures r.Err? ==> r.error == MissingSystemOrResource(cls.name)
    ensures r.Ok? && r.value.Some? ==>
      var o := Options(cls).value;
      r.value.value == Authorize(Collected(md.authorize, cls.prototypes)[m], o.system.value, o.resource.value, o.basePath)
  {
    var metadata := Collected(md.authorize, cls.prototypes);
    if m !in metadata then Ok(None)
    else
      var controllerOptions := Options(cls);
      if !HasSystemAndResource(controllerOptions) then Err(MissingSystemOrResource(cls.name))
      else Ok(Some(Authorize(metadata[m], controllerOptions.value.system.value, controllerOptions.value.resource.value, controllerOptions.value.basePath)))
  }

  /** The builder functions a group may hold. */
  datatype Builder =
    | BuildExecutionContext
    | BuildInjectCoreTenantId
    | BuildAuthentication
    | BuildZodValidateRequest
    | BuildAuthorize
    | BuildZodValidateResponse
    | BuildPopulateTenantId

  /** Calling one builder. */
  function Build(b: Builder, md: MethodMetadata, cls: ControllerClass, m: string): Result<Option<Stage>, Error> {
    match b
    case BuildExecutionContext => Ok(Some(ExecContext))
    case BuildInjectCoreTenantId => Ok(InjectCoreTenantIdStage(md, cls, m))
    case BuildAuthentication => Ok(AuthenticationStage(md, cls, m))
    case BuildZodValidateRequest => Ok(ZodValidateRequestStage(md, cls, m))
    case BuildAuthorize => AuthorizeStage(md, cls, m)
    case BuildZodValidateResponse => Ok(ZodValidateResponseStage(md, cls, m))
    case BuildPopulateTenantId => Ok(Some(PopulateTenantId))
  }

  /** The five builder groups RegisterRouter holds. `buildPopulateTenantId` is in none. */
  const ExecutionContextBuilders: seq<Builder> := [BuildExecutionContext, BuildInjectCoreTenantId]
  const AuthenticationBuilders: seq<Builder> := [BuildAuthentication]
  const ValidationRequestBuilders: seq<Builder> := [BuildZodValidateRequest]
  const AuthorizationBuilders: seq<Builder> := [BuildAuthorize]
  const ValidationResponseBuilders: seq<Builder> := [BuildZodValidateResponse]

  /** One iteration of a group's loop: push the builder's stage if it gives one; a thrown
      error ends the whole build. */
  function Push(acc: Result<seq<Stage>, Error>, b: Builder, md: MethodMetadata, cls: ControllerClass, m: string): Result<seq<Stage>, Error> {
    if acc.Err? then acc
    else match Build(b, md, cls, m)
      case Err(e) => Err(e)
      case Ok(o) => Ok(acc.value + Contributed(o))
  }

  /** A group's loop, from the list built so far. */
  function RunGroup(acc: Result<seq<Stage>, Error>, group: seq<Builder>, md: MethodMetadata, cls: ControllerClass, m: string): Result<seq<Stage>, Error>
    decreases |group|
  {
    if group == [] then acc else RunGroup(Push(acc, group[0], md, cls, m), group[1..], md, cls, m)
  }

  /** The bound controller method, pushed when the instance has a function under that name. */
  function PushMethod(acc: Result<seq<Stage>, Error>, cls: ControllerClass, m: string): Result<seq<Stage>, Error> {
    if acc.Ok? && m in cls.methods then Ok(acc.value + [Handler(m)]) else acc
  }

  /** The list once the execution-context, authentication and request-validation groups have run. */
  function BeforeAuthorization(md: MethodMetadata, cls: ControllerClass, m: string): Result<seq<Stage>, Error> {
    var afterContext := RunGroup(Ok([]), ExecutionContextBuilders, md, cls, m);
    var afterAuthentication := RunGroup(afterContext, AuthenticationBuilders, md, cls, m);
    RunGroup(afterAuthentication, ValidationRequestBuilders, md, cls, m)
  }

  /** `buildHandlers(controllerClass, controller, methodName)`. */
  function Handlers(md: MethodMetadata, cls: ControllerClass, m: string): Result<seq<Stage>, Error> {
    var afterAuthorization := RunGroup(BeforeAuthorization(md, cls, m), AuthorizationBuilders, md, cls, m);
    RunGroup(PushMethod(afterAuthorization, cls, m), ValidationResponseBuilders, md, cls, m)
  }

  /** Once a builder has thrown, the rest of the build changes nothing. */
  lemma {:induction false} RunGroupErr(e: Error, group: seq<Builder>, md: MethodMetadata, cls: ControllerClass, m: string)
    ensures RunGroup(Err(e), group, md, cls, m) == Err(e)
    decreases |group|
  {
    if group != [] {
      RunGroupErr(e, group[1..], md, cls, m);
    }
  }

  /** A group of one builder is one push. */
  lemma RunGroupOne(acc: Result<seq<Stage>, Error>, b: Builder, md: MethodMetadata, cls: ControllerClass, m: string)
    ensures RunGroup(acc, [b], md, cls, m) == Push(acc, b, md, cls, m)
  {
    assert [b][1..] == [];
  }

  /** The stages after the execution-context stage in a successful build. */
  function Guarded(md: MethodMetadata, cls: ControllerClass, m: string, authorize: Option<Stage>): seq<Stage> {
    Contributed(InjectCoreTenantIdStage(md, cls, m)) + Contributed(AuthenticationStage(md, cls, m))
      + Contributed(ZodValidateRequestStage(md, cls, m)) + Contributed(authorize)
      + (if m in cls.methods then [Handler(m)] else []) + Contributed(ZodValidateResponseStage(md, cls, m))
  }

  /** The build fails exactly when the authorization builder throws, with its error; otherwise
      the list holds, in this order, the execution-context stage, the core-tenant stage, the
      authentication stage, the request-validation stage, the authorization stage, the bound
      method and the response-validation stage, each one that applies. */
  lemma HandlersLayout(md: MethodMetadata, cls: ControllerClass, m: string)
    ensures AuthorizeStage(md, cls, m).Err? ==> Handlers(md, cls, m) == Err(AuthorizeStage(md, cls, m).error)
    ensures AuthorizeStage(md, cls, m).Ok? ==> Handlers(md, cls, m) == Ok([ExecContext] + Guarded(md, cls, m, AuthorizeStage(md, cls, m).value))
  {
    BeforeAuthorizationLayout(md, cls, m);
    var before := BeforeAuthorization(md, cls, m);
    RunGroupOne(before, BuildAuthorize, md, cls, m);
    if AuthorizeStage(md, cls, m).Err? {
      RunGroupErr(AuthorizeStage(md, cls, m).error, ValidationResponseBuilders, md, cls, m);
    } else {
      HandlersLayoutOk(md, cls, m, before.value);
    }
  }

  lemma HandlersLayoutOk(md: MethodMetadata, cls: ControllerClass, m: string, prefix: seq<Stage>)
    requires AuthorizeStage(md, cls, m).Ok?
    requires BeforeAuthorization(md, cls, m) == Ok(prefix)
    requires prefix == [ExecContext] + Contributed(InjectCoreTenantIdStage(md, cls, m))
      + Contributed(AuthenticationStage(md, cls, m)) + Contributed(ZodValidateRequestStage(md, cls, m))
    ensures Handlers(md, cls, m) == Ok([ExecContext] + Guarded(md, cls, m, AuthorizeStage(md, cls, m).value))
  {
    var a := AuthorizeStage(md, cls, m).value;
    var ec := Contributed(InjectCoreTenantIdStage(md, cls, m));
    var an := Contributed(AuthenticationStage(md, cls, m));
    var vr := Contributed(ZodValidateRequestStage(md, cls, m));
    var ca := Contributed(a);
    var h: seq<Stage> := if m in cls.methods then [Handler(m)] else [];
    var zr := Contributed(ZodValidateResponseStage(md, cls, m));
    RunGroupOne(Ok(prefix), BuildAuthorize, md, cls, m);
    assert RunGroup(Ok(prefix), AuthorizationBuilders, md, cls, m) == Ok(prefix + ca);
    AfterAuthorizationLayout(md, cls, m, prefix, a);
    assert Handlers(md, cls, m) == Ok(prefix + ca + h + zr);
    assert Guarded(md, cls, m, a) == ec + an + vr + ca + h + zr;
    ConsAssoc(ExecContext, [ec, an, vr, ca, h, zr]);
  }

  /** The bound method and the response-validation group, after a successful authorization group. */
  lemma AfterAuthorizationLayout(md: MethodMetadata, cls: ControllerClass, m: string, prefix: seq<Stage>, a: Option<Stage>)
    ensures RunGroup(PushMethod(Ok(prefix + Contributed(a)), cls, m), ValidationResponseBuilders, md, cls, m) ==
      Ok(prefix + Contributed(a) + (if m in cls.methods then [Handler(m)] else []) + Contributed(ZodValidateResponseStage(md, cls, m)))
  {
    var before := prefix + Contributed(a);
    var h: seq<Stage> := if m in cls.methods then [Handler(m)] else [];
    var withMethod := PushMethod(Ok(before), cls, m);
    if m !in cls.methods {
      assert before + h == before;
    }
    assert withMethod == Ok(before + h);
    RunGroupOne(withMethod, BuildZodValidateResponse, md, cls, m);
  }

  /** Appending six lists to a one-element list is prepending it to their concatenation. */
  lemma ConsAssoc(x: Stage, parts: seq<seq<Stage>>)
    requires |parts| == 6
    ensures [x] + parts[0] + parts[1] + parts[2] + parts[3] + parts[4] + parts[5] ==
      [x] + (parts[0] + parts[1] + parts[2] + parts[3] + parts[4] + parts[5])
  {
  }

  /** The first three groups never throw and push their stages in order. */
  lemma BeforeAuthorizationLayout(md: MethodMetadata, cls: ControllerClass, m: string)
    ensures BeforeAuthorization(md, cls, m) == Ok([ExecContext] + Contributed(InjectCoreTenantIdStage(md, cls, m))
      + Contributed(AuthenticationStage(md, cls, m)) + Contributed(ZodValidateRequestStage(md, cls, m)))
  {
    var ec := Contributed(InjectCoreTenantIdStage(md, cls, m));
    var an := Contributed(AuthenticationStage(md, cls, m));
    var vr := Contributed(ZodValidateRequestStage(md, cls, m));
    assert ExecutionContextBuilders[1..] == [BuildInjectCoreTenantId];
    var empty: seq<Stage> := [];
    assert empty + [ExecContext] == [ExecContext];
    var first := Push(Ok(empty), BuildExecutionContext, md, cls, m);
    assert first == Ok([ExecContext]);
    RunGroupOne(first, BuildInjectCoreTenantId, md, cls, m);
    var afterContext := RunGroup(Ok(empty), ExecutionContextBuilders, md, cls, m);
    assert afterContext == Ok([ExecContext] + ec);
    RunGroupOne(afterContext, BuildAuthentication, md, cls, m);
    var afterAuthentication := RunGroup(afterContext, AuthenticationBuilders, md, cls, m);
    assert afterAuthentication == Ok([ExecContext] + ec + an);
    RunGroupOne(afterAuthentication, BuildZodValidateRequest, md, cls, m);
  }

  /** A method that carries no decorator but its route runs in an execution context and
      nothing else. */
  lemma MinimalHandlers(md: MethodMetadata, cls: ControllerClass, m: string)
    requires m != "" && m in cls.methods
    requires m !in Collected(md.injectCoreTenantId, cls.prototypes) && m !in Collected(md.authentication, cls.prototypes)
    requires m !in Collected(md.zodRequest, cls.prototypes) && m !in Collected(md.authorize, cls.prototypes)
    requires m !in Collected(md.zodResponse, cls.prototypes)
    ensures Handlers(md, cls, m) == Ok([ExecContext, Handler(m)])
  {
    HandlersLayout(md, cls, m);
    assert AuthorizeStage(md, cls, m) == Ok(None);
    assert Contributed(InjectCoreTenantIdStage(md, cls, m)) == [];
    assert Contributed(AuthenticationStage(md, cls, m)) == [];
    assert Contributed(ZodValidateRequestStage(md, cls, m)) == [];
    assert Contributed(ZodValidateResponseStage(md, cls, m)) == [];
    var empty: seq<Stage> := [];
    assert Guarded(md, cls, m, None) == empty + empty + empty + empty + [Handler(m)] + empty;
    assert empty + empty + empty + empty + [Handler(m)] + empty == [Handler(m)];
    assert [ExecContext] + [Handler(m)] == [ExecContext, Handler(m)];
  }

  /** With an empty method name the authentication stage is built whether or not the
      method is decorated with @Authenticated. */
  lemma EmptyNameAuthenticates(md: MethodMetadata, cls: ControllerClass)
    ensures AuthenticationStage(md, cls, "") == Some(Authenticate)
  {
  }

  /** A method name is authenticated exactly when @Authenticated was applied to it somewhere
      on the prototype chain (for a non-empty name). */
  lemma AuthenticationStageIff(md: MethodMetadata, cls: ControllerClass, m: string)
    requires m != ""
    ensures AuthenticationStage(md, cls, m).Some? <==> m in Collected(md.authentication, cls.prototypes)
  {
  }

  /** @Authorize on a class whose @Controller options lack a system or a resource makes the
      whole build (and so the route's registration) fail. */
  lemma AuthorizeNeedsSystemAndResource(md: MethodMetadata, cls: ControllerClass, m: string)
    requires m in Collected(md.authorize, cls.prototypes)
    requires !HasSystemAndResource(Options(cls))
    ensures Handlers(md, cls, m) == Err(MissingSystemOrResource(cls.name))
  {
    HandlersLayout(md, cls, m);
  }

  /** Which stage kinds can follow the execution-context stage. */
  lemma GuardedKinds(md: MethodMetadata, cls: ControllerClass, m: string, a: Option<Stage>)
    requires a.Some? ==> a.value.Authorize?
    ensures forall s :: s in Guarded(md, cls, m, a) ==> s != ExecContext && s != PopulateTenantId
    ensures Handler(m) in Guarded(md, cls, m, a) <==> m in cls.methods
  {
    var p1 := Contributed(InjectCoreTenantIdStage(md, cls, m));
    var p2 := Contributed(AuthenticationStage(md, cls, m));
    var p3 := Contributed(ZodValidateRequestStage(md, cls, m));
    var p4 := Contributed(a);
    var h: seq<Stage> := if m in cls.methods then [Handler(m)] else [];
    var p6 := Contributed(ZodValidateResponseStage(md, cls, m));
    ContributedGuardKinds(InjectCoreTenantIdStage(md, cls, m));
    ContributedGuardKinds(AuthenticationStage(md, cls, m));
    ContributedGuardKinds(ZodValidateRequestStage(md, cls, m));
    ContributedGuardKinds(a);
    ContributedGuardKinds(ZodValidateResponseStage(md, cls, m));
    assert Guarded(md, cls, m, a) == p1 + p2 + p3 + p4 + h + p6;
    forall x | x in Guarded(md, cls, m, a)
      ensures !x.ExecContext? && !x.PopulateTenantId?
    {
      InSix(x, p1, p2, p3, p4, h, p6);
    }
    InSix(Handler(m), p1, p2, p3, p4, h, p6);
  }

  /** A builder other than the bound method's contributes neither the bound method nor a
      stage that only the start or the end of the list holds. */
  lemma ContributedGuardKinds(o: Option<Stage>)
    requires o.Some? ==> !o.value.ExecContext? && !o.value.PopulateTenantId? && !o.value.Handler?
    ensures forall y :: y in Contributed(o) ==> !y.ExecContext? && !y.PopulateTenantId? && !y.Handler?
  {
  }

  /** Membership in a six-part concatenation. */
  lemma InSix<T>(x: T, a: seq<T>, b: seq<T>, c: seq<T>, d: seq<T>, e: seq<T>, f: seq<T>)
    ensures x in a + b + c + d + e + f <==> x in a || x in b || x in c || x in d || x in e || x in f
  {
  }

  /** A built list starts with the execution-context stage, holds it once, never holds the
      populate stage, and holds the bound method exactly when the instance has one. */
  lemma HandlersShape(md: MethodMetadata, cls: ControllerClass, m: string)
    requires Handlers(md, cls, m).Ok?
    ensures var l := Handlers(md, cls, m).value;
      |l| >= 1 && l[0] == ExecContext &&
      (forall i :: 1 <= i < |l| ==> l[i] != ExecContext) &&
      PopulateTenantId !in l &&
      (Handler(m) in l <==> m in cls.methods)
  {
    HandlersLayout(md, cls, m);
    var a := AuthorizeStage(md, cls, m).value;
    GuardedKinds(md, cls, m, a);
    var tail := Guarded(md, cls, m, a);
    var l := [ExecContext] + tail;
    forall i | 1 <= i < |l|
      ensures l[i] != ExecContext
    {
      assert l[i] == tail[i - 1];
      assert tail[i - 1] in tail;
    }
  }
}
