# koa-inversify-framework, modelled in Dafny

This project models the request-processing core of the Koa/Inversify web
framework `@idm-auth/koa-inversify-framework`. It then proves properties of
that model. The modules are:

- **Router**. The route registry (`RegisterRouter`) turns each route method's
  decorator metadata into an ordered list of stages. It stores the list under
  `<verb>:<full path>` and runs it on request.
- **Pipeline**. This is the interpreter for those lists, with koa-compose
  semantics: a stage that does not call `next` ends the chain.
- **Builders, Authentication, Authorization, RequestValidation**. These hold
  the stage builders and their guard sequences: Bearer-header parsing, GRN
  resource derivation, and collecting every zod issue of params, body and
  query.
- **ExecutionContexts, Tenancy, MongoRepositories**. These cover the scoped
  execution context and how a tenant becomes a database. The
  `"<db>:<collection>"` model cache lives here, along with the CRUD
  repository over an in-memory store of collections.
- **CrudServices, CrudControllers, CrudMappers**. These are the CRUD layer:
  paging arithmetic, NotFound semantics, the multi-tenant guard, the handler
  status codes and the preservation of items in the mapper.
- **ErrorHandling**. This is the first-match table of the error handler, from
  error kind to status and body.
- **Metadata, Decorators, Stereotypes**. These are the method-decorator
  registries and the merge over the prototype chain. Every
  `get…Metadata(target)` getter of the route, authorize, zodValidateRequest,
  zodValidateResponse and injectCoreTenantId decorators is the same call,
  `collectMetadataFromPrototypeChain` over the class's prototype. In the model
  that call is `Metadata.Collected` (run as `Metadata.MetadataRegistry.Collect`)
  over the class's prototype chain.
- **Frameworks, Environment, Paths, Swagger, MagicRouting, FieldSchemas**.
  These are the smaller self-contained pieces:
  - `Framework`'s init and shutdown sequence;
  - the memo cache of `AbstractEnv.get`;
  - path normalisation and the conversion between Koa and OpenAPI path syntax;
  - OpenAPI route defaulting;
  - the pure logic of the legacy `MagicRouter`;
  - the string validators of the field and password schemas.

External services are parameters of the model. These include the IDM service,
zod's `safeParse`, GRN formatting, the tenant resolver hooks, the database's
sort order, uuid generation, and what a controller method does. Where the
source updates an object in place, the model is a class with `modifies`
clauses, and each such method is specified against a function of the old
state. Those objects are the route registry, the model cache, the collections,
the environment cache, the metadata registries, the OpenAPI registry, the
context stack and `Framework`. Pure logic is modelled as functions and lemmas.

The model follows the code as written. Four consequences are worth
knowing:

- **ForbiddenError is answered 500.** The base error handler has no table row
  for it, although the class declares status code 403 (see Findings). So
  `ErrorHandling.Classify`, `Handle` and `ErrorHandlerMiddleware` answer it
  500, as the code does. The corrected table (`ClassifyFixed`) and the handler
  built on it (`HandleFixed`, `ErrorHandlerMiddlewareFixed`) are separate
  members. They are the corrected half of the finding.
- **The Bearer prefix is case-sensitive.** The scheme is matched as exactly
  `Bearer `, although section 2.1 of RFC 7235 makes auth schemes
  case-insensitive.
- **A missing tenant id at authentication is answered 500.** The
  authentication stage calls `ctx.throw(400, 'Missing tenantId')`. The
  table reads no HTTP status and has no row for Koa's HTTP errors, so the
  error falls to the 500 row (`ErrorHandling.FrameworkErrorsAre500`).
- **An unset context path becomes the text `undefined`.** The full path is
  built by JavaScript string addition. So when an Env returns nothing for
  `SERVER_CONTEXT_PATH`, that text lands in the path. The default Env gives
  `/`.

## Model

| member | source | states |
|---|---|---|
| Frameworks.Container.constructor | src/index.ts:193-201 | a new container has no bindings |
| Frameworks.Container.BindCoreServices | src/index.ts:205-265 | the container's bindings become initCore's bindings of the old ones; when Env was not bound, the logger and the execution context then resolve |
| Frameworks.BindService | src/index.ts:233-248 | the identifier is bound to the configured class, or to the default; a custom identifier becomes an alias of it only when a class was configured; no other binding changes or appears |
| Frameworks.WithContainerBinding | src/index.ts:205-208 | the container identifier is bound to the container itself unless it already was; nothing else changes |
| Frameworks.InitCoreBinds | src/index.ts:192-271 | afterwards the container and Env are bound and no earlier binding is lost; on a first run also Logger, IdmClient, ExecutionContext, TenantResolver, and the telemetry SDK when one was set |
| Frameworks.InitCoreIdempotent | src/index.ts:210-217 | running initCore again, with any configuration, changes no binding |
| Frameworks.EnvBoundSkipsBindings | src/index.ts:210-217 | with Env already bound, at most the container binding is added |
| Frameworks.InitCoreResolveError | src/index.ts:213-270 | resolving fails exactly when Logger or ExecutionContext is unbound, Logger being tried first |
| Frameworks.FreshInitCoreResolves | src/index.ts:219-270 | a first run of initCore always resolves the logger and the execution context |
| Frameworks.Framework.constructor | src/index.ts:86-99 | nothing is configured or created and no effect has happened |
| Frameworks.Framework.SetContainer | src/index.ts:101-109 | a missing container is a RuntimeConfigurationError and changes nothing; otherwise only the container is recorded |
| Frameworks.Framework.SetRegistry | src/index.ts:111-119 | a missing registry is a RuntimeConfigurationError; otherwise only the registry is recorded |
| Frameworks.Framework.SetErrorHandler | src/index.ts:121-129 | a missing handler is a RuntimeConfigurationError; otherwise only the custom handler is recorded |
| Frameworks.Framework.SetExecutionContext | src/index.ts:131-143 | a missing class is a RuntimeConfigurationError; otherwise exactly the class and its optional custom identifier are recorded |
| Frameworks.Framework.SetTenantResolver | src/index.ts:145-157 | a missing class is a RuntimeConfigurationError; otherwise exactly the class and its optional custom identifier are recorded |
| Frameworks.Framework.SetEnv | src/index.ts:159-171 | a missing class is a RuntimeConfigurationError; otherwise exactly the class and its optional custom identifier are recorded |
| Frameworks.Framework.SetNodeSDK | src/index.ts:173-185 | a missing SDK is a RuntimeConfigurationError; otherwise getNodeSDK returns the recorded SDK and nothing else changes |
| Frameworks.Framework.InitCore | src/index.ts:192-271 | without any container it fails; with a recorded container but no argument it fails as a call on undefined; otherwise the first container is recorded, the argument gets initCore's bindings, the logger is created when bound, and a first run never fails |
| Frameworks.Framework.BindCore | src/index.ts:203-270 | the container gets initCore's bindings; the error is the resolution error; the logger and execution-context flags follow what resolved |
| Frameworks.Framework.InitDB | src/index.ts:279-290 | without initCore it fails and changes nothing; otherwise MongoDB is bound, created and started, in that order |
| Frameworks.Framework.InitKoa | src/index.ts:298-328 | fails without initCore, then without a registry, changing nothing; otherwise the default handler fills a missing one, the registry, Swagger, router and server are bound, and the server gets the handler and then starts |
| Frameworks.Framework.Init | src/index.ts:335-348 | needs a container, then a registry; on success all four components exist and the effects are the database start, then the server's error handler and start; with Env unbound it succeeds |
| Frameworks.Framework.ReconfigureLogger | src/index.ts:350-354 | fails before initialization; otherwise the logger is reconfigured |
| Frameworks.Framework.Listen | src/index.ts:356-360 | fails without a server; otherwise the server listens |
| Frameworks.Framework.ShutdownKoa | src/index.ts:362-364 | shuts the server down when it exists, and otherwise does nothing |
| Frameworks.Framework.ShutdownDB | src/index.ts:366-369 | shuts the database down when it exists, then flushes the logger when it exists |
| Frameworks.Framework.Shutdown | src/index.ts:371-374 | the effects are the server's shutdown, then the database's, then the logger flush |
| Frameworks.Framework.GetKoaServer | src/index.ts:376-380 | fails exactly when no server was created, with 'koaServer not init. Call init()' |
| Frameworks.ShutdownOrder | src/index.ts:362-374 | the server stops before the database, the logger flush comes last, and each shutdown happens exactly when its component exists |
| Environment.FromEnvironment | src/infrastructure/env/defaultEnv.provider.ts:40 | a non-empty environment value wins; an empty or missing one falls back to the defaults table |
| Environment.GetStep | src/infrastructure/env/defaultEnv.provider.ts:37-44 | a non-empty cached value is returned and the cache is unchanged; otherwise the environment-or-default value is returned and cached under that key; no other key's cache entry moves |
| Environment.GetIsStable | src/infrastructure/env/defaultEnv.provider.ts:37-44 | with the environment unchanged, a second read returns the same value and leaves the key's cache entry as the first read left it |
| Environment.SetThenGet | src/infrastructure/env/defaultEnv.provider.ts:29-31 | after storing a non-empty value, reading the key returns it whatever the environment holds |
| Environment.ClearThenGet | src/infrastructure/env/defaultEnv.provider.ts:33-35 | after clearing, a read goes back to the environment and the defaults |
| Environment.DocumentedDefaults | src/infrastructure/env/defaultEnv.provider.ts:12-25 | with an empty environment the context path is '/', the core database 'idm-core-db' and the realm UUID 'UNDEFINED' |
| Environment.Env.constructor | src/infrastructure/env/defaultEnv.provider.ts:27 | the cache starts empty |
| Environment.Env.SetMemValue | src/infrastructure/env/defaultEnv.provider.ts:29-31 | the cache gains or replaces exactly one entry |
| Environment.Env.ClearMemCache | src/infrastructure/env/defaultEnv.provider.ts:33-35 | the cache becomes empty |
| Environment.Env.Get | src/infrastructure/env/defaultEnv.provider.ts:37-44 | the value returned and the cache left are those of the read step on the old cache |
| ExecutionContexts.Current | src/infrastructure/context/executionContext.provider.ts:19-21 | get() is absent exactly when no context is established, and otherwise the innermost one |
| ExecutionContexts.TenantIdOf | src/infrastructure/context/executionContext.provider.ts:23-26 | getTenantId() is null with no context, otherwise the current context's tenantId (null when that is null) |
| ExecutionContexts.WithTenantId | src/infrastructure/context/executionContext.provider.ts:28-33 | setTenantId changes only the current context's tenantId; every outer context is kept |
| ExecutionContexts.InitMakesCurrent | src/infrastructure/context/executionContext.provider.ts:15-21 | inside init(c, cb), get() is c and getTenantId() is c's tenantId |
| ExecutionContexts.SetThenGet | src/infrastructure/context/executionContext.provider.ts:23-33 | after setTenantId(t), getTenantId() is t and globalTransactionId is unchanged |
| ExecutionContexts.SetWithoutContext | src/infrastructure/context/executionContext.provider.ts:28-33 | setTenantId with no current context is a no-op, and getTenantId() stays null |
| ExecutionContexts.NestedScopeRestores | src/infrastructure/context/executionContext.provider.ts:15-33 | a setTenantId in a nested scope leaves the outer contexts unchanged |
| ExecutionContexts.ExecutionContextProvider.constructor | src/infrastructure/context/executionContext.provider.ts:13 | the store starts empty |
| ExecutionContexts.ExecutionContextProvider.Get | src/infrastructure/context/executionContext.provider.ts:19-21 | the provider's get() is Current of its store |
| ExecutionContexts.ExecutionContextProvider.GetTenantId | src/infrastructure/context/executionContext.provider.ts:23-26 | the provider's getTenantId() is TenantIdOf its store |
| ExecutionContexts.ExecutionContextProvider.Enter | src/infrastructure/context/executionContext.provider.ts:15-16 | entering init(c, cb) pushes c, and c is current |
| ExecutionContexts.ExecutionContextProvider.Restore | src/infrastructure/context/executionContext.provider.ts:15-16 | leaving init, normally or by a throw, restores the store saved on entry |
| ExecutionContexts.ExecutionContextProvider.SetTenantId | src/infrastructure/context/executionContext.provider.ts:28-33 | the new store is WithTenantId of the old one |
| Pipeline.ContextTenantId | src/infrastructure/koa/middleware/executionContext.build.middleware.ts:35 | a tenantId route parameter wins whenever present, even when empty; otherwise ctx.state's tenantId |
| Pipeline.PopulateTenantIdStep | src/infrastructure/koa/middleware/populateTenantId.build.middleware.ts:10-23 | a non-empty tenantId parameter is copied into ctx.state; otherwise the context is unchanged |
| Pipeline.ValidateResponseTransparent | src/infrastructure/koa/middleware/zodValidateResponse.build.middleware.ts:9-16 | inserting the response-validation stage anywhere in a list does not change what the list does |
| Pipeline.ContextDepthPreserved | src/infrastructure/koa/middleware/executionContext.build.middleware.ts:47-54 | every run leaves as many execution contexts established as it found |
| Pipeline.TransactionIdsAdvance | src/infrastructure/koa/middleware/executionContext.build.middleware.ts:42-54 | running any stages never moves the transaction-id supply back, and keeps the context stack well numbered: ids strictly increase up the stack and all lie below the next id to hand out |
| Pipeline.InjectTenantKeepsIds | src/infrastructure/koa/middleware/injectCoreTenantId.build.middleware.ts:19-33 | rewriting the current context's tenant keeps the stack's length, every context's transaction id and the id supply |
| Pipeline.ExecContextDrawsFresh | src/infrastructure/koa/middleware/executionContext.build.middleware.ts:42-54 | in a well-numbered world the id an execution-context stage takes is held by no open context, and afterwards the supply has moved past it and the world is still well numbered |
| Pipeline.ConsecutiveRequestsDistinctIds | src/infrastructure/koa/middleware/executionContext.build.middleware.ts:42-54 | two requests run one after the other each take a transaction id, and the second's differs from the first's |
| Pipeline.ExecContextScopes | src/infrastructure/koa/middleware/executionContext.build.middleware.ts:35-63 | the rest runs inside a fresh context with a new transaction id and the request's tenant; its error passes through unchanged; afterwards, after a normal return or a throw, the previous stack is current again |
| Pipeline.ValidationFailureStops | src/infrastructure/koa/middleware/zodValidateRequest.build.middleware.ts:74-90 | a failed request validation writes 400 and the violation report, throws nothing, and runs no later stage |
| Pipeline.ValidationSuccessContinues | src/infrastructure/koa/middleware/zodValidateRequest.build.middleware.ts:88 | a passing request validation is the same as running the rest |
| Pipeline.FinishingHandlerEndsChain | src/infrastructure/koa/registerRouter.provider.ts:212 | a handler that does not call next makes whatever follows it irrelevant |
| Pipeline.InjectFailureStops | src/infrastructure/koa/middleware/injectCoreTenantId.build.middleware.ts:19-33 | a failing core-tenant resolver writes nothing and stops the chain with its error |
| Pipeline.MinimalRouteRun | src/infrastructure/koa/registerRouter.provider.ts:78-212 | an undecorated route runs its handler in a fresh context that carries the request's tenant, and the stack afterwards is as before |
| Pipeline.HandlerLast | src/infrastructure/koa/registerRouter.provider.ts:212 | a list holding only the handler ends with the handler's context and error |
| Pipeline.InjectedTenantReachesHandler | src/infrastructure/koa/middleware/injectCoreTenantId.build.middleware.ts:19-33 | with @InjectCoreTenantId the handler sees the core tenant both in ctx.state and in its execution context, whatever tenant the request carried |
| Pipeline.Invocation.constructor | src/infrastructure/koa/registerRouter.provider.ts:212 | an invocation starts on the request's context and the shared provider |
| Pipeline.Invocation.RunInjectCoreTenantId | src/infrastructure/koa/middleware/injectCoreTenantId.build.middleware.ts:19-33 | a resolver error is returned and nothing is written; otherwise ctx.state and the current context both get the core tenant |
| Pipeline.Invocation.RunPopulateTenantId | src/infrastructure/koa/middleware/populateTenantId.build.middleware.ts:10-23 | ctx.state is updated in place as the populate step says, and nothing else |
| Pipeline.Invocation.Execute | src/infrastructure/koa/registerRouter.provider.ts:212 | run in place, stage by stage, the list leaves the request context, the provider's stack and the id supply exactly as the reference semantics does, and throws the same error |
| Builders.Contributed | src/infrastructure/koa/registerRouter.provider.ts:87-88 | a builder's stage is pushed when it gives one, and nothing is pushed when it gives null |
| Builders.InjectCoreTenantIdStage | src/infrastructure/koa/middleware/injectCoreTenantId.build.middleware.ts:41-51 | a stage exactly when the merged @InjectCoreTenantId metadata marks the method true |
| Builders.AuthenticationStage | src/infrastructure/koa/middleware/authentication.build.middleware.ts:96-106 | whenever a stage is built it is the authentication stage (AuthenticationStageIff and EmptyNameAuthenticates say when) |
| Builders.ZodValidateRequestStage | src/infrastructure/koa/middleware/zodValidateRequest.build.middleware.ts:100-108 | a stage exactly when the merged metadata has an entry for the method, carrying that entry's schemas |
| Builders.ZodValidateResponseStage | src/infrastructure/koa/middleware/zodValidateResponse.build.middleware.ts:26-34 | a stage exactly when the merged metadata has an entry for the method, carrying that entry |
| Builders.AuthorizeStage | src/infrastructure/koa/middleware/authorize.build.middleware.ts:197-236 | null exactly without an @Authorize entry; an error naming the class exactly when the entry exists but the @Controller options lack system or resource; otherwise a stage bound to the entry, system, resource and basePath |
| Builders.RunGroupErr | src/infrastructure/koa/registerRouter.provider.ts:84-116 | once a builder has thrown, no later group changes the outcome |
| Builders.HandlersLayout | src/infrastructure/koa/registerRouter.provider.ts:84-116 | buildHandlers fails exactly with the authorization builder's error; otherwise it yields the execution-context stage, then the core-tenant, authentication, request-validation and authorization stages that apply, the bound method if there is one, and the response-validation stage if any |
| Builders.BeforeAuthorizationLayout | src/infrastructure/koa/registerRouter.provider.ts:86-99 | the first three groups never throw and push their stages in group order |
| Builders.AfterAuthorizationLayout | src/infrastructure/koa/registerRouter.provider.ts:106-114 | the bound method is pushed only when the instance has it, then the response-validation stage |
| Builders.MinimalHandlers | src/infrastructure/koa/registerRouter.provider.ts:86-109 | a method with no decorator metadata gets exactly [execution context, handler] |
| Builders.EmptyNameAuthenticates | src/decorator/authentication.decorator.ts:26-32 | with an empty method name the lookup returns the whole map, so the authentication stage is built anyway |
| Builders.AuthenticationStageIff | src/infrastructure/koa/middleware/authentication.build.middleware.ts:96-100 | for a non-empty name the stage is built if and only if the method has an @Authenticated entry on its prototype chain |
| Builders.AuthorizeNeedsSystemAndResource | src/infrastructure/koa/middleware/authorize.build.middleware.ts:204-213 | @Authorize without system or resource in the @Controller options makes the whole build fail with that error |
| Builders.GuardedKinds | src/infrastructure/koa/registerRouter.provider.ts:84-116 | after the first stage neither the execution-context nor the populate stage appears; the handler appears if and only if the instance has the method |
| Builders.HandlersShape | src/infrastructure/koa/registerRouter.provider.ts:84-116 | a built list starts with the single execution-context stage, never holds the populate stage, and holds the handler exactly when the method exists |
| Authentication.BearerToken | src/infrastructure/koa/middleware/authentication.build.middleware.ts:46 | the token is what follows the seven-character prefix: the header is exactly "Bearer " + token |
| Authentication.BearerTokenRoundTrip | src/infrastructure/koa/middleware/authentication.build.middleware.ts:41-46 | "Bearer " + t passes the prefix check and yields exactly t, for every t |
| Authentication.SchemeIsCaseSensitive | src/infrastructure/koa/middleware/authentication.build.middleware.ts:41-44 | "bearer ", "BEARER " and "Bearer" without the space all fail the prefix check |
| Authentication.AuthenticateStep | src/infrastructure/koa/middleware/authentication.build.middleware.ts:34-76 | a missing header is UnauthorizedError('Missing Authorization header'); a header without the prefix is 'Invalid Authorization header format'; a missing tenantId is a 400 'Missing tenantId'; success records a non-empty account id and the token |
| Authentication.AuthenticateSucceedsIff | src/infrastructure/koa/middleware/authentication.build.middleware.ts:34-76 | the stage succeeds if and only if the header, the prefix, the tenantId and a valid answer with an account id are all present, and then it records that account and token |
| Authentication.AuthenticateRejections | src/infrastructure/koa/middleware/authentication.build.middleware.ts:60-68 | an invalid token is refused with the service's error or 'Invalid token'; a valid answer without an account id is refused with 'Invalid token payload' |
| Authentication.AuthenticateChangesOnlyState | src/infrastructure/koa/middleware/authentication.build.middleware.ts:70-72 | on success only authenticated, accountId and idmAuthUserToken of ctx.state change |
| Authorization.PathSuffix | src/infrastructure/koa/middleware/authorize.build.middleware.ts:47-49 | on the resolved base the path is the base followed by the suffix; off it the suffix is empty |
| Authorization.BaseGrn | src/infrastructure/koa/middleware/authorize.build.middleware.ts:55-61 | partition defaults to 'global' and region to ''; system and tenantId are copied; the resource comes from the resolved base path and ctx.path |
| Authorization.RealmPublicUuid | src/infrastructure/koa/middleware/authorize.build.middleware.ts:138-142 | the configured realm unless it is the literal 'UNDEFINED'; then the resolver's core UUID, whose error propagates |
| Authorization.AuthorizeStep | src/infrastructure/koa/middleware/authorize.build.middleware.ts:102-136 | a missing user token or tenantId is ForbiddenError('User not authenticated'); a GRN failing the format check is ForbiddenError('Invalid resource format') |
| Authorization.AuthorizeAllowsIff | src/infrastructure/koa/middleware/authorize.build.middleware.ts:102-173 | next is called if and only if token and tenantId are present, the GRN is valid, the realm resolves and the IDM service allows the request built from token, GRN and action |
| Authorization.DenialMessage | src/infrastructure/koa/middleware/authorize.build.middleware.ts:150-161 | a denial is ForbiddenError with the service's error, or 'Access denied' when it gives none |
| Authorization.ResourceOfPath | src/infrastructure/koa/middleware/authorize.build.middleware.ts:47-53 | off the base, at the base, or at the base plus "/", the resource is name + "/*"; below the base it is name + the rest of the path |
| Authorization.ResolveOneParam | src/infrastructure/koa/middleware/authorize.build.middleware.ts:43-46 | a base path with one ":name" parameter resolves to the literal text around params[name], or around "" when that is absent |
| Authorization.DefaultBuilderKeepsGrn | src/infrastructure/koa/middleware/authorize.build.middleware.ts:63-64 | with the default resource builder the printed GRN is the base GRN printed |
| RequestValidation.Detail | src/infrastructure/koa/middleware/zodValidateRequest.build.middleware.ts:25-28 | an issue is reported under `<part>.<path joined by '.'>` with the schema's message |
| RequestValidation.Details | src/infrastructure/koa/middleware/zodValidateRequest.build.middleware.ts:24-29 | one detail per issue, in the schema's order |
| RequestValidation.ValidationResult | src/infrastructure/koa/middleware/zodValidateRequest.build.middleware.ts:61-71 | null exactly when there are no violations; otherwise "Validation failed" / "Request validation failed" carrying every detail |
| RequestValidation.PushDetails | src/infrastructure/koa/middleware/zodValidateRequest.build.middleware.ts:24-29 | the forEach loop appends one detail per issue after the details already collected |
| RequestValidation.ValidateRequest | src/infrastructure/koa/middleware/zodValidateRequest.build.middleware.ts:11-72 | the configured parts are parsed in the order params, body, query, and the result is the response for all their issues together |
| RequestValidation.PassesIff | src/infrastructure/koa/middleware/zodValidateRequest.build.middleware.ts:19-71 | the request passes if and only if every configured part parses without an issue |
| RequestValidation.AllPartsReported | src/infrastructure/koa/middleware/zodValidateRequest.build.middleware.ts:19-59 | a failing part does not stop the others: the report holds params', body's and query's issues, each as a block of its own, in that order |
| RequestValidation.UnconfiguredPartIgnored | src/infrastructure/koa/middleware/zodValidateRequest.build.middleware.ts:19-59 | a part without a schema is never parsed, so what a schema would say about it cannot change the report |
| RequestValidation.DetailPathExamples | src/infrastructure/koa/middleware/zodValidateRequest.build.middleware.ts:26-40 | an issue at `id` in params is reported as `params.id`, a nested body issue as `body.address.city` |
| ErrorHandling.MentionsIsIncludes | src/infrastructure/koa/middleware/errorHandler.middleware.ts:61 | the window test used for `message.includes('E11000')` agrees with substring inclusion in both directions |
| ErrorHandling.NamedLikeIsName | src/infrastructure/koa/middleware/errorHandler.middleware.ts:72-82 | an error named CastError or ValidationError is exactly a driver error of that name |
| ErrorHandling.OwnNames | src/infrastructure/koa/middleware/errorHandler.middleware.ts:72-82 | none of the error kinds the modelled core raises carries the name CastError or ValidationError |
| ErrorHandling.ValidationErrorClassAnswered400 | src/error/validationError.ts:12-19 | the framework's ValidationError class, named 'ValidationError' and without a code, is answered 400 'Validation error' with its message by the table's ValidationError row, unless the message mentions E11000 |
| ErrorHandling.SetErrorResponse | src/infrastructure/koa/middleware/errorHandler.middleware.ts:114-121 | status and body are the answer's, and nothing else in the context changes |
| ErrorHandling.Classify | src/infrastructure/koa/middleware/errorHandler.middleware.ts:40-95 | the table as written: 500 exactly when no earlier row matches, and exactly then the body has no code |
| ErrorHandling.ClassifyFixed | src/error/forbidden.error.ts:1-9 | the corrected table: ForbiddenError is 403, and every other error gets the written table's answer |
| ErrorHandling.Handle | src/infrastructure/koa/middleware/errorHandler.middleware.ts:35-96 | a hook that handles the error decides the context; otherwise status and body are the written table's answer and nothing else in the context changes |
| ErrorHandling.HandleFixed | src/error/forbidden.error.ts:1-9 | handle with the corrected table: the hook first, otherwise exactly the corrected table's status and body |
| ErrorHandling.ErrorHandlerMiddleware | src/infrastructure/koa/middleware/errorHandler.middleware.ts:104-112 | the middleware never lets an error escape; without an error it changes nothing; with one the context is what handle leaves |
| ErrorHandling.ErrorHandlerMiddlewareFixed | src/infrastructure/koa/middleware/errorHandler.middleware.ts:104-112 | the same middleware over the corrected handle: no error escapes, none means no change, and an error is handled by the corrected table |
| ErrorHandling.ClassifyStatuses | src/infrastructure/koa/middleware/errorHandler.middleware.ts:40-95 | the built-in table only answers 401, 404, 409, 400 or 500 |
| ErrorHandling.ClassifyUnauthorizedAndNotFound | src/infrastructure/koa/middleware/errorHandler.middleware.ts:40-58 | 401 if and only if UnauthorizedError and 404 if and only if NotFoundError, each with the error's message and its code |
| ErrorHandling.ClassifyDuplicateKey | src/infrastructure/koa/middleware/errorHandler.middleware.ts:60-69 | 409 if and only if a duplicate-key error that is neither of the first two rows, with code E11000 and the error's keyValue as details |
| ErrorHandling.DuplicateKeyExamples | src/infrastructure/koa/middleware/errorHandler.middleware.ts:61 | code "11000", or E11000 anywhere in the message, is a conflict |
| ErrorHandling.FirstMatchWins | src/infrastructure/koa/middleware/errorHandler.middleware.ts:60-79 | the rows are tried in order: a CastError is 400 exactly when its message lacks E11000, and a conflict otherwise |
| ErrorHandling.FrameworkErrorsAre500 | src/infrastructure/koa/middleware/errorHandler.middleware.ts:91-95 | the framework's other errors, ctx.throw's HTTP errors among them, are 500 with their message and no code |
| ErrorHandling.ForbiddenAnswered500 | src/infrastructure/koa/middleware/errorHandler.middleware.ts:91-95 | as written, a ForbiddenError whose message lacks E11000 is answered 500 |
| ErrorHandling.ClassifyFixedProperties | src/error/forbidden.error.ts:1-9 | the corrected table answers ForbiddenError 403 with its message, 403 for nothing else, and agrees with the written table on every other error |
| ErrorHandling.AuthorizationDenialsAre500 | src/infrastructure/koa/middleware/authorize.build.middleware.ts:110-160 | as written, a ForbiddenError a request's stages raise (its message lacking E11000) reaches the client as 500 through the error middleware |
| ErrorHandling.AuthorizationDenialsAre403 | src/error/forbidden.error.ts:1-9 | in the corrected program, every ForbiddenError a request's stages raise reaches the client as 403 through the corrected error middleware |
| ErrorHandling.CustomHandlerWins | src/infrastructure/koa/middleware/errorHandler.middleware.ts:35-38 | a hook that handles the error decides the whole response; the table is not consulted |
| ErrorHandling.DefaultHandleWritesStatusAndBody | src/infrastructure/koa/middleware/errorHandler.middleware.ts:98-102 | with the base hook, which handles nothing, handle writes exactly the written table's status and body and nothing else |
| Router.RouteKeyInjective | src/infrastructure/koa/registerRouter.provider.ts:141-142 | the key `<verb>:<path>` determines the verb and the path, so distinct routes are stored under distinct keys |
| Router.RegisterAllKeys | src/infrastructure/koa/registerRouter.provider.ts:245-261 | after a registration without error the stored keys are exactly the earlier ones plus the key of every entry whose method exists |
| Router.RegisterAllPaths | src/infrastructure/koa/registerRouter.provider.ts:245-261 | a registration without error documents one path per entry whose method exists, after the paths documented before |
| Router.RegisteredRouteIsFound | src/infrastructure/koa/registerRouter.provider.ts:119-173 | a route whose builders succeed is stored under its key with the list they built, and every other stored route keeps its list |
| Router.DistinctRoutesKeepBoth | src/infrastructure/koa/registerRouter.provider.ts:141-142 | two routes that differ in verb or full path are both kept, neither replacing the other |
| Router.ExecuteFindsRegistered | src/infrastructure/koa/registerRouter.provider.ts:141-142 | a registered route is found again under the key built from its verb and full path |
| Router.FullPathNormalised | src/infrastructure/koa/registerRouter.provider.ts:246-248 | a route's full path is non-empty, has no doubled slash, ends in a slash only when it is the root, and is already normalised |
| Router.FullPathKeepsText | src/infrastructure/koa/registerRouter.provider.ts:246-248 | the full path keeps the segments of the context path, base path and route path, in that order |
| Router.Registrable | src/infrastructure/koa/registerRouter.provider.ts:245-261 | at most one registered route per entry |
| Router.RegisterRouter.constructor | src/infrastructure/koa/registerRouter.provider.ts:44 | a new router holds no routes |
| Router.RegisterRouter.RunBuilders | src/infrastructure/koa/registerRouter.provider.ts:86-114 | one builder group's loop pushes each stage a builder gives, in order, and stops at the first builder error |
| Router.RegisterRouter.BuildHandlers | src/infrastructure/koa/registerRouter.provider.ts:78-117 | the stage list is execution context, authentication, request validation, authorization, the bound method, then response validation, or the first builder error |
| Router.RegisterRouter.RegisterRoute | src/infrastructure/koa/registerRouter.provider.ts:119-173 | a missing method registers nothing; a builder error changes nothing; otherwise the list is stored under `<verb>:<full path>` and the route is documented |
| Router.RegisterRouter.GetRouteHandlers | src/infrastructure/koa/registerRouter.provider.ts:175-182 | the list stored under `<verb>:<path>` exactly when that key is stored |
| Router.RegisterRouter.ExecuteRoute | src/infrastructure/koa/registerRouter.provider.ts:184-218 | an unknown route is "Route not found: verb path" and runs nothing; a known one runs its stored list with koa-compose semantics |
| Router.RegisterRouter.RegisterController | src/infrastructure/koa/registerRouter.provider.ts:220-262 | a class without controller options registers nothing; otherwise each route in turn under its normalised full path, stopping at the first error |
| MagicRouting.BuildHandlers | MagicRouter.ts:81-128 | the stages are request validation, the path-pattern stage, authentication and authorization when configured, the custom middlewares in order, every handler but the last in order, the wrapped last handler and response validation |
| MagicRouting.HeadStages | MagicRouter.ts:83-122 | the stages before the custom middlewares: request validation, the path pattern, then the configured authentication and authorization |
| MagicRouting.RunMagic | MagicRouter.ts:118-127 | koa-compose over the stages: a run that reaches the end raised nothing and entered every stage; the stages entered are always a prefix of the list |
| MagicRouting.RunMagicAppend | MagicRouter.ts:118-127 | running a + b runs a and then runs b on what a left exactly when a ran to its end |
| MagicRouting.PathPatternRecorded | MagicRouter.ts:87-91 | the path-pattern stage records the matched route pattern, or the request path when none matched, and always goes on |
| MagicRouting.WrappedLastGoesOn | MagicRouter.ts:113-116 | the last handler is followed by the next stage whether or not it calls its own next; only an error stops it |
| MagicRouting.PlainHandlerCanStop | MagicRouter.ts:124 | a handler before the last that does not call next ends the chain, with no error |
| MagicRouting.ResponseValidationFollowsLastHandler | MagicRouter.ts:109-127 | when the stages before the last handler all go on and it does not throw, response validation runs on what the last handler left |
| MagicRouting.LastTwoStages | MagicRouter.ts:113-127 | after a prefix that runs to its end, the wrapped last handler and response validation both run |
| MagicRouting.NoHandlersThrows | MagicRouter.ts:110-115 | a config without handlers fails with a TypeError when the chain reaches the missing last handler |
| MagicRouting.ConvertPathRoundTrip | MagicRouter.ts:130-133 | an OpenAPI path the Swagger processor wrote from a Koa path without '{' converts back to that Koa path |
| MagicRouting.RegistrationOf | MagicRouter.ts:170-183 | the registered path is the full prefix followed by the route's path; the bearer requirement is set exactly when authentication is configured with any method or with JWT |
| MagicRouting.OwnRegistrations | MagicRouter.ts:169-216 | one registration per own route, in order |
| MagicRouting.OwnRoutesRegisteredFirst | MagicRouter.ts:165-216 | the router's own routes are registered first, each under parent prefix, base path and route path |
| MagicRouting.ChildWalkIncluded | MagicRouter.ts:219-229 | every registration of a child's walk is among its parent's |
| MagicRouting.ChildRouteRegistered | MagicRouter.ts:165-229 | a mounted child's route is registered under parent prefix, base path, mount prefix, the child's base path and the route's path |
| MagicRouting.ActionsOfRoute | MagicRouter.ts:279-284 | a route without authorization contributes nothing; one with it contributes its system (its own id, else the default), its full path, resource and operation |
| MagicRouting.FindSystem | MagicRouter.ts:286 | the index of the first entry of the system, or none when no entry has that id |
| MagicRouting.FindAction | MagicRouter.ts:292-294 | the index of the first action entry with the path, or none when no entry has that path |
| MagicRouting.AddOp | MagicRouter.ts:304-306 | the operation is appended exactly when it is not already there |
| MagicRouting.AddAllAppend | MagicRouter.ts:279-316 | walking two lists of actions is walking the first, then the second |
| MagicRouting.AddActionEntry | MagicRouter.ts:286-306 | one route changes only the entry of its own system and path: a new entry starts with its resource and no operations, then the operation is added unless present |
| MagicRouting.AddAllEntry | MagicRouter.ts:279-316 | seen from one system and path, the walk only depends on that system's routes on that path |
| MagicRouting.WalkOperations | MagicRouter.ts:279-316 | an entry's operations after the walk are those it had, then its routes' operations in the order met, each once |
| MagicRouting.FoldOperations | MagicRouter.ts:304-306 | folding routes into one entry adds their operations in order, skipping those present |
| MagicRouting.AddOpsProperties | MagicRouter.ts:304-306 | existing operations stay in front, the result holds exactly the old and the added operations, and no operation repeats |
| MagicRouting.FirstRouteResource | MagicRouter.ts:295-302 | the first route of a system and path sets the entry's resource type; later routes on that path do not change it |
| MagicRouting.FoldResource | MagicRouter.ts:295-302 | for a new entry, the resource type is that of the first matching route |
| MagicRouting.FoldNone | MagicRouter.ts:292-302 | with no matching route, no entry is created |
| MagicRouting.AppendSystemGrouped | MagicRouter.ts:287-290 | adding a system that is not present keeps one entry per system |
| MagicRouting.AppendActionDistinct | MagicRouter.ts:295-302 | adding an action entry for a path that is not present keeps one entry per path |
| MagicRouting.AddOpNoRepeats | MagicRouter.ts:304-306 | adding an operation never repeats one |
| MagicRouting.UpdateOpsDistinct | MagicRouter.ts:304-306 | changing one entry's operations keeps the paths distinct |
| MagicRouting.UpdateSystemGrouped | MagicRouter.ts:292-306 | changing one system's entries keeps the systems distinct |
| MagicRouting.AddActionGrouped | MagicRouter.ts:286-306 | one route keeps the accumulator grouped: one entry per system, one per path in a system, no repeated operation |
| MagicRouting.AddAllGrouped | MagicRouter.ts:279-316 | the whole walk keeps a grouped accumulator grouped |
| MagicRouting.UnauthorizedRoutesIgnored | MagicRouter.ts:280 | routes without authorization contribute no action |
| MagicRouting.AuthorizedRouteContributes | MagicRouter.ts:279-307 | every authorized route contributes its action under its full path |
| MagicRouting.OwnActionsStep | MagicRouter.ts:279-307 | one more route adds its actions at the end |
| MagicRouting.AddAllSingle | MagicRouter.ts:281-307 | walking one action is one step |
| MagicRouting.ChildLoopStep | MagicRouter.ts:310-316 | one child's walk is one step of the child loop |
| MagicRouting.ChildLoopEnd | MagicRouter.ts:276-318 | after both loops the accumulator is the walk of the whole tree |
| MagicRouting.WalkIsGrouped | MagicRouter.ts:257-319 | a walk from the empty accumulator is grouped |
| MagicRouting.MagicRouter.constructor | MagicRouter.ts:75-79 | the base path is the prefix option, or '' without one; no routes and no children |
| MagicRouting.MagicRouter.Tree | MagicRouter.ts:67-72 | the tree view has the router's base path, routes and children |
| MagicRouting.MagicRouter.RegisterRoute | MagicRouter.ts:321-330 | the config with its method set is appended; returned are its converted Koa path and its built stages |
| MagicRouting.MagicRouter.AddRoute | MagicRouter.ts:332-361 | the config is recorded and koa-router gets the verb, the Koa path and the stages, appended after the earlier ones |
| MagicRouting.MagicRouter.Get | MagicRouter.ts:333-337 | as AddRoute with GET |
| MagicRouting.MagicRouter.Post | MagicRouter.ts:339-343 | as AddRoute with POST |
| MagicRouting.MagicRouter.Put | MagicRouter.ts:345-349 | as AddRoute with PUT |
| MagicRouting.MagicRouter.Delete | MagicRouter.ts:351-355 | as AddRoute with DELETE |
| MagicRouting.MagicRouter.Patch | MagicRouter.ts:357-361 | as AddRoute with PATCH |
| MagicRouting.MagicRouter.UseMagic | MagicRouter.ts:135-154 | a prefix with a router mounts it under the prefix, a router alone under ''; a prefix without a router mounts nothing |
| MagicRouting.MagicRouter.RegistryAll | MagicRouter.ts:165-230 | the registrations are the router's tree walk: own routes, then each child's under the full prefix and its mount prefix |
| MagicRouting.MagicRouter.CollectOwnActions | MagicRouter.ts:278-307 | the first loop adds the router's own authorized routes' actions, in order |
| MagicRouting.MagicRouter.GetAvailableActions | MagicRouter.ts:257-319 | the accumulator after the walk of the router's tree: own routes first, then each child's under the full prefix and its mount prefix |
| MagicRouting.CollectChildActions | MagicRouter.ts:309-316 | the second loop walks each child in mount order under the full prefix and its mount prefix |
| Paths.WordRun | src/infrastructure/koa/middleware/authorize.build.middleware.ts:44 | the longest prefix of word characters: every character in it is a word character and the next one is not |
| Paths.WordRunOf | src/infrastructure/koa/middleware/authorize.build.middleware.ts:44 | a run of word characters followed by the end or a non-word character is exactly what the scan takes |
| Paths.ReplaceParamsStep | src/infrastructure/koa/middleware/authorize.build.middleware.ts:43-46 | a ':name' at the front is replaced by f(name) and the scan continues after the name |
| Paths.ReplaceParamsLiteral | src/infrastructure/koa/middleware/authorize.build.middleware.ts:43-46 | text without ':' is copied unchanged, whatever follows it |
| Paths.ReplaceParamsNone | src/infrastructure/koa/middleware/authorize.build.middleware.ts:43-46 | a path without parameters is left as it is |
| Paths.KoaPathBraceStep | MagicRouter.ts:130-133 | a '{name}' at the front becomes ':name' |
| Paths.KoaPathLiteral | MagicRouter.ts:130-133 | any other first character is copied |
| Paths.KoaPathInvertsSwaggerPath | src/infrastructure/swagger/swaggerProcessor.ts:15-17 | on a path without '{', MagicRouter's conversion undoes the Swagger processor's |
| Paths.SwaggerPathParam | src/infrastructure/swagger/swaggerProcessor.ts:15-17 | a literal prefix is copied and the ':name' after it becomes '{name}' |
| Paths.NormalizePath | src/infrastructure/koa/registerRouter.provider.ts:246-248 | the normalised full path is never empty, has no double slash, and ends in '/' only when it is '/' |
| Paths.CollapseHead | src/infrastructure/koa/registerRouter.provider.ts:247 | collapsing is empty only on the empty path and keeps whether the path starts with '/' |
| Paths.CollapseNoDoubleSlash | src/infrastructure/koa/registerRouter.provider.ts:247 | after collapsing there are no two adjacent slashes |
| Paths.CollapseIdentity | src/infrastructure/koa/registerRouter.provider.ts:247 | a path without double slashes is its own collapse |
| Paths.NormalizeIdempotent | src/infrastructure/koa/registerRouter.provider.ts:246-248 | normalising a normalised path changes nothing |
| Paths.SegmentsAppend | src/infrastructure/koa/registerRouter.provider.ts:246-248 | the non-slash characters of a concatenation are those of each part, in order |
| Paths.CollapseKeepsSegments | src/infrastructure/koa/registerRouter.provider.ts:247 | collapsing keeps every non-slash character, in order |
| Paths.NormalizeKeepsSegments | src/infrastructure/koa/registerRouter.provider.ts:246-248 | normalisation only removes slashes: every other character is kept, in order |
| Swagger.SwaggerDoc | src/decorator/swaggerDoc.decorator.ts:20-34 | the method's document is stored under its name; every other entry and class is unchanged |
| Swagger.OpenApiRegistry.constructor | src/infrastructure/swagger/swaggerProcessor.ts:11 | a new registry has no paths |
| Swagger.OpenApiRegistry.RegisterPath | src/infrastructure/swagger/swaggerProcessor.ts:51 | the route config is appended to the registered paths |
| Swagger.Documented | src/infrastructure/swagger/swaggerProcessor.ts:19-52 | without controller options nothing is registered; otherwise exactly one path is appended, with the Swagger form of the full path and the lower-case verb |
| Swagger.ProcessSwaggerRoute | src/infrastructure/swagger/swaggerProcessor.ts:19-52 | the registry's paths become those Documented gives for the route |
| Swagger.VerbNames | src/infrastructure/swagger/swaggerProcessor.ts:37 | GET, POST, PUT, DELETE and PATCH are documented as get, post, put, delete and patch |
| Swagger.UndocumentedRouteDefaults | src/infrastructure/swagger/swaggerProcessor.ts:33-49 | a route without method or controller documents gets no summary, no description, no tags and the single response 200 'Success' |
| Swagger.ControllerDocFallback | src/infrastructure/swagger/swaggerProcessor.ts:41-43 | the controller's description and tags document a method that gives neither |
| Swagger.MethodDocWins | src/infrastructure/swagger/swaggerProcessor.ts:39-48 | the method's summary, extra fields, tags and responses win; an empty tag list is kept, an empty description falls back to the controller's |
| Swagger.DocumentedPathRoundTrip | src/infrastructure/swagger/swaggerProcessor.ts:15-38 | MagicRouter's conversion turns the documented path back into the full path when it has no '{' |
| Metadata.Visited | src/decorator/metadata.util.ts:15-19 | the walk visits the longest prefix of class prototypes and stops at the first built-in root or the end of the chain |
| Metadata.CollectMetadataFromPrototypeChain | src/decorator/metadata.util.ts:9-35 | the loop's result is the merge of the visited levels' own records, nearest first, so that farther levels overwrite nearer ones |
| Metadata.MergeLevelsKeys | src/decorator/metadata.util.ts:20-23 | a key is in the merge of n levels exactly when one of those levels defines it |
| Metadata.CollectedKeys | src/decorator/metadata.util.ts:9-35 | a key is in the collected metadata exactly when some visited level's own record defines it |
| Metadata.MergeLevelsFarthestWins | src/decorator/metadata.util.ts:22 | a key takes the value of the farthest level that defines it |
| Metadata.CollectedFarthestWins | src/decorator/metadata.util.ts:9-35 | in the collected metadata, an inherited entry overrides the subclass's entry for the same method |
| Metadata.CollectedEmpty | src/decorator/metadata.util.ts:12-21 | with no own metadata on any visited level the result is the empty record |
| Metadata.CollectedStopsAtRoot | src/decorator/metadata.util.ts:17-18 | nothing past Object.prototype or Function.prototype can change the result |
| Metadata.MergeLevelsAgree | src/decorator/metadata.util.ts:15-32 | the merge depends only on the levels it visits |
| Metadata.MetadataRegistry.OwnRecord | src/decorator/route.decorator.ts:16-19 | the class's stored record, or the empty record |
| Metadata.MetadataRegistry.Define | src/decorator/route.decorator.ts:16-24 | the class's record gains or replaces one entry; every other class is unchanged |
| Metadata.MetadataRegistry.Collect | src/decorator/metadata.util.ts:9-35 | returns the collected metadata of the chain over this registry's store |
| Metadata.MetadataRegistry.constructor | src/decorator/metadata.util.ts:12 | a new registry stores nothing |
| Decorators.RouteDecorator | src/decorator/route.decorator.ts:13-33 | decorating a method with a verb and path stores {verb, path} under that method's name in the class's record; every other class's and method's entry is unchanged |
| Decorators.AuthenticatedEntry | src/decorator/authentication.decorator.ts:13 | the stored options are the given ones, or the empty options without an argument |
| Decorators.Authenticated | src/decorator/authentication.decorator.ts:13-24 | the method's entry becomes the given (or empty) options; nothing else in the registry changes |
| Decorators.GetAuthenticationMetadata | src/decorator/authentication.decorator.ts:26-32 | with a method name, the merged entry of that method (absent exactly when no visited level defines it); without one, the whole merged map |
| Decorators.AuthorizeEntryOf | src/decorator/authorize.decorator.ts:10-11 | operation, partition and region are copied; the resource builder is the given one, or one that returns its GRN unchanged |
| Decorators.Authorize | src/decorator/authorize.decorator.ts:26-40 | the class's record gains exactly the method's key, with the completed entry; other keys and other classes are untouched |
| Decorators.ZodValidateRequest | src/decorator/zodValidateRequest.decorator.ts:15-26 | the method's entry becomes the given params/body/query schemas; nothing else changes |
| Decorators.ZodValidateResponse | src/decorator/zodValidateResponse.decorator.ts:13-24 | the method's entry becomes the given status-to-schema map; nothing else changes |
| Decorators.InjectCoreTenantId | src/decorator/injectCoreTenantId.decorator.ts:10-21 | the method is marked true; nothing else changes |
| Stereotypes.Controller | src/stereotype/controller.stereotype.ts:22-31 | @Controller records the controller identity and keeps basePath, system and resource, with multiTenant true only when the caller passed true |
| Stereotypes.ControllerDropsExtraFields | src/stereotype/controller.stereotype.ts:25-30 | only the four known option fields are stored: inputs that agree on them store the same options |
| Stereotypes.Repository | src/stereotype/repository.stereotype.ts:15-21 | @Repository records the repository identity, with multiTenant true only when options were given with multiTenant true |
| Stereotypes.InheritedLookup | src/stereotype/controller.stereotype.ts:40-49 | the inheriting metadata read finds the nearest decorated class on the chain, and nothing when no class on it is decorated |
| Stereotypes.DecoratedControllerOptions | src/stereotype/controller.stereotype.ts:31-48 | a class decorated with @Controller reads back exactly the options it stored, whatever its ancestors carry |
| Stereotypes.UndecoratedControllerOptions | src/stereotype/controller.stereotype.ts:47 | a class with no decorated class on its chain has no controller options |
| Tenancy.ResolveTenantDbName | src/infrastructure/tenant/defaultTenantResolver.provider.ts:62-69 | the default resolver fails with TenantResolverNotConfiguredError for the tenant asked about; a custom one gives its own answer |
| Tenancy.GetTenantCorePublicUuid | src/infrastructure/tenant/defaultTenantResolver.provider.ts:71-78 | the default resolver fails with TenantResolverNotConfiguredError("core") |
| Tenancy.GetDbName | src/infrastructure/tenant/defaultTenantResolver.provider.ts:35-57 | a null or empty context tenant id is "No tenant context available"; otherwise the resolver's answer for that tenant |
| Tenancy.DefaultResolverNeverResolves | src/infrastructure/tenant/defaultTenantResolver.provider.ts:60-79 | with the default resolver getDbName always fails, naming the context's tenant when there is one |
| MongoRepositories.ResolveDbName | src/abstract/AbstractMongoRepository.ts:62-101 | no execution context is ExecutionContextNotInitialized; a single-tenant repository uses MONGODB_CORE_DBNAME; a multi-tenant one fails with TenantIdRequired when the context's tenant id is falsy, and otherwise asks the tenant resolver |
| MongoRepositories.MultiTenantResolvesContextTenant | src/abstract/AbstractMongoRepository.ts:83-97 | a multi-tenant repository with a truthy context tenant id gets the database the resolver names for that tenant |
| MongoRepositories.SingleTenantIgnoresTenant | src/abstract/AbstractMongoRepository.ts:99-100 | a single-tenant repository's database does not depend on the context's tenant id |
| MongoRepositories.CacheKeyInjective | src/abstract/AbstractMongoRepository.ts:105 | for one collection, equal "db:collection" cache keys mean the same database, so a cached model is never shared between databases |
| MongoRepositories.FindByIdIn | src/abstract/AbstractCrudMongoRepository.ts:81-89 | a found document is stored and has the id; none found means no stored document has it |
| MongoRepositories.FindOneIn | src/abstract/AbstractCrudMongoRepository.ts:99-113 | a found document is stored and matches the filter; none found means nothing matches |
| MongoRepositories.Matching | src/abstract/AbstractCrudMongoRepository.ts:115-121 | exactly the stored documents the filter matches, never more documents than stored |
| MongoRepositories.NotMatching | src/abstract/AbstractCrudMongoRepository.ts:215-222 | exactly the stored documents the filter does not match: what deleteMany keeps |
| MongoRepositories.SplitCounts | src/abstract/AbstractCrudMongoRepository.ts:215-222 | matching and kept documents together account for the whole collection, so the deleted count is the number of matches |
| MongoRepositories.CeilDiv | src/abstract/AbstractCrudMongoRepository.ts:166 | totalPages is the ceiling of total over limit |
| MongoRepositories.TotalPagesCoverAll | src/abstract/AbstractCrudMongoRepository.ts:166 | totalPages pages of limit documents hold every match, and one page fewer would not |
| MongoRepositories.SkipLimit | src/abstract/AbstractCrudMongoRepository.ts:148 | skip/limit yields at most limit documents, the window from skip when it fits, nothing past the end |
| MongoRepositories.PageItems | src/abstract/AbstractCrudMongoRepository.ts:141-148 | a page never holds more than limit documents |
| MongoRepositories.UnsortedPage | src/abstract/AbstractCrudMongoRepository.ts:141-148 | without a sortBy field a full page is the matches from skip to skip + limit in stored order |
| MongoRepositories.FoundOr | src/abstract/AbstractCrudMongoRepository.ts:86-88 | a found document is returned, a missing one is the given error |
| MongoRepositories.MongoRepository.constructor | src/abstract/AbstractMongoRepository.ts:49 | a repository starts with an empty model cache |
| MongoRepositories.MongoRepository.ClearModelCache | src/abstract/AbstractMongoRepository.ts:58-60 | the model cache is empty afterwards |
| MongoRepositories.MongoRepository.CacheStepReusesModel | src/abstract/AbstractMongoRepository.ts:103-122 | a second lookup in the same environment leaves the cache as the first left it, so each database and collection gets one model |
| MongoRepositories.MongoRepository.GetCollection | src/abstract/AbstractMongoRepository.ts:103-122 | a database error leaves the cache as it was; otherwise the model for that database and collection is returned, reused on a hit, created fresh and cached under "db:collection" on a miss, and nothing else in the cache changes |
| MongoRepositories.MongoRepository.Create | src/abstract/AbstractCrudMongoRepository.ts:72-79 | the new document is appended to the resolved collection and returned; an existing `_id` is an E11000 error and the store is unchanged; the model cache changes only as getCollection changes it: not at all on a database error or a hit, by one new "db:collection" entry on a miss |
| MongoRepositories.MongoRepository.FindById | src/abstract/AbstractCrudMongoRepository.ts:81-89 | the stored document with the id, or NotFoundError(collection, id); the model cache changes only as getCollection changes it: not at all on a database error or a hit, by one new "db:collection" entry on a miss |
| MongoRepositories.MongoRepository.FindOne | src/abstract/AbstractCrudMongoRepository.ts:99-113 | the first match; with no match null when notFoundReturnNull is set, otherwise NotFoundError naming the filter's JSON; the model cache changes only as getCollection changes it: not at all on a database error or a hit, by one new "db:collection" entry on a miss |
| MongoRepositories.MongoRepository.FindAll | src/abstract/AbstractCrudMongoRepository.ts:115-121 | every match, in stored order; the model cache changes only as getCollection changes it: not at all on a database error or a hit, by one new "db:collection" entry on a miss |
| MongoRepositories.MongoRepository.FindMany | src/abstract/AbstractCrudMongoRepository.ts:123-128 | the same documents as findAll; the model cache changes only as getCollection changes it: not at all on a database error or a hit, by one new "db:collection" entry on a miss |
| MongoRepositories.MongoRepository.FindAllPaginated | src/abstract/AbstractCrudMongoRepository.ts:130-169 | the page of the (optionally sorted) matches, with page and limit echoed, total counting every match and totalPages its ceiling over limit; the model cache changes only as getCollection changes it: not at all on a database error or a hit, by one new "db:collection" entry on a miss |
| MongoRepositories.MongoRepository.Update | src/abstract/AbstractCrudMongoRepository.ts:171-182 | a stored document is replaced in its collection and the entity returned; a document no longer stored is an error and nothing changes |
| MongoRepositories.MongoRepository.UpdateByQuery | src/abstract/AbstractCrudMongoRepository.ts:184-195 | the updated document replaces the stored one and is returned; a missing id is NotFoundError and nothing changes; the model cache changes only as getCollection changes it: not at all on a database error or a hit, by one new "db:collection" entry on a miss |
| MongoRepositories.MongoRepository.Delete | src/abstract/AbstractCrudMongoRepository.ts:197-205 | the document is removed and returned; a missing id is NotFoundError and nothing changes; the model cache changes only as getCollection changes it: not at all on a database error or a hit, by one new "db:collection" entry on a miss |
| MongoRepositories.MongoRepository.Count | src/abstract/AbstractCrudMongoRepository.ts:207-213 | the number of matches; the model cache changes only as getCollection changes it: not at all on a database error or a hit, by one new "db:collection" entry on a miss |
| MongoRepositories.MongoRepository.DeleteMany | src/abstract/AbstractCrudMongoRepository.ts:215-222 | every match is removed, the rest kept in order, and the count returned is the number of matches; the model cache changes only as getCollection changes it: not at all on a database error or a hit, by one new "db:collection" entry on a miss |
| CrudServices.Skip | src/abstract/AbstractCrudService.ts:174 | the first page skips nothing, and no page skips a negative count |
| CrudServices.MongoOptionsFor | src/abstract/AbstractCrudService.ts:174-182 | page, limit, sortBy and descending reach the repository unchanged, with skip = (page - 1) * limit |
| CrudServices.SkipAdvancesByLimit | src/abstract/AbstractCrudService.ts:174 | the next page starts exactly limit documents later |
| CrudServices.PageWindow | src/abstract/AbstractCrudService.ts:160-194 | without a sort field, page p holds the matches from (p - 1) * limit on, at most limit of them, clipped to the collection |
| CrudServices.ConsecutivePagesAdjoin | src/abstract/AbstractCrudService.ts:160-194 | page p followed by page p + 1 is the window of both: no document is skipped or repeated between pages |
| CrudServices.AdjacentPagesAdjoin | src/abstract/AbstractCrudMongoRepository.ts:141-148 | two unsorted queries of one limit, the second skipping what the first covers, adjoin with no gap and no overlap |
| CrudServices.WindowsAdjoin | src/abstract/AbstractCrudMongoRepository.ts:148 | two consecutive skip/limit windows of width l make the window of width 2l |
| CrudServices.DuplicateMessageMentionsCode | src/infrastructure/koa/middleware/errorHandler.middleware.ts:61 | the duplicate-key error a create raises mentions E11000, so the error handler answers it as a conflict |
| CrudServices.CrudService.constructor | src/abstract/AbstractCrudService.ts:42-62 | a service wraps one repository and the concrete service's hooks |
| CrudServices.CrudService.CreateFromDto | src/abstract/AbstractCrudService.ts:66-72 | the repository creates the document buildCreateDataFromDto gives; an existing id is a duplicate-key error and nothing is written; the model cache changes only as getCollection changes it: not at all on a database error or a hit, by one new "db:collection" entry on a miss |
| CrudServices.CrudService.Create | src/abstract/AbstractCrudService.ts:75-80 | the repository's create, unchanged, with a duplicate id answered as a duplicate-key error; the model cache changes only as getCollection changes it: not at all on a database error or a hit, by one new "db:collection" entry on a miss |
| CrudServices.CrudService.FindById | src/abstract/AbstractCrudService.ts:83-86 | the stored document or NotFoundError, as the repository gives it; the model cache changes only as getCollection changes it: not at all on a database error or a hit, by one new "db:collection" entry on a miss |
| CrudServices.CrudService.FindOne | src/abstract/AbstractCrudService.ts:89-94 | the first match, and a miss is NotFoundError (never null); the model cache changes only as getCollection changes it: not at all on a database error or a hit, by one new "db:collection" entry on a miss |
| CrudServices.CrudService.FindAll | src/abstract/AbstractCrudService.ts:97-109 | every match, as the repository gives it; the model cache changes only as getCollection changes it: not at all on a database error or a hit, by one new "db:collection" entry on a miss |
| CrudServices.CrudService.UpdateFromDto | src/abstract/AbstractCrudService.ts:112-122 | a missing id is NotFoundError with nothing written; otherwise buildUpdate's entity is saved into the collection the document came from and returned; the model cache changes only as getCollection changes it: not at all on a database error or a hit, by one new "db:collection" entry on a miss |
| CrudServices.CrudService.Update | src/abstract/AbstractCrudService.ts:125-130 | the repository's update, unchanged |
| CrudServices.CrudService.UpdateByQuery | src/abstract/AbstractCrudService.ts:133-141 | the repository's updateByQuery, unchanged; the model cache changes only as getCollection changes it: not at all on a database error or a hit, by one new "db:collection" entry on a miss |
| CrudServices.CrudService.Delete | src/abstract/AbstractCrudService.ts:144-149 | the repository's delete, unchanged; the model cache changes only as getCollection changes it: not at all on a database error or a hit, by one new "db:collection" entry on a miss |
| CrudServices.CrudService.Count | src/abstract/AbstractCrudService.ts:152-155 | the number of matches; the model cache changes only as getCollection changes it: not at all on a database error or a hit, by one new "db:collection" entry on a miss |
| CrudServices.CrudService.FindAllPaginated | src/abstract/AbstractCrudService.ts:158-194 | the filter goes through buildPaginationFilter, the repository gets skip = (page - 1) * limit, and its page and metadata are returned as they are; the model cache changes only as getCollection changes it: not at all on a database error or a hit, by one new "db:collection" entry on a miss |
| CrudControllers.ValidateMultiTenantSetup | src/abstract/AbstractController.ts:34-49 | fails if and only if the options say multiTenant and params.tenantId is missing or empty, and then with MultiTenantConfigurationError naming the class |
| CrudControllers.SingleTenantNeverRejects | src/abstract/AbstractController.ts:37-39 | without options, or with multiTenant false, the guard never fails |
| CrudControllers.NumeralValue | src/abstract/AbstractCrudController.ts:30-31 | a one-digit numeral has that digit's value (the recursion reads the rest) |
| CrudControllers.NumberOr | src/abstract/AbstractCrudController.ts:30-31 | an absent or empty query value gives the fallback, a numeral its value |
| CrudControllers.ExtractPaginationAndFilter | src/abstract/AbstractCrudController.ts:24-36 | page and limit default to 1 and 25; sortBy is kept exactly when it is a single string; descending holds exactly for the string 'true'; the filter is every other key with its value |
| CrudControllers.PlainQueryDefaults | src/abstract/AbstractCrudController.ts:28-35 | a query without paging keys asks for page 1 of 25, unsorted, ascending, and is its own filter |
| CrudControllers.DescendingIsLiteralTrue | src/abstract/AbstractCrudController.ts:33 | 'TRUE', '1' and a repeated 'true' do not sort descending |
| CrudControllers.CrudController.constructor | src/abstract/AbstractCrudController.ts:21-22 | the controller holds its class, service and mapper |
| CrudControllers.CrudController.Create | src/abstract/AbstractCrudController.ts:38-49 | the guard runs first; then the created entity is appended (or E11000 on a taken id) and the response is 201 with the create-response DTO; once the guard passes, the model cache changes only as getCollection changes it: not at all on a database error or a hit, by one new "db:collection" entry on a miss; every error leaves the whole store as it was, and a successful create changes only the resolved collection |
| CrudControllers.CrudController.FindAllPaginated | src/abstract/AbstractCrudController.ts:51-63 | the guard runs first; the body is the mapped page of the matching documents with echoed page and limit, total and ceil(total/limit); the status is untouched; once the guard passes, the model cache changes only as getCollection changes it: not at all on a database error or a hit, by one new "db:collection" entry on a miss |
| CrudControllers.CrudController.FindById | src/abstract/AbstractCrudController.ts:65-74 | the guard runs first; a missing id is NotFoundError(collection, id); otherwise the body is the find-by-id DTO and the status is untouched; once the guard passes, the model cache changes only as getCollection changes it: not at all on a database error or a hit, by one new "db:collection" entry on a miss |
| CrudControllers.CrudController.Update | src/abstract/AbstractCrudController.ts:76-88 | the guard runs first; a missing id is NotFoundError; otherwise the built update replaces the stored document and the body is its update-response DTO; once the guard passes, the model cache changes only as getCollection changes it: not at all on a database error or a hit, by one new "db:collection" entry on a miss; every error (the guard, the database, a missing id, a save target no longer stored) leaves the whole store as it was, and a successful update changes only the resolved collection |
| CrudControllers.CrudController.Delete | src/abstract/AbstractCrudController.ts:90-100 | the guard runs first; a missing id is NotFoundError; otherwise the document is removed and the response is 204 with no body; once the guard passes, the model cache changes only as getCollection changes it: not at all on a database error or a hit, by one new "db:collection" entry on a miss; every error leaves the whole store as it was, and a successful delete changes only the resolved collection |
| CrudMappers.ToDto | src/abstract/AbstractCrudMapper.ts:44-46 | the plain object holds the document's fields and the entity's _id |
| CrudMappers.MapAll | src/abstract/AbstractCrudMapper.ts:82 | map with a throwing function: succeeds exactly when every element's parse succeeds, and then gives the parses in order; otherwise fails with the error of the first element that fails |
| CrudMappers.FailureShifts | src/abstract/AbstractCrudMapper.ts:82 | a failure in the tail after a succeeding head is the whole list's first failure |
| CrudMappers.MapAllDistribute | src/abstract/AbstractCrudMapper.ts:82 | when both halves map, mapping the concatenation is the concatenation of the maps |
| CrudMappers.ToPaginatedItemsDto | src/abstract/AbstractCrudMapper.ts:78-83 | every entity is parsed with the item schema, in order; the first entity whose parse throws decides the error |
| CrudMappers.ToPaginatedResponse | src/abstract/AbstractCrudMapper.ts:85-93 | the items are mapped and the pagination metadata is kept as it is; a failed item parse is the response's error |
| CrudMappers.ItemsDistribute | src/abstract/AbstractCrudMapper.ts:78-83 | two pages mapped one after the other equal the two pages' items mapped together |
| FieldSchemas.XssWithoutColonOrEquals | src/common/field/field.schema.ts:11-14 | for input with no ':' and no '=', the XSS rule accepts exactly when none of the five markup characters occurs |
| FieldSchemas.XssSchemeIgnoresCase | src/common/field/field.schema.ts:12 | 'JavaScript:' anywhere in the input is rejected, because the pattern ignores case |
| FieldSchemas.XssAttributeWithoutBoundary | src/common/field/field.schema.ts:12 | 'condition=1' is rejected: the on-attribute pattern has no word boundary |
| FieldSchemas.SsrfNeedsExactlyOneAt | src/common/field/field.schema.ts:16-18 | an address passes the SSRF rule only with exactly one '@' |
| FieldSchemas.SsrfJudgesDomain | src/common/field/field.schema.ts:16-25 | for local@domain with a single '@', the rule accepts exactly when the domain is neither blocked nor a private-range prefix |
| FieldSchemas.PrivateRangeBoundaries | src/common/field/field.schema.ts:21-23 | 172.16. and 172.31. are private prefixes; 172.15. and 172.32. are not |
| FieldSchemas.NameAccepted | src/common/field/field.schema.ts:50-54 | a name is accepted exactly when it has 3 to 100 characters, all letters, digits, whitespace, '_' or '-' |
| FieldSchemas.DescriptionAccepted | src/common/field/field.schema.ts:59-62 | a description is accepted exactly when it has at most 500 characters of its alphabet; the empty description is accepted |
| FieldSchemas.DbNameAccepted | src/common/field/field.schema.ts:67-74 | a database name is accepted exactly when it has 3 to 50 letters, digits, '_' or '-' |
| FieldSchemas.EmptyNameIssues | src/common/field/field.schema.ts:50-54 | every failed check is reported, in order: '' gets both the length and the alphabet messages |
| FieldSchemas.NamesAreXssSafe | src/common/field/field.schema.ts:11-54 | every accepted name also passes the XSS rule |
| FieldSchemas.DbNameCacheKeysDistinct | src/common/field/field.schema.ts:67-74 | two accepted database names give the same '<db>:<collection>' model-cache key only when the names and the collections are equal |
| FieldSchemas.PasswordAccepted | src/common/auth/auth.schema.ts:16-22 | a password is accepted exactly when it has at least 8 characters, a lower-case letter, an upper-case letter, a digit and a character outside [a-zA-Z0-9] |
| FieldSchemas.PasswordExample | src/common/auth/auth.schema.ts:25 | the documented example 'MySecure123!' is accepted |
| FieldSchemas.PasswordLowerOnly | src/common/auth/auth.schema.ts:18-22 | 'abcdefgh' gets exactly the upper-case, digit and special-character messages, in that order |

## Left out

- Koa, koa-router, koa-compose internals, bodyParser/helmet/cors, listening and shutdown of the HTTP server: HTTP plumbing. The server's start and stop are effects recorded by `Framework`; compose is the interpreter `Pipeline.Run`.
- Asynchronous interleaving of requests (AsyncLocalStorage across concurrent requests): concurrency. The context is a stack scoped by `init`, one request at a time.
- MongoDB and mongoose: connections, `useDb`, query execution and the filter language. A collection is a sequence of documents, a filter a predicate with its JSON text, a sort order a supplied function.
- `upsert` (src/abstract/AbstractMongoRepository.ts:124-136): none of the CRUD operations calls it. It is one `findOneAndUpdate` query with mongoose's upsert option, which is query execution, so it is not modelled.
- The IDM service (token validation, authorization decisions): network I/O; its answers are parameters.
- `stringifyGrn`, `isValidGrn`, `stringifyAction`, `isValidAction`: functions of an external package, supplied as uninterpreted parameters.
- Zod parsing itself, the RFC 5322 email pattern and the UUID checks: library behaviour. Issue lists are inputs; only the explicit length and character-class rules of the field and password schemas are modelled.
- OpenAPI document generation and Swagger UI: only the route defaulting of `processSwaggerRoute` and path conversion are modelled. The controller-level swagger document (`@SwaggerDocController`) is a parameter.
- Telemetry, tracing, spans and logging: no behaviour the rest depends on.
- Inversify itself: the container is a map from binding names to bound services. A second binding under an existing name replaces the first, whereas inversify would keep both (see `Frameworks.InitCoreBinds`). `setGlobalContainer` is not modelled.
- Framework components (Koa server, MongoDB provider, swagger provider) are recorded as effects; their own initialisation is not modelled.
- dotenv and `process.env`: I/O; the environment is a map passed in.
- `updatedAtMiddleware`: depends on the clock and its hook registration is commented out.
- The framework's `ValidationError` class (src/error/validationError.ts): no modelled operation raises it, so the error datatype has no kind of its own for it. Code that throws it is modelled as a library error named 'ValidationError' with no code (`ErrorHandling.ValidationErrorClassAnswered400`); its `details` and `toResponse` are not read by the handler and are not modelled.
- The IDM and error class files: folded into one error datatype whose messages are the classes' messages. `DefaultErrorHandler` (the concrete subclass of the error handler) is not part of this model; the base class's hook is.
- http.types and env.types are not part of this model: the `HttpMethod` values are the upper-case verb names, and an `EnvKey`'s value is its own name.
- `ctx.state` always exists in Koa, so `ctx.state || {}` in the populate-tenant stage adds nothing and is not modelled.
- uuid: transaction ids come from a counter.
- Metadata aliasing: the decorators read the record with `Reflect.getMetadata`, which returns the nearest record on the prototype chain. Route, Authenticated, Authorize, ZodValidateRequest, ZodValidateResponse and InjectCoreTenantId then add their entry to that record in place, so a subclass decorated after its parent writes into the parent's record. SwaggerDoc instead spreads the inherited record into a new one (src/decorator/swaggerDoc.decorator.ts:27-32) and leaves the parent's record alone. The model reads and writes the class's own record only.
- MagicRouting.MagicRouter.UseMagic: records the child router as it is at that moment; routes added to the child afterwards are not seen.
- MagicRouter's development-mode test registration and document check in `registryAll`, its log for a child that is not a MagicRouter, its imports of absent modules, and its getters (`getRouteConfigs`, `getSwaggerRoutes`, `routes`, `allowedMethods`, `getInternalRouter`): documentation output, logging and plumbing.
- MagicRouting: `onlyMethods?.jwt` is a boolean flag.
- CrudControllers.ExtractPaginationAndFilter: page and limit are decimal numerals or absent; `Number()` on other text (floats, NaN) is not modelled.
- CrudControllers.CrudController.FindAllPaginated, CrudServices.CrudService.FindAllPaginated and MongoRepositories.MongoRepository.FindAllPaginated: require a positive limit (and a positive page or non-negative skip), since `Math.ceil(total / limit)` on a zero or negative limit is floating point.
- MongoRepositories.CeilDiv: integer ceiling division, which is `Math.ceil(total / limit)` only for a positive limit.
- CrudMappers: the `to…ResponseDto` helpers are `schema.parse` of `toDto`; schema parsing is a parameter.
- FieldSchemas.IsSpace: covers ASCII whitespace only, and lengths count characters, not UTF-16 code units.

## Findings

| source | as written | input that shows it | evidently intended | confidence | as-written member | corrected member |
|---|---|---|---|---|---|---|
| src/infrastructure/koa/middleware/errorHandler.middleware.ts:91-95 | the table has no row for ForbiddenError, which every authorization denial raises, so it falls to the 500 row | `new ForbiddenError('Access denied')` (message without E11000) is answered 500 Internal Server Error | 403, the status code the ForbiddenError class declares (src/error/forbidden.error.ts:2) | medium; not executed; a subclass hook that handles the error first (such as the DefaultErrorHandler installed by default, src/index.ts:309-313, which is not part of this model) would hide it | ErrorHandling.ForbiddenAnswered500 | ErrorHandling.ClassifyFixedProperties |
