/**
 * The framework's start-up object (src/index.ts): setters record the
 * configuration, `initCore`, `initDB` and `initKoa` bind the framework's
 * services into an inversify container and create the logger, database and
 * Koa server, and `init`, `listen` and the shutdown methods drive the whole.
 * Each step guards on what must already exist and throws a
 * RuntimeConfigurationError otherwise.
 *
 * A container is its table of bindings, keyed by service identifier; what the
 * created components then do (connecting, listening, flushing) is recorded as
 * an effect, in order.
 */
module Frameworks {
  import opened Wrappers
  import opened Errors

  // ----- containers -----

  /** What a service identifier is bound to. */
  datatype Binding =
    | ToClass(className: string)
    /** `.toService(symbol)`: an alias of another identifier. */
    | ToService(symbol: string)
    | ToConstant(name: string)
    /** `.toDynamicValue(() => container)`. */
    | ToContainer

  /** The framework's own service identifiers. */
  const ContainerSymbol := "Container"
  const EnvSymbol := "Env"
  const LoggerSymbol := "Logger"
  const TelemetrySymbol := "Telemetry"
  const IdmClientSymbol := "IdmClient"
  const ExecutionContextSymbol := "ExecutionContext"
  const TenantResolverSymbol := "TenantResolver"
  const MongoDBSymbol := "MongoDB"
  const OpenApiRegistrySymbol := "OpenApiRegistry"
  const SwaggerSymbol := "Swagger"
  const RegisterRouterSymbol := "RegisterRouter"
  const KoaServerSymbol := "KoaServer"

  /** An inversify container: its bindings. */
  class Container {
    var bindings: map<string, Binding>

    constructor()
      ensures bindings == map[]
    {
      bindings := map[];
    }

    /** The bindings initCore makes with a configuration, made in this container. */
    method BindCoreServices(cfg: CoreConfig)
      modifies this
      ensures bindings == InitCoreBindings(old(bindings), cfg)
      ensures EnvSymbol !in old(bindings) ==> InitCoreResolveError(bindings).None?
    {
      if EnvSymbol !in bindings {
        FreshInitCoreResolves(bindings, cfg);
      }
      bindings := InitCoreBindings(bindings, cfg);
    }
  }

  /** What `container.get` throws for an identifier with no binding. */
  function Unbound(symbol: string): Error {
    Foreign("Error", "No matching bindings found for serviceIdentifier: " + symbol, None, None)
  }

  // ----- initCore's bindings -----

  /** The classes and custom identifiers the setters recorded, as initCore reads them. */
  datatype CoreConfig = CoreConfig(
    envClass: Option<string>, customEnvSymbol: Option<string>,
    hasTelemetry: bool,
    executionContextClass: Option<string>, customExecutionContextSymbol: Option<string>,
    tenantResolverClass: Option<string>, customTenantResolverSymbol: Option<string>)

  /** A configured class, with its custom alias if one was given, or the default class. */
  function BindService(b: map<string, Binding>, symbol: string, configured: Option<string>, custom: Option<string>, default: string): (r: map<string, Binding>)
    ensures symbol in r
    ensures configured.None? || custom.None? || custom.value != symbol ==> r[symbol] == ToClass(configured.GetOr(default))
    ensures configured.Some? && custom.Some? && custom.value != symbol ==> custom.value in r && r[custom.value] == ToService(symbol)
    ensures forall k :: k in b && k != symbol && (configured.None? || custom.None? || k != custom.value) ==> k in r && r[k] == b[k]
    ensures forall k :: k in r ==> k in b || k == symbol || (configured.Some? && custom.Some? && k == custom.value)
  {
    var r := b[symbol := ToClass(configured.GetOr(default))];
    if configured.Some? && custom.Some? then r[custom.value := ToService(symbol)] else r
  }

  /** The container binding initCore makes when the identifier is not yet bound. */
  function WithContainerBinding(b: map<string, Binding>): (r: map<string, Binding>)
    ensures ContainerSymbol in r && (ContainerSymbol !in b ==> r[ContainerSymbol] == ToContainer)
    ensures forall k :: k in b ==> k in r && r[k] == b[k]
    ensures forall k :: k in r ==> k in b || k == ContainerSymbol
  {
    if ContainerSymbol in b then b else b[ContainerSymbol := ToContainer]
  }

  /** The bindings after initCore on a container with bindings `b`: the container binding, and
      when Env is not yet bound, Env, Logger, the telemetry SDK when set, the IDM client, the
      execution context and the tenant resolver. */
  function InitCoreBindings(b: map<string, Binding>, cfg: CoreConfig): map<string, Binding> {
    var b1 := WithContainerBinding(b);
    if EnvSymbol in b1 then b1
    else
      var b2 := BindService(b1, EnvSymbol, cfg.envClass, cfg.customEnvSymbol, "DefaultEnv");
      var b3 := b2[LoggerSymbol := ToClass("LoggerProvider")];
      var b4 := if cfg.hasTelemetry then b3[TelemetrySymbol := ToConstant("NodeSDK")] else b3;
      var b5 := b4[IdmClientSymbol := ToClass("IdmClient")];
      var b6 := BindService(b5, ExecutionContextSymbol, cfg.executionContextClass, cfg.customExecutionContextSymbol, "ExecutionContextProvider");
      BindService(b6, TenantResolverSymbol, cfg.tenantResolverClass, cfg.customTenantResolverSymbol, "DefaultTenantResolver")
  }

  /** After initCore the container, Env, Logger, the execution context and the tenant resolver
      are bound (the last four unless Env was bound already), and nothing bound before is lost. */
  lemma InitCoreBinds(b: map<string, Binding>, cfg: CoreConfig)
    ensures var r := InitCoreBindings(b, cfg);
            ContainerSymbol in r && EnvSymbol in r && forall k :: k in b ==> k in r
    ensures EnvSymbol !in b ==>
            var r := InitCoreBindings(b, cfg);
            LoggerSymbol in r && IdmClientSymbol in r && ExecutionContextSymbol in r && TenantResolverSymbol in r
            && (cfg.hasTelemetry ==> TelemetrySymbol in r)
  {
  }

  /** initCore is idempotent: once it has run, running it again, with any configuration, adds
      and changes no binding. */
  lemma InitCoreIdempotent(b: map<string, Binding>, cfg: CoreConfig, cfg2: CoreConfig)
    ensures InitCoreBindings(InitCoreBindings(b, cfg), cfg2) == InitCoreBindings(b, cfg)
  {
    InitCoreBinds(b, cfg);
  }

  /** With Env already bound, only the container binding may be added. */
  lemma EnvBoundSkipsBindings(b: map<string, Binding>, cfg: CoreConfig)
    requires EnvSymbol in b
    ensures InitCoreBindings(b, cfg) == WithContainerBinding(b)
  {
  }

  /** What initCore throws when it resolves the logger and the execution context: only the
      already-bound branch can meet an identifier without a binding. */
  function InitCoreResolveError(b: map<string, Binding>): (r: Option<Error>)
    ensures r.None? <==> LoggerSymbol in b && ExecutionContextSymbol in b
    ensures LoggerSymbol !in b ==> r == Some(Unbound(LoggerSymbol))
  {
    if LoggerSymbol !in b then Some(Unbound(LoggerSymbol))
    else if ExecutionContextSymbol !in b then Some(Unbound(ExecutionContextSymbol))
    else None
  }

  /** A fresh run of initCore always resolves both. */
  lemma FreshInitCoreResolves(b: map<string, Binding>, cfg: CoreConfig)
    requires EnvSymbol !in b
    ensures InitCoreResolveError(InitCoreBindings(b, cfg)).None?
  {
    InitCoreBinds(b, cfg);
  }

  // ----- the framework -----

  /** The error handler the Koa server is given. */
  datatype ErrorHandlerChoice = CustomErrorHandler(name: string) | DefaultErrorHandler

  /** What the created components are asked to do, in order. */
  datatype Effect =
    | MongoInit
    | KoaSetErrorHandler(handler: ErrorHandlerChoice)
    | KoaInit
    | KoaListen
    | KoaShutdown
    | MongoShutdown
    | LoggerFlush
    | LoggerReconfigure

  /** The error Node throws for a method called on `undefined`. */
  const UndefinedContainer: Error := Foreign("TypeError", "Cannot read properties of undefined (reading 'isBound')", None, None)

  class Framework {
    var container: Option<Container>
    var registry: Option<string>
    var errorHandler: Option<ErrorHandlerChoice>
    var executionContextClass: Option<string>
    var customExecutionContextSymbol: Option<string>
    var tenantResolverClass: Option<string>
    var customTenantResolverSymbol: Option<string>
    var envClass: Option<string>
    var customEnvSymbol: Option<string>
    var telemetrySdk: Option<string>
    /** Whether the logger provider, the MongoDB component, the Koa server and the execution
        context provider have been created. */
    var loggerProvider: bool
    var mongodb: bool
    var koaServer: bool
    var executionContext: bool
    var effects: seq<Effect>

    constructor()
      ensures container.None? && registry.None? && errorHandler.None? && telemetrySdk.None?
      ensures executionContextClass.None? && customExecutionContextSymbol.None?
      ensures tenantResolverClass.None? && customTenantResolverSymbol.None?
      ensures envClass.None? && customEnvSymbol.None?
      ensures !loggerProvider && !mongodb && !koaServer && !executionContext && effects == []
    {
      container := None;
      registry := None;
      errorHandler := None;
      executionContextClass := None;
      customExecutionContextSymbol := None;
      tenantResolverClass := None;
      customTenantResolverSymbol := None;
      envClass := None;
      customEnvSymbol := None;
      telemetrySdk := None;
      loggerProvider := false;
      mongodb := false;
      koaServer := false;
      executionContext := false;
      effects := [];
    }

    /** The configuration initCore reads. */
    function Config(): CoreConfig
      reads this
    {
      CoreConfig(envClass, customEnvSymbol, telemetrySdk.Some?, executionContextClass, customExecutionContextSymbol,
                 tenantResolverClass, customTenantResolverSymbol)
    }

    /** `setContainer(container)`. */
    method SetContainer(c: Option<Container>) returns (err: Option<Error>)
      modifies this
      ensures c.None? ==> err == Some(RuntimeConfiguration("Container cannot be null or undefined")) && container == old(container)
      ensures c.Some? ==> err.None? && container == c
      ensures registry == old(registry) && errorHandler == old(errorHandler) && Config() == old(Config())
      ensures telemetrySdk == old(telemetrySdk) && effects == old(effects)
      ensures loggerProvider == old(loggerProvider) && mongodb == old(mongodb) && koaServer == old(koaServer) && executionContext == old(executionContext)
    {
      if c.None? {
        return Some(RuntimeConfiguration("Container cannot be null or undefined"));
      }
      container := c;
      err := None;
    }

    /** `setRegistry(registry)`. */
    method SetRegistry(r: Option<string>) returns (err: Option<Error>)
      modifies this
      ensures r.None? ==> err == Some(RuntimeConfiguration("Registry cannot be null or undefined")) && registry == old(registry)
      ensures r.Some? ==> err.None? && registry == r
      ensures container == old(container) && errorHandler == old(errorHandler) && Config() == old(Config())
      ensures telemetrySdk == old(telemetrySdk) && effects == old(effects)
      ensures loggerProvider == old(loggerProvider) && mongodb == old(mongodb) && koaServer == old(koaServer) && executionContext == old(executionContext)
    {
      if r.None? {
        return Some(RuntimeConfiguration("Registry cannot be null or undefined"));
      }
      registry := r;
      err := None;
    }

    /** `setErrorHandler(errorHandler)`. */
    method SetErrorHandler(h: Option<string>) returns (err: Option<Error>)
      modifies this
      ensures h.None? ==> err == Some(RuntimeConfiguration("ErrorHandler cannot be null or undefined")) && errorHandler == old(errorHandler)
      ensures h.Some? ==> err.None? && errorHandler == Some(CustomErrorHandler(h.value))
      ensures container == old(container) && registry == old(registry) && Config() == old(Config())
      ensures telemetrySdk == old(telemetrySdk) && effects == old(effects)
      ensures loggerProvider == old(loggerProvider) && mongodb == old(mongodb) && koaServer == old(koaServer) && executionContext == old(executionContext)
    {
      if h.None? {
        return Some(RuntimeConfiguration("ErrorHandler cannot be null or undefined"));
      }
      errorHandler := Some(CustomErrorHandler(h.value));
      err := None;
    }

    /** `setExecutionContext(contextClass, customSymbol)`: the custom identifier is replaced too,
        by none when none is given. */
    method SetExecutionContext(cls: Option<string>, customSymbol: Option<string>) returns (err: Option<Error>)
      modifies this
      ensures cls.None? ==> err == Some(RuntimeConfiguration("ExecutionContext class cannot be null or undefined")) && Config() == old(Config())
      ensures cls.Some? ==> err.None? && Config() == old(Config()).(executionContextClass := cls, customExecutionContextSymbol := customSymbol)
      ensures container == old(container) && registry == old(registry) && errorHandler == old(errorHandler)
      ensures telemetrySdk == old(telemetrySdk) && effects == old(effects)
      ensures loggerProvider == old(loggerProvider) && mongodb == old(mongodb) && koaServer == old(koaServer) && executionContext == old(executionContext)
    {
      if cls.None? {
        return Some(RuntimeConfiguration("ExecutionContext class cannot be null or undefined"));
      }
      executionContextClass := cls;
      customExecutionContextSymbol := customSymbol;
      err := None;
    }

    /** `setTenantResolver(tenantResolverClass, customSymbol)`. */
    method SetTenantResolver(cls: Option<string>, customSymbol: Option<string>) returns (err: Option<Error>)
      modifies this
      ensures cls.None? ==> err == Some(RuntimeConfiguration("TenantResolver class cannot be null or undefined")) && Config() == old(Config())
      ensures cls.Some? ==> err.None? && Config() == old(Config()).(tenantResolverClass := cls, customTenantResolverSymbol := customSymbol)
      ensures container == old(container) && registry == old(registry) && errorHandler == old(errorHandler)
      ensures telemetrySdk == old(telemetrySdk) && effects == old(effects)
      ensures loggerProvider == old(loggerProvider) && mongodb == old(mongodb) && koaServer == old(koaServer) && executionContext == old(executionContext)
    {
      if cls.None? {
        return Some(RuntimeConfiguration("TenantResolver class cannot be null or undefined"));
      }
      tenantResolverClass := cls;
      customTenantResolverSymbol := customSymbol;
      err := None;
    }

    /** `setEnv(envClass, customSymbol)`. */
    method SetEnv(cls: Option<string>, customSymbol: Option<string>) returns (err: Option<Error>)
      modifies this
      ensures cls.None? ==> err == Some(RuntimeConfiguration("Env class cannot be null or undefined")) && Config() == old(Config())
      ensures cls.Some? ==> err.None? && Config() == old(Config()).(envClass := cls, customEnvSymbol := customSymbol)
      ensures container == old(container) && registry == old(registry) && errorHandler == old(errorHandler)
      ensures telemetrySdk == old(telemetrySdk) && effects == old(effects)
      ensures loggerProvider == old(loggerProvider) && mongodb == old(mongodb) && koaServer == old(koaServer) && executionContext == old(executionContext)
    {
      if cls.None? {
        return Some(RuntimeConfiguration("Env class cannot be null or undefined"));
      }
      envClass := cls;
      customEnvSymbol := customSymbol;
      err := None;
    }

    /** `setNodeSDK(sdk)`. */
    method SetNodeSDK(sdk: Option<string>) returns (err: Option<Error>)
      modifies this
      ensures sdk.None? ==> err == Some(RuntimeConfiguration("NodeSDK cannot be null or undefined")) && telemetrySdk == old(telemetrySdk)
      ensures sdk.Some? ==> err.None? && GetNodeSDK() == sdk
      ensures container == old(container) && registry == old(registry) && errorHandler == old(errorHandler)
      ensures envClass == old(envClass) && customEnvSymbol == old(customEnvSymbol)
      ensures executionContextClass == old(executionContextClass) && customExecutionContextSymbol == old(customExecutionContextSymbol)
      ensures tenantResolverClass == old(tenantResolverClass) && customTenantResolverSymbol == old(customTenantResolverSymbol)
      ensures effects == old(effects)
      ensures loggerProvider == old(loggerProvider) && mongodb == old(mongodb) && koaServer == old(koaServer) && executionContext == old(executionContext)
    {
      if sdk.None? {
        return Some(RuntimeConfiguration("NodeSDK cannot be null or undefined"));
      }
      telemetrySdk := sdk;
      err := None;
    }

    /** `getNodeSDK()`: the SDK setNodeSDK recorded, if any. */
    function GetNodeSDK(): Option<string>
      reads this
    {
      telemetrySdk
    }

    /** `initCore(container)`: records the container when none is set, then binds into the
        argument, not into the recorded container. */
    method InitCore(arg: Option<Container>) returns (err: Option<Error>)
      modifies this, if arg.Some? then {arg.value} else {}
      ensures old(container).None? && arg.None? ==>
        err == Some(RuntimeConfiguration("Container cannot be null or undefined")) && container == old(container)
      ensures old(container).Some? && arg.None? ==> err == Some(UndefinedContainer) && container == old(container)
      ensures arg.Some? ==> container == (if old(container).None? then arg else old(container))
      ensures arg.Some? ==>
        arg.value.bindings == InitCoreBindings(old(arg.value.bindings), old(Config()))
        && err == InitCoreResolveError(arg.value.bindings)
        && loggerProvider == (old(loggerProvider) || LoggerSymbol in arg.value.bindings)
        && executionContext == (old(executionContext) || err.None?)
      ensures arg.Some? && EnvSymbol !in old(arg.value.bindings) ==> err.None?
      ensures arg.None? ==> loggerProvider == old(loggerProvider) && executionContext == old(executionContext)
      ensures registry == old(registry) && errorHandler == old(errorHandler) && Config() == old(Config()) && telemetrySdk == old(telemetrySdk)
      ensures mongodb == old(mongodb) && koaServer == old(koaServer) && effects == old(effects)
    {
      if container.None? {
        if arg.None? {
          return Some(RuntimeConfiguration("Container cannot be null or undefined"));
        }
        container := arg;
      }
      if arg.None? {
        return Some(UndefinedContainer);
      }
      err := BindCore(arg.value);
    }

    /** The part of initCore after the container is known: the core bindings, unless Env is
        bound already, and resolving the logger and the execution context. */
    method BindCore(c: Container) returns (err: Option<Error>)
      modifies this, c
      ensures c.bindings == InitCoreBindings(old(c.bindings), old(Config()))
      ensures err == InitCoreResolveError(c.bindings)
      ensures loggerProvider == (old(loggerProvider) || LoggerSymbol in c.bindings)
      ensures executionContext == (old(executionContext) || err.None?)
      ensures EnvSymbol !in old(c.bindings) ==> err.None?
      ensures container == old(container) && registry == old(registry) && errorHandler == old(errorHandler)
      ensures Config() == old(Config()) && telemetrySdk == old(telemetrySdk)
      ensures mongodb == old(mongodb) && koaServer == old(koaServer) && effects == old(effects)
    {
      c.BindCoreServices(Config());
      err := InitCoreResolveError(c.bindings);
      loggerProvider := loggerProvider || LoggerSymbol in c.bindings;
      executionContext := executionContext || err.None?;
    }

    /** `initDB(container)`: requires initCore; binds MongoDB, creates it and starts it. */
    method InitDB(c: Container) returns (err: Option<Error>)
      modifies this, c
      ensures !old(loggerProvider) ==>
        err == Some(RuntimeConfiguration("initCore() must be called before initDB()"))
        && c.bindings == old(c.bindings) && mongodb == old(mongodb) && effects == old(effects)
      ensures old(loggerProvider) ==>
        err.None? && c.bindings == old(c.bindings)[MongoDBSymbol := ToClass("MongoDB")]
        && mongodb && effects == old(effects) + [MongoInit]
      ensures container == old(container) && registry == old(registry) && errorHandler == old(errorHandler)
      ensures Config() == old(Config()) && telemetrySdk == old(telemetrySdk)
      ensures loggerProvider == old(loggerProvider) && koaServer == old(koaServer) && executionContext == old(executionContext)
    {
      if !loggerProvider {
        return Some(RuntimeConfiguration("initCore() must be called before initDB()"));
      }
      c.bindings := c.bindings[MongoDBSymbol := ToClass("MongoDB")];
      mongodb := true;
      effects := effects + [MongoInit];
      err := None;
    }

    /** `initKoa(container)`: requires initCore and a registry; falls back to the default error
        handler; binds the registry, Swagger, the router and the server, gives the server the
        error handler and starts it. */
    method InitKoa(c: Container) returns (err: Option<Error>)
      modifies this, c
      ensures !old(loggerProvider) ==>
        err == Some(RuntimeConfiguration("initCore() must be called before initKoa()"))
        && c.bindings == old(c.bindings) && errorHandler == old(errorHandler) && koaServer == old(koaServer) && effects == old(effects)
      ensures old(loggerProvider) && old(registry).None? ==>
        err == Some(RuntimeConfiguration("Registry not set. Call setRegistry() before initKoa()"))
        && c.bindings == old(c.bindings) && errorHandler == old(errorHandler) && koaServer == old(koaServer) && effects == old(effects)
      ensures old(loggerProvider) && old(registry).Some? ==>
        var handler := old(errorHandler).GetOr(DefaultErrorHandler);
        err.None? && errorHandler == Some(handler)
        && c.bindings == old(c.bindings)[OpenApiRegistrySymbol := ToConstant(old(registry).value)][SwaggerSymbol := ToClass("Swagger")]
                                        [RegisterRouterSymbol := ToClass("RegisterRouter")][KoaServerSymbol := ToClass("KoaServer")]
        && koaServer && effects == old(effects) + [KoaSetErrorHandler(handler), KoaInit]
      ensures container == old(container) && registry == old(registry) && Config() == old(Config()) && telemetrySdk == old(telemetrySdk)
      ensures loggerProvider == old(loggerProvider) && mongodb == old(mongodb) && executionContext == old(executionContext)
    {
      if !loggerProvider {
        return Some(RuntimeConfiguration("initCore() must be called before initKoa()"));
      }
      if registry.None? {
        return Some(RuntimeConfiguration("Registry not set. Call setRegistry() before initKoa()"));
      }
      if errorHandler.None? {
        errorHandler := Some(DefaultErrorHandler);
      }
      c.bindings := c.bindings[OpenApiRegistrySymbol := ToConstant(registry.value)];
      c.bindings := c.bindings[SwaggerSymbol := ToClass("Swagger")];
      c.bindings := c.bindings[RegisterRouterSymbol := ToClass("RegisterRouter")];
      c.bindings := c.bindings[KoaServerSymbol := ToClass("KoaServer")];
      koaServer := true;
      effects := effects + [KoaSetErrorHandler(errorHandler.value), KoaInit];
      err := None;
    }

    /** `init()`: requires a container and a registry, then runs initCore, initDB and initKoa on
        the recorded container, stopping at the first error. */
    method Init() returns (err: Option<Error>)
      modifies this, if container.Some? then {container.value} else {}
      ensures old(container).None? ==> err == Some(RuntimeConfiguration("Container not set. Call setContainer() before init()")) && effects == old(effects)
      ensures old(container).Some? && old(registry).None? ==>
        err == Some(RuntimeConfiguration("Registry not set. Call setRegistry() before init()")) && effects == old(effects)
      ensures old(container).Some? && old(registry).Some? && err.None? ==>
        loggerProvider && executionContext && mongodb && koaServer
        && effects == old(effects) + [MongoInit, KoaSetErrorHandler(old(errorHandler).GetOr(DefaultErrorHandler)), KoaInit]
      ensures old(container).Some? && old(registry).Some? && EnvSymbol !in old(container.value.bindings) ==> err.None?
      ensures container == old(container) && registry == old(registry)
    {
      if container.None? {
        return Some(RuntimeConfiguration("Container not set. Call setContainer() before init()"));
      }
      if registry.None? {
        return Some(RuntimeConfiguration("Registry not set. Call setRegistry() before init()"));
      }
      var c := container.value;
      err := InitCore(container);
      if err.Some? {
        return;
      }
      err := InitDB(c);
      if err.Some? {
        return;
      }
      err := InitKoa(c);
    }

    /** `reconfigureLogger()`. */
    method ReconfigureLogger() returns (err: Option<Error>)
      modifies this
      ensures !old(loggerProvider) ==> err == Some(RuntimeConfiguration("Framework not initialized")) && effects == old(effects)
      ensures old(loggerProvider) ==> err.None? && effects == old(effects) + [LoggerReconfigure]
      ensures loggerProvider == old(loggerProvider) && mongodb == old(mongodb) && koaServer == old(koaServer)
    {
      if !loggerProvider {
        return Some(RuntimeConfiguration("Framework not initialized"));
      }
      effects := effects + [LoggerReconfigure];
      err := None;
    }

    /** `listen()`. */
    method Listen() returns (err: Option<Error>)
      modifies this
      ensures !old(koaServer) ==> err == Some(RuntimeConfiguration("Framework not initialized")) && effects == old(effects)
      ensures old(koaServer) ==> err.None? && effects == old(effects) + [KoaListen]
      ensures loggerProvider == old(loggerProvider) && mongodb == old(mongodb) && koaServer == old(koaServer)
    {
      if !koaServer {
        return Some(RuntimeConfiguration("Framework not initialized"));
      }
      effects := effects + [KoaListen];
      err := None;
    }

    /** `shutdownKoa()`: a no-op without a server. */
    method ShutdownKoa()
      modifies this
      ensures effects == old(effects) + (if old(koaServer) then [KoaShutdown] else [])
      ensures loggerProvider == old(loggerProvider) && mongodb == old(mongodb) && koaServer == old(koaServer)
    {
      if koaServer {
        effects := effects + [KoaShutdown];
      }
    }

    /** `shutdownDB()`: the database is shut down if it was created, then the logger flushed if
        it was created. */
    method ShutdownDB()
      modifies this
      ensures effects == old(effects) + (if old(mongodb) then [MongoShutdown] else []) + (if old(loggerProvider) then [LoggerFlush] else [])
      ensures loggerProvider == old(loggerProvider) && mongodb == old(mongodb) && koaServer == old(koaServer)
    {
      if mongodb {
        effects := effects + [MongoShutdown];
      }
      if loggerProvider {
        effects := effects + [LoggerFlush];
      }
    }

    /** `shutdown()`: the Koa server before the database. */
    method Shutdown()
      modifies this
      ensures effects == old(effects) + ShutdownEffects(old(koaServer), old(mongodb), old(loggerProvider))
    {
      ShutdownKoa();
      ShutdownDB();
    }

    /** `getKoaServer()`. */
    function GetKoaServer(): (r: Result<string, Error>)
      reads this
      ensures r.Err? <==> !koaServer
      ensures r.Err? ==> r.error == RuntimeConfiguration("koaServer not init. Call init()")
    {
      if koaServer then Ok("KoaServer") else Err(RuntimeConfiguration("koaServer not init. Call init()"))
    }
  }

  /** The effects of `shutdown` given which components exist. */
  function ShutdownEffects(koa: bool, db: bool, logger: bool): seq<Effect> {
    (if koa then [KoaShutdown] else []) + (if db then [MongoShutdown] else []) + (if logger then [LoggerFlush] else [])
  }

  /** Shutdown order: the server stops before the database, and the logger is flushed last. */
  lemma ShutdownOrder(koa: bool, db: bool, logger: bool)
    ensures var e := ShutdownEffects(koa, db, logger);
            (forall i, j :: 0 <= i < |e| && 0 <= j < |e| && e[i] == KoaShutdown && e[j] == MongoShutdown ==> i < j)
            && (logger ==> |e| > 0 && e[|e| - 1] == LoggerFlush)
            && (KoaShutdown in e <==> koa) && (MongoShutdown in e <==> db)
  {
  }
}
