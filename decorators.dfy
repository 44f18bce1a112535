/**
 * The method decorators (the files under src/decorator). Each one writes one
 * entry, under the decorated method's name, into its own metadata registry;
 * each getter merges a class's registry over its prototype chain.
 */
module Decorators {
  import opened Wrappers
  import opened Http
  import opened Grns
  import opened Metadata

  /** {method, path} recorded by @Get/@Post/@Put/@Delete/@Patch. */
  datatype RouteMetadata = RouteMetadata(verb: HttpMethod, path: string)

  /** `createRouteDecorator(verb)(path)` applied to `cls.propertyKey`: the five exported
      factories are this method with `verb` fixed to GET, POST, PUT, DELETE and PATCH. */
  method RouteDecorator(routes: MetadataRegistry<RouteMetadata>, verb: HttpMethod, path: string, cls: string, propertyKey: string)
    modifies routes
    ensures routes.own == old(routes.own)[cls := old(routes.OwnRecord(cls))[propertyKey := RouteMetadata(verb, path)]]
  {
    routes.Define(cls, propertyKey, RouteMetadata(verb, path));
  }

  /** AuthenticationOptions {required?, schemes?}. */
  datatype AuthenticationOptions = AuthenticationOptions(required: Option<bool>, schemes: Option<seq<string>>)

  /** The entry @Authenticated(options = {}) stores: the given options, or `{}` without an argument. */
  function AuthenticatedEntry(options: Option<AuthenticationOptions>): (r: AuthenticationOptions)
    ensures options.Some? ==> r == options.value
    ensures options.None? ==> r.required.None? && r.schemes.None?
  {
    options.GetOr(AuthenticationOptions(None, None))
  }

  method Authenticated(registry: MetadataRegistry<AuthenticationOptions>, options: Option<AuthenticationOptions>, cls: string, propertyKey: string)
    modifies registry
    ensures registry.own == old(registry.own)[cls := old(registry.OwnRecord(cls))[propertyKey := AuthenticatedEntry(options)]]
  {
    registry.Define(cls, propertyKey, AuthenticatedEntry(options));
  }

  /** What `getAuthenticationMetadata(C, methodName?)` returns: one entry, or the whole map. */
  datatype AuthenticationLookup = Entry(entry: Option<AuthenticationOptions>) | Whole(all: map<string, AuthenticationOptions>)

  /** With a (truthy) method name, that method's merged entry; without one, the whole merged map. */
  function GetAuthenticationMetadata(own: OwnStore<AuthenticationOptions>, chain: seq<Proto>, methodName: Option<string>): (r: AuthenticationLookup)
    ensures Truthy(methodName) ==> r.Entry? && (r.entry.Some? <==> methodName.value in Collected(own, chain))
    ensures Truthy(methodName) && r.entry.Some? ==> r.entry.value == Collected(own, chain)[methodName.value]
    ensures !Truthy(methodName) ==> r == Whole(Collected(own, chain))
  {
    var all := Collected(own, chain);
    if Truthy(methodName) then
      Entry(if methodName.value in all then Some(all[methodName.value]) else None)
    else Whole(all)
  }

  /** ResourceBuilder: rewrites the GRN built for a request. */
  type ResourceBuilder = (Grn, Ctx) -> Grn

  /** The default resource builder returns the GRN it is given. */
  function DefaultResourceBuilder(grn: Grn, c: Ctx): Grn { grn }

  /** AuthorizeOptions {operation, resource?, partition?, region?}. */
  datatype AuthorizeOptions = AuthorizeOptions(operation: string, resource: Option<ResourceBuilder>, partition: Option<string>, region: Option<string>)

  /** AuthorizeOptionsWithResource: the stored entry always has a builder. */
  datatype AuthorizeEntry = AuthorizeEntry(operation: string, resource: ResourceBuilder, partition: Option<string>, region: Option<string>)

  /** `{...options, resource: options.resource || defaultResourceBuilder}`. */
  function AuthorizeEntryOf(options: AuthorizeOptions): (r: AuthorizeEntry)
    ensures r.operation == options.operation && r.partition == options.partition && r.region == options.region
    ensures options.resource.Some? ==> r.resource == options.resource.value
    ensures options.resource.None? ==> forall g: Grn, c: Ctx :: r.resource(g, c) == g
  {
    AuthorizeEntry(options.operation,
      if options.resource.Some? then options.resource.value else DefaultResourceBuilder,
      options.partition, options.region)
  }

  method Authorize(registry: MetadataRegistry<AuthorizeEntry>, options: AuthorizeOptions, cls: string, propertyKey: string)
    modifies registry
    ensures registry.OwnRecord(cls).Keys == old(registry.OwnRecord(cls)).Keys + {propertyKey}
    ensures propertyKey in registry.OwnRecord(cls) && registry.OwnRecord(cls)[propertyKey] == AuthorizeEntryOf(options)
    ensures forall k :: k in old(registry.OwnRecord(cls)) && k != propertyKey ==> registry.OwnRecord(cls)[k] == old(registry.OwnRecord(cls))[k]
    ensures forall c :: c != cls ==> registry.OwnRecord(c) == old(registry.OwnRecord(c))
  {
    registry.Define(cls, propertyKey, AuthorizeEntryOf(options));
  }

  /** ZodValidateRequestOptions {params?, body?, query?}. */
  datatype ZodValidateRequestOptions = ZodValidateRequestOptions(params: Option<Schema>, body: Option<Schema>, query: Option<Schema>)

  method ZodValidateRequest(registry: MetadataRegistry<ZodValidateRequestOptions>, options: ZodValidateRequestOptions, cls: string, propertyKey: string)
    modifies registry
    ensures registry.own == old(registry.own)[cls := old(registry.OwnRecord(cls))[propertyKey := options]]
  {
    registry.Define(cls, propertyKey, options);
  }

  /** ZodValidateResponseOptions: status code to schema. */
  type ZodValidateResponseOptions = map<int, Schema>

  method ZodValidateResponse(registry: MetadataRegistry<ZodValidateResponseOptions>, options: ZodValidateResponseOptions, cls: string, propertyKey: string)
    modifies registry
    ensures registry.own == old(registry.own)[cls := old(registry.OwnRecord(cls))[propertyKey := options]]
  {
    registry.Define(cls, propertyKey, options);
  }

  /** @InjectCoreTenantId() marks the method with `true`. */
  method InjectCoreTenantId(registry: MetadataRegistry<bool>, cls: string, propertyKey: string)
    modifies registry
    ensures registry.own == old(registry.own)[cls := old(registry.OwnRecord(cls))[propertyKey := true]]
  {
    registry.Define(cls, propertyKey, true);
  }

  /** The registries of all method decorators, as the stage builders read them. */
  datatype MethodMetadata = MethodMetadata(
    routes: OwnStore<RouteMetadata>,
    authentication: OwnStore<AuthenticationOptions>,
    authorize: OwnStore<AuthorizeEntry>,
    zodRequest: OwnStore<ZodValidateRequestOptions>,
    zodResponse: OwnStore<ZodValidateResponseOptions>,
    injectCoreTenantId: OwnStore<bool>)
}
