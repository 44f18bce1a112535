/**
 * The controller base classes (src/abstract/AbstractController.ts and
 * src/abstract/AbstractCrudController.ts): the multi-tenant route guard, the
 * paging fields read from the query string, and the five CRUD handlers, each
 * of which runs the guard, calls the service and writes status and body.
 */
module CrudControllers {
  import opened Wrappers
  import opened Json
  import opened Errors
  import opened Pagination
  import opened Http
  import opened Stereotypes
  import opened MongoRepositories
  import opened ErrorHandling
  import opened CrudMappers
  import opened CrudServices

  /** `validateMultiTenantSetup(ctx)`: a multi-tenant controller's route must carry a
      truthy `:tenantId`; otherwise MultiTenantConfigurationError naming the class. */
  function ValidateMultiTenantSetup(options: Option<ControllerOptions>, className: string, params: map<string, string>): (r: Option<Error>)
    ensures r.Some? <==> options.Some? && options.value.multiTenant && !Truthy(if "tenantId" in params then Some(params["tenantId"]) else None)
    ensures r.Some? ==> r.value == MultiTenantConfiguration(className)
  {
    if options.Some? && options.value.multiTenant then
      var tenantId := if "tenantId" in params then Some(params["tenantId"]) else None;
      if !Truthy(tenantId) then Some(MultiTenantConfiguration(className)) else None
    else None
  }

  /** A controller that is not multi-tenant, or has no @Controller options, never fails the
      guard, whatever its params. */
  lemma SingleTenantNeverRejects(options: Option<ControllerOptions>, className: string, params: map<string, string>)
    requires options.None? || !options.value.multiTenant
    ensures ValidateMultiTenantSetup(options, className, params).None?
  {
  }

  /** JavaScript truthiness of a query value: a non-empty string, or any array. */
  predicate QueryTruthy(v: QueryValue) {
    v.QList? || v.s != ""
  }

  /** A string of decimal digits. */
  predicate IsNumeral(s: string) {
    |s| > 0 && forall i :: 0 <= i < |s| ==> '0' <= s[i] <= '9'
  }

  /** The value of a decimal numeral. */
  function NumeralValue(s: string): (r: nat)
    requires IsNumeral(s)
    ensures |s| == 1 ==> r == (s[0] as int) - ('0' as int)
  {
    var d := (s[|s| - 1] as int) - ('0' as int);
    if |s| == 1 then d else NumeralValue(s[..|s| - 1]) * 10 + d
  }

  /** A query key that `Number()` reads: absent, falsy, or a decimal numeral. */
  predicate NumberReadable(query: map<string, QueryValue>, key: string) {
    key !in query || !QueryTruthy(query[key]) || (query[key].QStr? && IsNumeral(query[key].s))
  }

  /** `key ? Number(key) : fallback`. */
  function NumberOr(query: map<string, QueryValue>, key: string, fallback: int): (r: int)
    requires NumberReadable(query, key)
    ensures key !in query || !QueryTruthy(query[key]) ==> r == fallback
    ensures key in query && QueryTruthy(query[key]) ==> r == NumeralValue(query[key].s)
  {
    if key in query && QueryTruthy(query[key]) then NumeralValue(query[key].s) else fallback
  }

  /** The keys `extractPaginationAndFilter` takes out of the query. */
  const PaginationKeys: set<string> := {"page", "limit", "sortBy", "descending"}

  datatype Extracted = Extracted(pagination: PaginationQuery, filter: map<string, QueryValue>)

  /** `extractPaginationAndFilter(ctx)`: page and limit default to 1 and 25, sortBy is kept
      only when it is a string, descending is exactly `'true'`, and the filter is the rest. */
  function ExtractPaginationAndFilter(query: map<string, QueryValue>): (r: Extracted)
    requires NumberReadable(query, "page") && NumberReadable(query, "limit")
    ensures "page" !in query || !QueryTruthy(query["page"]) ==> r.pagination.page == 1
    ensures "limit" !in query || !QueryTruthy(query["limit"]) ==> r.pagination.limit == 25
    ensures "page" in query && QueryTruthy(query["page"]) ==> r.pagination.page == NumeralValue(query["page"].s)
    ensures "limit" in query && QueryTruthy(query["limit"]) ==> r.pagination.limit == NumeralValue(query["limit"].s)
    ensures r.pagination.sortBy.Some? <==> "sortBy" in query && query["sortBy"].QStr?
    ensures r.pagination.sortBy.Some? ==> r.pagination.sortBy.value == query["sortBy"].s
    ensures r.pagination.descending <==> "descending" in query && query["descending"] == QStr("true")
    ensures forall k :: k in r.filter <==> k in query && k !in PaginationKeys
    ensures forall k :: k in r.filter ==> r.filter[k] == query[k]
  {
    var sortBy := if "sortBy" in query && query["sortBy"].QStr? then Some(query["sortBy"].s) else None;
    var descending := "descending" in query && query["descending"] == QStr("true");
    Extracted(PaginationQuery(NumberOr(query, "page", 1), NumberOr(query, "limit", 25), sortBy, descending),
              query - PaginationKeys)
  }

  /** A query with no paging keys asks for the first page of 25, unsorted, ascending, and is
      its own filter. */
  lemma PlainQueryDefaults(query: map<string, QueryValue>)
    requires forall k :: k in query ==> k !in PaginationKeys
    ensures ExtractPaginationAndFilter(query) == Extracted(PaginationQuery(1, 25, None, false), query)
  {
    var r := ExtractPaginationAndFilter(query);
    assert r.filter == query;
  }

  /** Only the string 'true' sorts descending: 'TRUE', '1' and a repeated key do not. */
  lemma DescendingIsLiteralTrue(query: map<string, QueryValue>)
    requires NumberReadable(query, "page") && NumberReadable(query, "limit")
    ensures var q1 := query["descending" := QStr("TRUE")];
      !ExtractPaginationAndFilter(q1).pagination.descending
    ensures !ExtractPaginationAndFilter(query["descending" := QStr("1")]).pagination.descending
    ensures !ExtractPaginationAndFilter(query["descending" := QList(["true"])]).pagination.descending
  {
    assert "page" !in query["descending" := QStr("TRUE")] || query["descending" := QStr("TRUE")]["page"] == query["page"];
  }

  /** A CRUD controller: its class name, its class's @Controller options (getOptions), its
      service and its mapper. */
  class CrudController {
    const className: string
    const ancestry: seq<Option<ControllerOptions>>
    const service: CrudService
    const mapper: MapperSchemas

    constructor (className: string, ancestry: seq<Option<ControllerOptions>>, service: CrudService, mapper: MapperSchemas)
      ensures this.className == className && this.ancestry == ancestry && this.service == service && this.mapper == mapper
    {
      this.className := className;
      this.ancestry := ancestry;
      this.service := service;
      this.mapper := mapper;
    }

    /** `getOptions()`: the @Controller options of the instance's class. */
    function GetOptions(): Option<ControllerOptions> {
      GetControllerOptions(ancestry)
    }

    /** The guard for a request. */
    function Guard(ctx: Ctx): Option<Error> {
      ValidateMultiTenantSetup(GetOptions(), className, ctx.params)
    }

    /** The database the service's repository resolves in the environment. */
    function Resolved(env: RepositoryEnvironment): Result<string, Error> {
      ResolveDbName(service.repository.options, service.repository.collectionName, env)
    }

    /** The documents of the repository's collection in database `db`. */
    function Docs(db: string): seq<Entity>
      reads service.repository.database
    {
      service.repository.database.Docs(db, service.repository.collectionName)
    }

    /** `create(ctx)`: 201 with the create-response DTO of the created entity. */
    method Create(ctx: Ctx, env: RepositoryEnvironment, newId: string) returns (c: Ctx, err: Option<Error>)
      requires service.repository.Valid()
      modifies service.repository`modelCache, service.repository.database
      ensures service.repository.Valid()
      ensures Guard(ctx).None? ==> service.repository.CacheStep(old(service.repository.modelCache), service.repository.modelCache, env)
      ensures Guard(ctx).Some? ==>
        c == ctx && err == Guard(ctx)
        && service.repository.database.collections == old(service.repository.database.collections)
        && service.repository.modelCache == old(service.repository.modelCache)
      ensures Guard(ctx).None? && Resolved(env).Err? ==>
        c == ctx && err == Some(Resolved(env).error) && service.repository.database.collections == old(service.repository.database.collections)
      ensures Guard(ctx).None? && Resolved(env).Ok? ==>
        var key := (Resolved(env).value, service.repository.collectionName);
        var created := Entity(newId, service.hooks.buildCreateDataFromDto(ctx.requestBody));
        if FindByIdIn(old(Docs(Resolved(env).value)), newId).Some? then
          c == ctx && err.Some? && IsDuplicateKey(err.value) && service.repository.database.collections == old(service.repository.database.collections)
        else
          service.repository.database.collections == old(service.repository.database.collections)[key := old(Docs(Resolved(env).value)) + [created]]
          && match ToCreateResponseDto(mapper, created)
             case Err(e) => c == ctx && err == Some(e)
             case Ok(v) => c == ctx.(status := 201, body := JsonBody(v)) && err.None?
    {
      var guard := Guard(ctx);
      if guard.Some? {
        return ctx, guard;
      }
      var entity := service.CreateFromDto(env, ctx.requestBody, newId);
      if entity.Err? {
        return ctx, Some(entity.error);
      }
      var result := ToCreateResponseDto(mapper, entity.value);
      if result.Err? {
        return ctx, Some(result.error);
      }
      c, err := ctx.(status := 201, body := JsonBody(result.value)), None;
    }

    /** `findAllPaginated(ctx)`: the body is the mapped page; the status is left alone. */
    method FindAllPaginated(ctx: Ctx, env: RepositoryEnvironment, sorter: Sorter) returns (c: Ctx, err: Option<Error>)
      requires service.repository.Valid()
      requires NumberReadable(ctx.query, "page") && NumberReadable(ctx.query, "limit")
      requires ExtractPaginationAndFilter(ctx.query).pagination.page >= 1
      requires ExtractPaginationAndFilter(ctx.query).pagination.limit > 0
      modifies service.repository`modelCache
      ensures service.repository.Valid()
      ensures Guard(ctx).None? ==> service.repository.CacheStep(old(service.repository.modelCache), service.repository.modelCache, env)
      ensures Guard(ctx).Some? ==> c == ctx && err == Guard(ctx) && service.repository.modelCache == old(service.repository.modelCache)
      ensures Guard(ctx).None? && Resolved(env).Err? ==> c == ctx && err == Some(Resolved(env).error)
      ensures Guard(ctx).None? && Resolved(env).Ok? ==>
        var x := ExtractPaginationAndFilter(ctx.query);
        var queryFilter := service.hooks.buildPaginationFilter(x.filter);
        var docs := Docs(Resolved(env).value);
        var total := |Matching(docs, queryFilter)|;
        var page := PaginatedResponse(PageItems(docs, queryFilter, MongoOptionsFor(x.pagination), sorter),
                                      PaginationMetadata(x.pagination.page, x.pagination.limit, total, CeilDiv(total, x.pagination.limit)));
        match ToPaginatedResponse(mapper, page)
        case Err(e) => c == ctx && err == Some(e)
        case Ok(v) => c == ctx.(body := PageBody(v)) && err.None?
    {
      var guard := Guard(ctx);
      if guard.Some? {
        return ctx, guard;
      }
      var x := ExtractPaginationAndFilter(ctx.query);
      var result := service.FindAllPaginated(env, x.pagination, x.filter, sorter);
      if result.Err? {
        return ctx, Some(result.error);
      }
      var response := ToPaginatedResponse(mapper, result.value);
      if response.Err? {
        return ctx, Some(response.error);
      }
      c, err := ctx.(body := PageBody(response.value)), None;
    }

    /** `findById(ctx)`: the body is the find-by-id DTO; the status is left alone. The route
        declares `:id`, so the param is present. */
    method FindById(ctx: Ctx, env: RepositoryEnvironment) returns (c: Ctx, err: Option<Error>)
      requires service.repository.Valid()
      requires "id" in ctx.params
      modifies service.repository`modelCache
      ensures service.repository.Valid()
      ensures Guard(ctx).None? ==> service.repository.CacheStep(old(service.repository.modelCache), service.repository.modelCache, env)
      ensures Guard(ctx).Some? ==> c == ctx && err == Guard(ctx) && service.repository.modelCache == old(service.repository.modelCache)
      ensures Guard(ctx).None? && Resolved(env).Err? ==> c == ctx && err == Some(Resolved(env).error)
      ensures Guard(ctx).None? && Resolved(env).Ok? ==>
        match FindByIdIn(Docs(Resolved(env).value), ctx.params["id"])
        case None => c == ctx && err == Some(NotFound(service.repository.collectionName, ctx.params["id"]))
        case Some(e) =>
          match ToFindByIdResponseDto(mapper, e)
          case Err(x) => c == ctx && err == Some(x)
          case Ok(v) => c == ctx.(body := JsonBody(v)) && err.None?
    {
      var id := ctx.params["id"];
      var guard := Guard(ctx);
      if guard.Some? {
        return ctx, guard;
      }
      var entity := service.FindById(env, id);
      if entity.Err? {
        return ctx, Some(entity.error);
      }
      var result := ToFindByIdResponseDto(mapper, entity.value);
      if result.Err? {
        return ctx, Some(result.error);
      }
      c, err := ctx.(body := JsonBody(result.value)), None;
    }

    /** `update(ctx)`: the body is the update-response DTO of the saved entity; the status
        is left alone. */
    method Update(ctx: Ctx, env: RepositoryEnvironment) returns (c: Ctx, err: Option<Error>)
      requires service.repository.Valid()
      requires "id" in ctx.params
      modifies service.repository`modelCache, service.repository.database
      ensures service.repository.Valid()
      ensures Guard(ctx).None? ==> service.repository.CacheStep(old(service.repository.modelCache), service.repository.modelCache, env)
      ensures Guard(ctx).Some? ==>
        c == ctx && err == Guard(ctx)
        && service.repository.database.collections == old(service.repository.database.collections)
        && service.repository.modelCache == old(service.repository.modelCache)
      ensures Guard(ctx).None? && Resolved(env).Err? ==>
        c == ctx && err == Some(Resolved(env).error) && service.repository.database.collections == old(service.repository.database.collections)
      ensures Guard(ctx).None? && Resolved(env).Ok? ==>
        var key := (Resolved(env).value, service.repository.collectionName);
        match FindByIdIn(old(Docs(Resolved(env).value)), ctx.params["id"])
        case None => c == ctx && err == Some(NotFound(service.repository.collectionName, ctx.params["id"]))
          && service.repository.database.collections == old(service.repository.database.collections)
        case Some(e) =>
          var updated := service.hooks.buildUpdate(e, ctx.requestBody);
          (FindByIdIn(old(Docs(Resolved(env).value)), updated.id).None? ==>
             c == ctx && err.Some? && service.repository.database.collections == old(service.repository.database.collections))
          && (FindByIdIn(old(Docs(Resolved(env).value)), updated.id).Some? ==>
                service.repository.database.collections == old(service.repository.database.collections)[key := Replace(old(Docs(Resolved(env).value)), updated)]
                && match ToUpdateResponseDto(mapper, updated)
                   case Err(x) => c == ctx && err == Some(x)
                   case Ok(v) => c == ctx.(body := JsonBody(v)) && err.None?)
    {
      var id := ctx.params["id"];
      var guard := Guard(ctx);
      if guard.Some? {
        return ctx, guard;
      }
      var entity := service.UpdateFromDto(env, id, ctx.requestBody);
      if entity.Err? {
        return ctx, Some(entity.error);
      }
      var result := ToUpdateResponseDto(mapper, entity.value);
      if result.Err? {
        return ctx, Some(result.error);
      }
      c, err := ctx.(body := JsonBody(result.value)), None;
    }

    /** `delete(ctx)`: status 204; Koa drops the body of an empty status. */
    method Delete(ctx: Ctx, env: RepositoryEnvironment) returns (c: Ctx, err: Option<Error>)
      requires service.repository.Valid()
      requires "id" in ctx.params
      modifies service.repository`modelCache, service.repository.database
      ensures service.repository.Valid()
      ensures Guard(ctx).None? ==> service.repository.CacheStep(old(service.repository.modelCache), service.repository.modelCache, env)
      ensures Guard(ctx).Some? ==>
        c == ctx && err == Guard(ctx)
        && service.repository.database.collections == old(service.repository.database.collections)
        && service.repository.modelCache == old(service.repository.modelCache)
      ensures Guard(ctx).None? && Resolved(env).Err? ==>
        c == ctx && err == Some(Resolved(env).error) && service.repository.database.collections == old(service.repository.database.collections)
      ensures Guard(ctx).None? && Resolved(env).Ok? ==>
        var key := (Resolved(env).value, service.repository.collectionName);
        match FindByIdIn(old(Docs(Resolved(env).value)), ctx.params["id"])
        case None => c == ctx && err == Some(NotFound(service.repository.collectionName, ctx.params["id"]))
          && service.repository.database.collections == old(service.repository.database.collections)
        case Some(_) => c == ctx.(status := 204, body := NoBody) && err.None?
                        && service.repository.database.collections == old(service.repository.database.collections)[key := Remove(old(Docs(Resolved(env).value)), ctx.params["id"])]
    {
      var id := ctx.params["id"];
      var guard := Guard(ctx);
      if guard.Some? {
        return ctx, guard;
      }
      var entity := service.Delete(env, id);
      if entity.Err? {
        return ctx, Some(entity.error);
      }
      c, err := ctx.(status := 204, body := NoBody), None;
    }
  }
}
