/**
 * The MongoDB repository layer: database selection and the model cache
 * (src/abstract/AbstractMongoRepository.ts) and the CRUD operations
 * (src/abstract/AbstractCrudMongoRepository.ts), over an in-memory store of
 * collections. A mongoose model is an opaque object naming one database and
 * one collection; a filter is a predicate on documents together with the JSON
 * text of the filter object.
 */
module MongoRepositories {
  import opened Wrappers
  import opened Json
  import opened Errors
  import opened Pagination
  import opened ExecutionContexts
  import opened Tenancy
  import opened Stereotypes
  import Http

  /** A stored document: its `_id` and its contents. */
  datatype Entity = Entity(id: string, doc: Value)

  /** A query filter: what `JSON.stringify(filter)` prints, and which documents it matches. */
  datatype Filter = Filter(json: string, matches: Entity -> bool)

  /** The filter `{}`: matches every document. */
  function AllDocuments(e: Entity): bool { true }
  const EmptyFilter := Filter("{}", AllDocuments)

  /** MongoPaginationOptions. */
  datatype MongoPaginationOptions = MongoPaginationOptions(page: int, limit: int, skip: int, sortBy: Option<string>, descending: Option<bool>)

  /** How the database orders documents for `sort({[field]: order})`; supplied by the caller. */
  type Sorter = (seq<Entity>, string, int) -> seq<Entity>

  /** The environment the repository reads when it resolves its database: the current
      contexts, the tenant resolver, and what the Env returns for MONGODB_CORE_DBNAME. */
  datatype RepositoryEnvironment = RepositoryEnvironment(contexts: seq<ExecutionContext>, resolver: TenantResolver, coreDbName: string)

  /** `resolveDbName()`. */
  function ResolveDbName(options: Option<RepositoryOptions>, collectionName: string, env: RepositoryEnvironment): (r: Result<string, Error>)
    ensures env.contexts == [] ==> r == Err(ExecutionContextNotInitialized)
    ensures env.contexts != [] && !IsMultiTenant(options) ==> r == Ok(env.coreDbName)
    ensures env.contexts != [] && IsMultiTenant(options) && !Http.Truthy(TenantIdOf(env.contexts)) ==>
      r == Err(TenantIdRequired("repository", collectionName))
    ensures env.contexts != [] && IsMultiTenant(options) && Http.Truthy(TenantIdOf(env.contexts)) ==>
      r == GetDbName(env.resolver, env.contexts)
  {
    var isMultiTenant := IsMultiTenant(options);
    var ctx := Current(env.contexts);
    if ctx.None? then Err(ExecutionContextNotInitialized)
    else if isMultiTenant then
      if !Http.Truthy(ctx.value.tenantId) then Err(TenantIdRequired("repository", collectionName))
      else GetDbName(env.resolver, env.contexts)
    else Ok(env.coreDbName)
  }

  /** `options?.multiTenant ?? false`. */
  predicate IsMultiTenant(options: Option<RepositoryOptions>) {
    options.Some? && options.value.multiTenant
  }

  /** A multi-tenant repository whose context has a tenant reaches the resolver with that tenant. */
  lemma MultiTenantResolvesContextTenant(options: Option<RepositoryOptions>, collectionName: string, env: RepositoryEnvironment)
    requires env.contexts != [] && IsMultiTenant(options)
    requires Http.Truthy(env.contexts[|env.contexts| - 1].tenantId)
    ensures ResolveDbName(options, collectionName, env)
         == ResolveTenantDbName(env.resolver, env.contexts[|env.contexts| - 1].tenantId.value)
  {
  }

  /** A single-tenant repository ignores the tenant: two environments that differ only in the
      current context's tenant resolve to the same database. */
  lemma SingleTenantIgnoresTenant(options: Option<RepositoryOptions>, collectionName: string, env: RepositoryEnvironment, t: Option<string>)
    requires !IsMultiTenant(options) && env.contexts != []
    ensures var last := |env.contexts| - 1;
            var env2 := env.(contexts := env.contexts[last := env.contexts[last].(tenantId := t)]);
            ResolveDbName(options, collectionName, env2) == ResolveDbName(options, collectionName, env) == Ok(env.coreDbName)
  {
  }

  /** The model cache key. */
  function CacheKey(dbName: string, collectionName: string): string {
    dbName + ":" + collectionName
  }

  /** The first document with the given id. */
  function FindByIdIn(docs: seq<Entity>, id: string): (r: Option<Entity>)
    ensures r.Some? ==> r.value in docs && r.value.id == id
    ensures r.None? ==> forall e :: e in docs ==> e.id != id
  {
    if docs == [] then None
    else if docs[0].id == id then Some(docs[0])
    else FindByIdIn(docs[1..], id)
  }

  /** The first document the filter matches. */
  function FindOneIn(docs: seq<Entity>, filter: Filter): (r: Option<Entity>)
    ensures r.Some? ==> r.value in docs && filter.matches(r.value)
    ensures r.None? ==> forall e :: e in docs ==> !filter.matches(e)
  {
    if docs == [] then None
    else if filter.matches(docs[0]) then Some(docs[0])
    else FindOneIn(docs[1..], filter)
  }

  /** The matching documents, in stored order. */
  function Matching(docs: seq<Entity>, filter: Filter): (r: seq<Entity>)
    ensures |r| <= |docs|
    ensures forall e :: e in r <==> e in docs && filter.matches(e)
  {
    if docs == [] then []
    else (if filter.matches(docs[0]) then [docs[0]] else []) + Matching(docs[1..], filter)
  }

  /** The documents the filter does not match, in stored order. */
  function NotMatching(docs: seq<Entity>, filter: Filter): (r: seq<Entity>)
    ensures forall e :: e in r <==> e in docs && !filter.matches(e)
  {
    if docs == [] then []
    else (if filter.matches(docs[0]) then [] else [docs[0]]) + NotMatching(docs[1..], filter)
  }

  /** Matching and non-matching documents split the collection. */
  lemma {:induction false} SplitCounts(docs: seq<Entity>, filter: Filter)
    ensures |Matching(docs, filter)| + |NotMatching(docs, filter)| == |docs|
  {
    if docs != [] {
      SplitCounts(docs[1..], filter);
    }
  }

  /** Replace the first document with the entity's id by the entity. */
  function Replace(docs: seq<Entity>, e: Entity): (r: seq<Entity>)
    ensures |r| == |docs|
  {
    if docs == [] then []
    else if docs[0].id == e.id then [e] + docs[1..]
    else [docs[0]] + Replace(docs[1..], e)
  }

  /** Remove the first document with the id. */
  function Remove(docs: seq<Entity>, id: string): (r: seq<Entity>)
  {
    if docs == [] then []
    else if docs[0].id == id then docs[1..]
    else [docs[0]] + Remove(docs[1..], id)
  }

  /** `Math.ceil(total / limit)` for a positive limit. */
  function CeilDiv(total: nat, limit: int): (r: nat)
    requires limit > 0
    ensures (r - 1) * limit < total <= r * limit || (total == 0 && r == 0)
  {
    (total + limit - 1) / limit
  }

  /** `.skip(skip).limit(limit)`: at most `limit` elements, from index `skip` on. */
  function SkipLimit<T>(s: seq<T>, skip: nat, limit: nat): (r: seq<T>)
    ensures |r| <= limit
    ensures skip + limit <= |s| ==> r == s[skip..skip + limit]
    ensures skip >= |s| ==> r == []
  {
    var from := if skip <= |s| then skip else |s|;
    var to := if from + limit <= |s| then from + limit else |s|;
    s[from..to]
  }

  /** The page a query returns: filter, then sort when a sort field is set, then skip and limit. */
  function PageItems(docs: seq<Entity>, filter: Filter, options: MongoPaginationOptions, sorter: Sorter): (r: seq<Entity>)
    requires options.skip >= 0 && options.limit > 0
    ensures |r| <= options.limit
  {
    var found := Matching(docs, filter);
    var sorted := if Http.Truthy(options.sortBy)
                  then sorter(found, options.sortBy.value, if options.descending == Some(true) then -1 else 1)
                  else found;
    SkipLimit(sorted, options.skip, options.limit)
  }

  /** Without a sort field the page is the matching documents from `skip` on, at most `limit` of them. */
  lemma UnsortedPage(docs: seq<Entity>, filter: Filter, options: MongoPaginationOptions, sorter: Sorter)
    requires options.skip >= 0 && options.limit > 0 && !Http.Truthy(options.sortBy)
    requires options.skip + options.limit <= |Matching(docs, filter)|
    ensures PageItems(docs, filter, options, sorter)
         == Matching(docs, filter)[options.skip..options.skip + options.limit]
  {
  }

  /** The total ceiling is the smallest page count that holds every match. */
  lemma {:induction false} TotalPagesCoverAll(total: nat, limit: int)
    requires limit > 0
    ensures CeilDiv(total, limit) * limit >= total
    ensures CeilDiv(total, limit) > 0 ==> (CeilDiv(total, limit) - 1) * limit < total
  {
    var r := CeilDiv(total, limit);
    var q := total + limit - 1;
    assert q == r * limit + q % limit;
    if r > 0 {
      assert (r - 1) * limit == r * limit - limit;
    }
  }

  /** The data of the MongoDB server: each database's collections. */
  class Database {
    var collections: map<(string, string), seq<Entity>>

    constructor ()
      ensures collections == map[]
    {
      collections := map[];
    }

    function Docs(dbName: string, collectionName: string): (r: seq<Entity>)
      reads this
    {
      if (dbName, collectionName) in collections then collections[(dbName, collectionName)] else []
    }
  }

  /** A mongoose model bound to one database connection and one collection. */
  class Model {
    const dbName: string
    const collectionName: string

    constructor (dbName: string, collectionName: string)
      ensures this.dbName == dbName && this.collectionName == collectionName
    {
      this.dbName := dbName;
      this.collectionName := collectionName;
    }
  }

  /** A CRUD repository over one collection. */
  class MongoRepository {
    const collectionName: string
    /** What getRepositoryOptions gives for the repository class. */
    const options: Option<RepositoryOptions>
    const database: Database
    var modelCache: map<string, Model>

    /** Every cached model is stored under its own database and collection. */
    ghost predicate Valid()
      reads this, modelCache.Values
    {
      forall k :: k in modelCache ==>
        modelCache[k].collectionName == collectionName && k == CacheKey(modelCache[k].dbName, collectionName)
    }

    constructor (collectionName: string, options: Option<RepositoryOptions>, database: Database)
      ensures this.collectionName == collectionName && this.options == options && this.database == database
      ensures modelCache == map[] && Valid()
    {
      this.collectionName := collectionName;
      this.options := options;
      this.database := database;
      modelCache := map[];
    }

    /** What `getCollection` does to the cache: nothing when the database cannot be resolved;
        otherwise the resolved database's key is bound to a model of that database and
        collection, an entry already there is kept, and no other entry changes. */
    predicate CacheStep(before: map<string, Model>, after: map<string, Model>, env: RepositoryEnvironment) {
      match ResolveDbName(options, collectionName, env)
      case Err(_) => after == before
      case Ok(db) =>
        var key := CacheKey(db, collectionName);
        key in after && after[key].dbName == db && after[key].collectionName == collectionName
        && (key in before ==> after == before)
        && (key !in before ==> after == before[key := after[key]])
    }

    /** A second lookup in the same environment finds the model the first one cached, so each
        database and collection gets one model. */
    lemma CacheStepReusesModel(before: map<string, Model>, mid: map<string, Model>, after: map<string, Model>, env: RepositoryEnvironment)
      requires CacheStep(before, mid, env) && CacheStep(mid, after, env)
      ensures after == mid
    {
    }

    /** `clearModelCache()`. */
    method ClearModelCache()
      modifies this`modelCache
      ensures modelCache == map[] && Valid()
    {
      modelCache := map[];
    }

    /** `getCollection()`: resolve the database, then look up the cache, creating and storing
        one model on a miss. Nothing else touches the cache. */
    method GetCollection(env: RepositoryEnvironment) returns (r: Result<Model, Error>)
      requires Valid()
      modifies this`modelCache
      ensures Valid()
      ensures CacheStep(old(modelCache), modelCache, env)
      ensures ResolveDbName(options, collectionName, env).Err? ==>
        r == Err(ResolveDbName(options, collectionName, env).error) && modelCache == old(modelCache)
      ensures ResolveDbName(options, collectionName, env).Ok? ==>
        var key := CacheKey(ResolveDbName(options, collectionName, env).value, collectionName);
        r.Ok? && key in modelCache && r.value == modelCache[key]
        && r.value.dbName == ResolveDbName(options, collectionName, env).value
        && r.value.collectionName == collectionName
        && (key in old(modelCache) ==> modelCache == old(modelCache))
        && (key !in old(modelCache) ==> fresh(r.value) && modelCache == old(modelCache)[key := r.value])
    {
      var resolved := ResolveDbName(options, collectionName, env);
      if resolved.Err? {
        return Err(resolved.error);
      }
      var cacheKey := CacheKey(resolved.value, collectionName);
      if cacheKey !in modelCache {
        var model := new Model(resolved.value, collectionName);
        modelCache := modelCache[cacheKey := model];
      }
      CacheKeyInjective(modelCache[cacheKey].dbName, resolved.value, collectionName);
      r := Ok(modelCache[cacheKey]);
    }

    /** The documents of the model's collection. */
    function DocsOf(m: Model): seq<Entity>
      reads database
    {
      database.Docs(m.dbName, m.collectionName)
    }

    /** `create(data)`: insert a new document with the id the database assigns; a duplicate
        `_id` is MongoDB's E11000 error. */
    method Create(env: RepositoryEnvironment, data: Value, newId: string) returns (r: Result<Entity, Error>)
      requires Valid()
      modifies this`modelCache, database
      ensures Valid()
      ensures CacheStep(old(modelCache), modelCache, env)
      ensures ResolveDbName(options, collectionName, env).Err? ==>
        r == Err(ResolveDbName(options, collectionName, env).error) && database.collections == old(database.collections)
      ensures ResolveDbName(options, collectionName, env).Ok? ==>
        var key := (ResolveDbName(options, collectionName, env).value, collectionName);
        var before := old(database.Docs(key.0, key.1));
        if FindByIdIn(before, newId).Some? then
          r.Err? && r.error.Message() == DuplicateKeyMessage(key.0, collectionName, newId)
          && database.collections == old(database.collections)
        else
          r == Ok(Entity(newId, data)) && database.collections == old(database.collections)[key := before + [Entity(newId, data)]]
    {
      var collection := GetCollection(env);
      if collection.Err? {
        return Err(collection.error);
      }
      var model := collection.value;
      var docs := DocsOf(model);
      if FindByIdIn(docs, newId).Some? {
        return Err(Foreign("MongoServerError", DuplicateKeyMessage(model.dbName, collectionName, newId), None,
                           Some(Obj(map["_id" := Str(newId)]))));
      }
      var entity := Entity(newId, data);
      database.collections := database.collections[(model.dbName, model.collectionName) := docs + [entity]];
      r := Ok(entity);
    }

    /** `findById(id)`: the document, or NotFoundError(collectionName, id). */
    method FindById(env: RepositoryEnvironment, id: string) returns (r: Result<Entity, Error>)
      requires Valid()
      modifies this`modelCache
      ensures Valid()
      ensures CacheStep(old(modelCache), modelCache, env)
      ensures r == (match ResolveDbName(options, collectionName, env)
                    case Err(e) => Err(e)
                    case Ok(db) => FoundOr(FindByIdIn(database.Docs(db, collectionName), id), NotFound(collectionName, id)))
    ensures ResolveDbName(options, collectionName, env).Ok? ==>
      var key := CacheKey(ResolveDbName(options, collectionName, env).value, collectionName);
      key in modelCache && modelCache[key].dbName == ResolveDbName(options, collectionName, env).value
    {
      var collection := GetCollection(env);
      if collection.Err? {
        return Err(collection.error);
      }
      var result := FindByIdIn(DocsOf(collection.value), id);
      if result.None? {
        return Err(NotFound(collectionName, id));
      }
      r := Ok(result.value);
    }

    /** `findOne(filter, {notFoundReturnNull})`: the first match; on no match null when
        `notFoundReturnNull`, else NotFoundError(collectionName, JSON of the filter). */
    method FindOne(env: RepositoryEnvironment, filter: Filter, notFoundReturnNull: bool) returns (r: Result<Option<Entity>, Error>)
      requires Valid()
      modifies this`modelCache
      ensures Valid()
      ensures CacheStep(old(modelCache), modelCache, env)
      ensures ResolveDbName(options, collectionName, env).Err? ==> r == Err(ResolveDbName(options, collectionName, env).error)
      ensures ResolveDbName(options, collectionName, env).Ok? ==>
        var found := FindOneIn(database.Docs(ResolveDbName(options, collectionName, env).value, collectionName), filter);
        (found.Some? ==> r == Ok(found))
        && (found.None? && notFoundReturnNull ==> r == Ok(None))
        && (found.None? && !notFoundReturnNull ==> r == Err(NotFound(collectionName, filter.json)))
    {
      var collection := GetCollection(env);
      if collection.Err? {
        return Err(collection.error);
      }
      var result := FindOneIn(DocsOf(collection.value), filter);
      if result.None? && !notFoundReturnNull {
        return Err(NotFound(collectionName, filter.json));
      }
      r := Ok(result);
    }

    /** `findAll(filter = {})`: every match in stored order. */
    method FindAll(env: RepositoryEnvironment, filter: Filter) returns (r: Result<seq<Entity>, Error>)
      requires Valid()
      modifies this`modelCache
      ensures Valid()
      ensures CacheStep(old(modelCache), modelCache, env)
      ensures r == (match ResolveDbName(options, collectionName, env)
                    case Err(e) => Err(e)
                    case Ok(db) => Ok(Matching(database.Docs(db, collectionName), filter)))
    {
      var collection := GetCollection(env);
      if collection.Err? {
        return Err(collection.error);
      }
      r := Ok(Matching(DocsOf(collection.value), filter));
    }

    /** `findMany(filter = {})` is `findAll(filter)`. */
    method FindMany(env: RepositoryEnvironment, filter: Filter) returns (r: Result<seq<Entity>, Error>)
      requires Valid()
      modifies this`modelCache
      ensures Valid()
      ensures CacheStep(old(modelCache), modelCache, env)
      ensures r == (match ResolveDbName(options, collectionName, env)
                    case Err(e) => Err(e)
                    case Ok(db) => Ok(Matching(database.Docs(db, collectionName), filter)))
    {
      r := FindAll(env, filter);
    }

    /** `findAllPaginated(filter, options)`: the query is built step by step (find, optional
        sort, skip and limit); page and limit are echoed, total counts every match. */
    method FindAllPaginated(env: RepositoryEnvironment, filter: Filter, paging: MongoPaginationOptions, sorter: Sorter)
      returns (r: Result<PaginatedResponse<Entity>, Error>)
      requires Valid()
      requires paging.skip >= 0 && paging.limit > 0
      modifies this`modelCache
      ensures Valid()
      ensures CacheStep(old(modelCache), modelCache, env)
      ensures ResolveDbName(options, collectionName, env).Err? ==> r == Err(ResolveDbName(options, collectionName, env).error)
      ensures ResolveDbName(options, collectionName, env).Ok? ==>
        var docs := database.Docs(ResolveDbName(options, collectionName, env).value, collectionName);
        var total := |Matching(docs, filter)|;
        r == Ok(PaginatedResponse(PageItems(docs, filter, paging, sorter),
                                  PaginationMetadata(paging.page, paging.limit, total, CeilDiv(total, paging.limit))))
    {
      var collection := GetCollection(env);
      if collection.Err? {
        return Err(collection.error);
      }
      var docs := DocsOf(collection.value);
      var query := Matching(docs, filter);
      if Http.Truthy(paging.sortBy) {
        var sortOrder := if paging.descending == Some(true) then -1 else 1;
        query := sorter(query, paging.sortBy.value, sortOrder);
      }
      var from := if paging.skip <= |query| then paging.skip else |query|;
      var to := if from + paging.limit <= |query| then from + paging.limit else |query|;
      query := query[from..to];
      var total := |Matching(docs, filter)|;
      r := Ok(PaginatedResponse(query, PaginationMetadata(paging.page, paging.limit, total, CeilDiv(total, paging.limit))));
    }

    /** `update(entity)`: `entity.save()` writes the document back to the collection it was
        loaded from and returns the same entity; a document no longer stored cannot be saved. */
    method Update(model: Model, entity: Entity) returns (r: Result<Entity, Error>)
      modifies database
      ensures FindByIdIn(old(DocsOf(model)), entity.id).Some? ==>
        r == Ok(entity)
        && database.collections == old(database.collections)[(model.dbName, model.collectionName) := Replace(old(DocsOf(model)), entity)]
      ensures FindByIdIn(old(DocsOf(model)), entity.id).None? ==>
        r.Err? && database.collections == old(database.collections)
    {
      var docs := DocsOf(model);
      if FindByIdIn(docs, entity.id).None? {
        return Err(Foreign("DocumentNotFoundError", "No document found for query \"{ _id: '" + entity.id + "' }\" on model \"" + model.collectionName + "\"", None, None));
      }
      database.collections := database.collections[(model.dbName, model.collectionName) := Replace(docs, entity)];
      r := Ok(entity);
    }

    /** `updateByQuery(id, data)`: apply the update to the document and return the new version,
        or NotFoundError(collectionName, id). */
    method UpdateByQuery(env: RepositoryEnvironment, id: string, update: Value -> Value) returns (r: Result<Entity, Error>)
      requires Valid()
      modifies this`modelCache, database
      ensures Valid()
      ensures CacheStep(old(modelCache), modelCache, env)
      ensures ResolveDbName(options, collectionName, env).Err? ==>
        r == Err(ResolveDbName(options, collectionName, env).error) && database.collections == old(database.collections)
      ensures ResolveDbName(options, collectionName, env).Ok? ==>
        var key := (ResolveDbName(options, collectionName, env).value, collectionName);
        var before := old(database.Docs(key.0, key.1));
        match FindByIdIn(before, id)
        case None => r == Err(NotFound(collectionName, id)) && database.collections == old(database.collections)
        case Some(e) => r == Ok(Entity(id, update(e.doc)))
                        && database.collections == old(database.collections)[key := Replace(before, Entity(id, update(e.doc)))]
    {
      var collection := GetCollection(env);
      if collection.Err? {
        return Err(collection.error);
      }
      var model := collection.value;
      var docs := DocsOf(model);
      var found := FindByIdIn(docs, id);
      if found.None? {
        return Err(NotFound(collectionName, id));
      }
      var updated := Entity(id, update(found.value.doc));
      database.collections := database.collections[(model.dbName, model.collectionName) := Replace(docs, updated)];
      r := Ok(updated);
    }

    /** `delete(id)`: remove the document and return it, or NotFoundError(collectionName, id). */
    method Delete(env: RepositoryEnvironment, id: string) returns (r: Result<Entity, Error>)
      requires Valid()
      modifies this`modelCache, database
      ensures Valid()
      ensures CacheStep(old(modelCache), modelCache, env)
      ensures ResolveDbName(options, collectionName, env).Err? ==>
        r == Err(ResolveDbName(options, collectionName, env).error) && database.collections == old(database.collections)
      ensures ResolveDbName(options, collectionName, env).Ok? ==>
        var key := (ResolveDbName(options, collectionName, env).value, collectionName);
        var before := old(database.Docs(key.0, key.1));
        match FindByIdIn(before, id)
        case None => r == Err(NotFound(collectionName, id)) && database.collections == old(database.collections)
        case Some(e) => r == Ok(e) && database.collections == old(database.collections)[key := Remove(before, id)]
    {
      var collection := GetCollection(env);
      if collection.Err? {
        return Err(collection.error);
      }
      var model := collection.value;
      var docs := DocsOf(model);
      var found := FindByIdIn(docs, id);
      if found.None? {
        return Err(NotFound(collectionName, id));
      }
      database.collections := database.collections[(model.dbName, model.collectionName) := Remove(docs, id)];
      r := Ok(found.value);
    }

    /** `count(filter = {})`: the number of matches. */
    method Count(env: RepositoryEnvironment, filter: Filter) returns (r: Result<nat, Error>)
      requires Valid()
      modifies this`modelCache
      ensures Valid()
      ensures CacheStep(old(modelCache), modelCache, env)
      ensures r == (match ResolveDbName(options, collectionName, env)
                    case Err(e) => Err(e)
                    case Ok(db) => Ok(|Matching(database.Docs(db, collectionName), filter)|))
    {
      var collection := GetCollection(env);
      if collection.Err? {
        return Err(collection.error);
      }
      r := Ok(|Matching(DocsOf(collection.value), filter)|);
    }

    /** `deleteMany(filter)`: remove every match and report how many were removed. */
    method DeleteMany(env: RepositoryEnvironment, filter: Filter) returns (r: Result<nat, Error>)
      requires Valid()
      modifies this`modelCache, database
      ensures Valid()
      ensures CacheStep(old(modelCache), modelCache, env)
      ensures ResolveDbName(options, collectionName, env).Err? ==>
        r == Err(ResolveDbName(options, collectionName, env).error) && database.collections == old(database.collections)
      ensures ResolveDbName(options, collectionName, env).Ok? ==>
        var key := (ResolveDbName(options, collectionName, env).value, collectionName);
        var before := old(database.Docs(key.0, key.1));
        r == Ok(|before| - |NotMatching(before, filter)|)
        && r.value == |Matching(before, filter)|
        && database.collections == old(database.collections)[key := NotMatching(before, filter)]
    {
      var collection := GetCollection(env);
      if collection.Err? {
        return Err(collection.error);
      }
      var model := collection.value;
      var docs := DocsOf(model);
      var kept := NotMatching(docs, filter);
      SplitCounts(docs, filter);
      database.collections := database.collections[(model.dbName, model.collectionName) := kept];
      r := Ok(|docs| - |kept|);
    }
  }

  /** The found document, or the given error. */
  function FoundOr(found: Option<Entity>, e: Error): (r: Result<Entity, Error>)
    ensures found.Some? ==> r == Ok(found.value)
    ensures found.None? ==> r == Err(e)
  {
    if found.Some? then Ok(found.value) else Err(e)
  }

  /** The message MongoDB gives a duplicate `_id`. */
  function DuplicateKeyMessage(dbName: string, collectionName: string, id: string): string {
    "E11000" + " duplicate key error collection: " + dbName + "." + collectionName + " index: _id_ dup key: { _id: \"" + id + "\" }"
  }

  /** For one collection name, the cache key determines the database. */
  lemma CacheKeyInjective(db1: string, db2: string, collectionName: string)
    requires CacheKey(db1, collectionName) == CacheKey(db2, collectionName)
    ensures db1 == db2
  {
    var k1, k2 := CacheKey(db1, collectionName), CacheKey(db2, collectionName);
    assert |db1| == |db2|;
    assert db1 == k1[..|db1|] && db2 == k2[..|db2|];
  }
}
