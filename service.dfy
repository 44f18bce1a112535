/**
 * The CRUD service (src/abstract/AbstractCrudService.ts): straight delegation
 * to the repository, plus the paging arithmetic of `findAllPaginated` and the
 * two DTO operations. The three hooks a concrete service implements
 * (buildCreateDataFromDto, buildUpdate, buildPaginationFilter) are supplied.
 */
module CrudServices {
  import opened Wrappers
  import opened Strings
  import opened Json
  import opened Errors
  import opened Pagination
  import opened Http
  import opened MongoRepositories
  import opened ErrorHandling

  /** The abstract members a concrete service implements. */
  datatype ServiceHooks = ServiceHooks(
    buildCreateDataFromDto: Value -> Value,
    buildUpdate: (Entity, Value) -> Entity,
    buildPaginationFilter: map<string, QueryValue> -> Filter)

  /** The number of documents before page `page` of size `limit`. */
  function Skip(page: int, limit: int): (r: int)
    ensures page == 1 ==> r == 0
    ensures page >= 1 && limit >= 0 ==> r >= 0
  {
    (page - 1) * limit
  }

  /** The MongoPaginationOptions `findAllPaginated` hands to the repository. */
  function MongoOptionsFor(pagination: PaginationQuery): (r: MongoPaginationOptions)
    ensures r.page == pagination.page && r.limit == pagination.limit
    ensures r.sortBy == pagination.sortBy && r.descending == Some(pagination.descending)
    ensures r.skip == Skip(pagination.page, pagination.limit)
  {
    MongoPaginationOptions(pagination.page, pagination.limit, Skip(pagination.page, pagination.limit),
                           pagination.sortBy, Some(pagination.descending))
  }

  /** `min(x, n)` for slicing. */
  function Clamp(x: int, n: nat): (r: nat)
    ensures r <= n && (0 <= x <= n ==> r == x) && (x > n ==> r == n) && (x < 0 ==> r == 0)
  {
    if x < 0 then 0 else if x <= n then x else n
  }

  /** The next page starts `limit` documents later. */
  lemma SkipAdvancesByLimit(page: int, nextPage: int, limit: int)
    requires nextPage == page + 1
    ensures Skip(nextPage, limit) == Skip(page, limit) + limit
  {
    assert (nextPage - 1) * limit == (page - 1) * limit + limit;
  }

  /** Page `page` of an unsorted query is the matches from index (page-1)*limit, at most
      `limit` of them: what precedes it is exactly the earlier pages. */
  lemma PageWindow(docs: seq<Entity>, filter: Filter, pagination: PaginationQuery, sorter: Sorter)
    requires pagination.page >= 1 && pagination.limit > 0 && !Truthy(pagination.sortBy)
    ensures var m := Matching(docs, filter);
      var s := Skip(pagination.page, pagination.limit);
      PageItems(docs, filter, MongoOptionsFor(pagination), sorter) == m[Clamp(s, |m|)..Clamp(s + pagination.limit, |m|)]
  {
  }

  /** Two unsorted queries whose second skips exactly what the first returns at most adjoin. */
  lemma AdjacentPagesAdjoin(docs: seq<Entity>, filter: Filter, o1: MongoPaginationOptions, o2: MongoPaginationOptions, sorter: Sorter)
    requires o1.skip >= 0 && o1.limit > 0 && !Truthy(o1.sortBy) && !Truthy(o2.sortBy)
    requires o2.skip == o1.skip + o1.limit && o2.limit == o1.limit
    ensures var m := Matching(docs, filter);
      PageItems(docs, filter, o1, sorter) + PageItems(docs, filter, o2, sorter)
        == m[Clamp(o1.skip, |m|)..Clamp(o1.skip + 2 * o1.limit, |m|)]
  {
    var m := Matching(docs, filter);
    assert PageItems(docs, filter, o1, sorter) == SkipLimit(m, o1.skip, o1.limit);
    assert PageItems(docs, filter, o2, sorter) == SkipLimit(m, o1.skip + o1.limit, o1.limit);
    WindowsAdjoin(m, o1.skip, o1.limit);
  }

  /** Consecutive pages adjoin: page p followed by page p+1 is the window of both, with
      neither a gap nor an overlap. */
  lemma ConsecutivePagesAdjoin(docs: seq<Entity>, filter: Filter, pagination: PaginationQuery, sorter: Sorter)
    requires pagination.page >= 1 && pagination.limit > 0 && !Truthy(pagination.sortBy)
    ensures var m := Matching(docs, filter);
      var s := Skip(pagination.page, pagination.limit);
      var next := pagination.(page := pagination.page + 1);
      PageItems(docs, filter, MongoOptionsFor(pagination), sorter) + PageItems(docs, filter, MongoOptionsFor(next), sorter)
        == m[Clamp(s, |m|)..Clamp(s + 2 * pagination.limit, |m|)]
  {
    var next := pagination.(page := pagination.page + 1);
    SkipAdvancesByLimit(pagination.page, next.page, pagination.limit);
    AdjacentPagesAdjoin(docs, filter, MongoOptionsFor(pagination), MongoOptionsFor(next), sorter);
  }

  /** Two windows of width `l`, one after the other, make the window of width 2*l. */
  lemma WindowsAdjoin<T>(m: seq<T>, s: nat, l: nat)
    ensures SkipLimit(m, s, l) + SkipLimit(m, s + l, l) == m[Clamp(s, |m|)..Clamp(s + 2 * l, |m|)]
  {
    var a, b, c := Clamp(s, |m|), Clamp(s + l, |m|), Clamp(s + l + l, |m|);
    assert a <= b <= c;
    assert m[a..b] + m[b..c] == m[a..c];
  }

  /** A CRUD service over one repository. */
  class CrudService {
    const repository: MongoRepository
    const hooks: ServiceHooks

    constructor (repository: MongoRepository, hooks: ServiceHooks)
      ensures this.repository == repository && this.hooks == hooks
    {
      this.repository := repository;
      this.hooks := hooks;
    }

    /** `createFromDto(dto)`: the repository creates what `buildCreateDataFromDto(dto)` gives. */
    method CreateFromDto(env: RepositoryEnvironment, dto: Value, newId: string) returns (r: Result<Entity, Error>)
      requires repository.Valid()
      modifies repository`modelCache, repository.database
      ensures repository.Valid()
      ensures repository.CacheStep(old(repository.modelCache), repository.modelCache, env)
      ensures ResolveDbName(repository.options, repository.collectionName, env).Err? ==>
        r == Err(ResolveDbName(repository.options, repository.collectionName, env).error)
        && repository.database.collections == old(repository.database.collections)
      ensures ResolveDbName(repository.options, repository.collectionName, env).Ok? ==>
        var key := (ResolveDbName(repository.options, repository.collectionName, env).value, repository.collectionName);
        var before := old(repository.database.Docs(key.0, key.1));
        var data := hooks.buildCreateDataFromDto(dto);
        if FindByIdIn(before, newId).Some? then
          r.Err? && IsDuplicateKey(r.error) && repository.database.collections == old(repository.database.collections)
        else
          r == Ok(Entity(newId, data)) && repository.database.collections == old(repository.database.collections)[key := before + [Entity(newId, data)]]
    {
      var createData := hooks.buildCreateDataFromDto(dto);
      r := repository.Create(env, createData, newId);
      if r.Err? && ResolveDbName(repository.options, repository.collectionName, env).Ok? {
        DuplicateMessageMentionsCode(ResolveDbName(repository.options, repository.collectionName, env).value, repository.collectionName, newId);
      }
    }

    /** `create(data)`: delegated unchanged. */
    method Create(env: RepositoryEnvironment, data: Value, newId: string) returns (r: Result<Entity, Error>)
      requires repository.Valid()
      modifies repository`modelCache, repository.database
      ensures repository.Valid()
      ensures repository.CacheStep(old(repository.modelCache), repository.modelCache, env)
      ensures ResolveDbName(repository.options, repository.collectionName, env).Err? ==>
        r == Err(ResolveDbName(repository.options, repository.collectionName, env).error)
        && repository.database.collections == old(repository.database.collections)
      ensures ResolveDbName(repository.options, repository.collectionName, env).Ok? ==>
        var key := (ResolveDbName(repository.options, repository.collectionName, env).value, repository.collectionName);
        var before := old(repository.database.Docs(key.0, key.1));
        if FindByIdIn(before, newId).Some? then
          r.Err? && IsDuplicateKey(r.error) && repository.database.collections == old(repository.database.collections)
        else
          r == Ok(Entity(newId, data)) && repository.database.collections == old(repository.database.collections)[key := before + [Entity(newId, data)]]
    {
      r := repository.Create(env, data, newId);
      if r.Err? && ResolveDbName(repository.options, repository.collectionName, env).Ok? {
        DuplicateMessageMentionsCode(ResolveDbName(repository.options, repository.collectionName, env).value, repository.collectionName, newId);
      }
    }

    /** `findById(id)`: delegated unchanged. */
    method FindById(env: RepositoryEnvironment, id: string) returns (r: Result<Entity, Error>)
      requires repository.Valid()
      modifies repository`modelCache
      ensures repository.Valid()
      ensures repository.CacheStep(old(repository.modelCache), repository.modelCache, env)
      ensures r == (match ResolveDbName(repository.options, repository.collectionName, env)
                    case Err(e) => Err(e)
                    case Ok(db) => FoundOr(FindByIdIn(repository.database.Docs(db, repository.collectionName), id),
                                           NotFound(repository.collectionName, id)))
    {
      r := repository.FindById(env, id);
    }

    /** `findOne(filter)`: the repository's findOne without `notFoundReturnNull`, so a miss is
        a NotFoundError and never null. */
    method FindOne(env: RepositoryEnvironment, filter: Filter) returns (r: Result<Entity, Error>)
      requires repository.Valid()
      modifies repository`modelCache
      ensures repository.Valid()
      ensures repository.CacheStep(old(repository.modelCache), repository.modelCache, env)
      ensures r == (match ResolveDbName(repository.options, repository.collectionName, env)
                    case Err(e) => Err(e)
                    case Ok(db) => FoundOr(FindOneIn(repository.database.Docs(db, repository.collectionName), filter),
                                           NotFound(repository.collectionName, filter.json)))
    {
      var found := repository.FindOne(env, filter, false);
      r := if found.Err? then Err(found.error) else FoundOr(found.value, NotFound(repository.collectionName, filter.json));
    }

    /** `findAll(filter)`: delegated unchanged. */
    method FindAll(env: RepositoryEnvironment, filter: Filter) returns (r: Result<seq<Entity>, Error>)
      requires repository.Valid()
      modifies repository`modelCache
      ensures repository.Valid()
      ensures repository.CacheStep(old(repository.modelCache), repository.modelCache, env)
      ensures r == (match ResolveDbName(repository.options, repository.collectionName, env)
                    case Err(e) => Err(e)
                    case Ok(db) => Ok(Matching(repository.database.Docs(db, repository.collectionName), filter)))
    {
      r := repository.FindAll(env, filter);
    }

    /** `update(entity)`: delegated unchanged. */
    method Update(model: Model, entity: Entity) returns (r: Result<Entity, Error>)
      modifies repository.database
      ensures FindByIdIn(old(repository.DocsOf(model)), entity.id).Some? ==>
        r == Ok(entity)
        && repository.database.collections
           == old(repository.database.collections)[(model.dbName, model.collectionName) := Replace(old(repository.DocsOf(model)), entity)]
      ensures FindByIdIn(old(repository.DocsOf(model)), entity.id).None? ==>
        r.Err? && repository.database.collections == old(repository.database.collections)
    {
      r := repository.Update(model, entity);
    }

    /** `updateFromDto(id, dto)`: findById, then buildUpdate, then update. A NotFoundError from
        findById propagates and nothing is written. */
    method UpdateFromDto(env: RepositoryEnvironment, id: string, dto: Value) returns (r: Result<Entity, Error>)
      requires repository.Valid()
      modifies repository`modelCache, repository.database
      ensures repository.Valid()
      ensures repository.CacheStep(old(repository.modelCache), repository.modelCache, env)
      ensures ResolveDbName(repository.options, repository.collectionName, env).Err? ==>
        r == Err(ResolveDbName(repository.options, repository.collectionName, env).error)
        && repository.database.collections == old(repository.database.collections)
      ensures ResolveDbName(repository.options, repository.collectionName, env).Ok? ==>
        var key := (ResolveDbName(repository.options, repository.collectionName, env).value, repository.collectionName);
        var before := old(repository.database.Docs(key.0, key.1));
        match FindByIdIn(before, id)
        case None => r == Err(NotFound(repository.collectionName, id)) && repository.database.collections == old(repository.database.collections)
        case Some(e) =>
          var updated := hooks.buildUpdate(e, dto);
          (FindByIdIn(before, updated.id).Some? ==>
             r == Ok(updated) && repository.database.collections == old(repository.database.collections)[key := Replace(before, updated)])
          && (FindByIdIn(before, updated.id).None? ==>
             r.Err? && repository.database.collections == old(repository.database.collections))
    {
      var entity := repository.FindById(env, id);
      if entity.Err? {
        return Err(entity.error);
      }
      var db := ResolveDbName(repository.options, repository.collectionName, env).value;
      var model := repository.modelCache[CacheKey(db, repository.collectionName)];
      assert model.collectionName == repository.collectionName;
      var updated := hooks.buildUpdate(entity.value, dto);
      r := repository.Update(model, updated);
    }

    /** `updateByQuery(id, update)`: delegated unchanged. */
    method UpdateByQuery(env: RepositoryEnvironment, id: string, update: Value -> Value) returns (r: Result<Entity, Error>)
      requires repository.Valid()
      modifies repository`modelCache, repository.database
      ensures repository.Valid()
      ensures repository.CacheStep(old(repository.modelCache), repository.modelCache, env)
      ensures ResolveDbName(repository.options, repository.collectionName, env).Err? ==>
        r == Err(ResolveDbName(repository.options, repository.collectionName, env).error)
        && repository.database.collections == old(repository.database.collections)
      ensures ResolveDbName(repository.options, repository.collectionName, env).Ok? ==>
        var key := (ResolveDbName(repository.options, repository.collectionName, env).value, repository.collectionName);
        var before := old(repository.database.Docs(key.0, key.1));
        match FindByIdIn(before, id)
        case None => r == Err(NotFound(repository.collectionName, id)) && repository.database.collections == old(repository.database.collections)
        case Some(e) => r == Ok(Entity(id, update(e.doc)))
                        && repository.database.collections == old(repository.database.collections)[key := Replace(before, Entity(id, update(e.doc)))]
    {
      r := repository.UpdateByQuery(env, id, update);
    }

    /** `delete(id)`: delegated unchanged. */
    method Delete(env: RepositoryEnvironment, id: string) returns (r: Result<Entity, Error>)
      requires repository.Valid()
      modifies repository`modelCache, repository.database
      ensures repository.Valid()
      ensures repository.CacheStep(old(repository.modelCache), repository.modelCache, env)
      ensures ResolveDbName(repository.options, repository.collectionName, env).Err? ==>
        r == Err(ResolveDbName(repository.options, repository.collectionName, env).error)
        && repository.database.collections == old(repository.database.collections)
      ensures ResolveDbName(repository.options, repository.collectionName, env).Ok? ==>
        var key := (ResolveDbName(repository.options, repository.collectionName, env).value, repository.collectionName);
        var before := old(repository.database.Docs(key.0, key.1));
        match FindByIdIn(before, id)
        case None => r == Err(NotFound(repository.collectionName, id)) && repository.database.collections == old(repository.database.collections)
        case Some(e) => r == Ok(e) && repository.database.collections == old(repository.database.collections)[key := Remove(before, id)]
    {
      r := repository.Delete(env, id);
    }

    /** `count(filter)`: delegated unchanged. */
    method Count(env: RepositoryEnvironment, filter: Filter) returns (r: Result<nat, Error>)
      requires repository.Valid()
      modifies repository`modelCache
      ensures repository.Valid()
      ensures repository.CacheStep(old(repository.modelCache), repository.modelCache, env)
      ensures r == (match ResolveDbName(repository.options, repository.collectionName, env)
                    case Err(e) => Err(e)
                    case Ok(db) => Ok(|Matching(repository.database.Docs(db, repository.collectionName), filter)|))
    {
      r := repository.Count(env, filter);
    }

    /** `findAllPaginated(pagination, filter)`: the filter goes through buildPaginationFilter,
        the paging fields reach the repository unchanged with skip = (page-1)*limit, and the
        repository's page is returned as it is. */
    method FindAllPaginated(env: RepositoryEnvironment, pagination: PaginationQuery, filter: map<string, QueryValue>, sorter: Sorter)
      returns (r: Result<PaginatedResponse<Entity>, Error>)
      requires repository.Valid()
      requires pagination.page >= 1 && pagination.limit > 0
      modifies repository`modelCache
      ensures repository.Valid()
      ensures repository.CacheStep(old(repository.modelCache), repository.modelCache, env)
      ensures ResolveDbName(repository.options, repository.collectionName, env).Err? ==>
        r == Err(ResolveDbName(repository.options, repository.collectionName, env).error)
      ensures ResolveDbName(repository.options, repository.collectionName, env).Ok? ==>
        var docs := repository.database.Docs(ResolveDbName(repository.options, repository.collectionName, env).value, repository.collectionName);
        var queryFilter := hooks.buildPaginationFilter(filter);
        var total := |Matching(docs, queryFilter)|;
        r == Ok(PaginatedResponse(PageItems(docs, queryFilter, MongoOptionsFor(pagination), sorter),
                                  PaginationMetadata(pagination.page, pagination.limit, total, CeilDiv(total, pagination.limit))))
    {
      var queryFilter := hooks.buildPaginationFilter(filter);
      var options := MongoOptionsFor(pagination);
      r := repository.FindAllPaginated(env, queryFilter, options, sorter);
    }
  }

  /** The duplicate `_id` message carries MongoDB's E11000 code. */
  lemma DuplicateMessageMentionsCode(dbName: string, collectionName: string, id: string)
    ensures Mentions(DuplicateKeyMessage(dbName, collectionName, id), "E11000")
  {
    var m := DuplicateKeyMessage(dbName, collectionName, id);
    var rest := " duplicate key error collection: " + dbName + "." + collectionName + " index: _id_ dup key: { _id: \"" + id + "\" }";
    assert m == "E11000" + rest;
    assert Window(m, 0, 6) == "E11000";
  }
}
