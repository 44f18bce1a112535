/**
 * The CRUD mapper (src/abstract/AbstractCrudMapper.ts): each response DTO is
 * its schema's `parse` of the entity's plain object, and a paginated response
 * maps its items one by one and keeps its pagination metadata. A schema's
 * `parse` is supplied: it returns the parsed value, or the error it throws.
 */
module CrudMappers {
  import opened Wrappers
  import opened Json
  import opened Errors
  import opened Pagination
  import opened MongoRepositories

  /** `schema.parse`: the parsed DTO, or the ZodError it throws. */
  type Parse = Value -> Result<Value, Error>

  /** MapperSchemas: one schema per response DTO. */
  datatype MapperSchemas = MapperSchemas(
    createResponse: Parse, findByIdResponse: Parse, findOneResponse: Parse,
    updateResponse: Parse, deleteResponse: Parse, paginatedItem: Parse)

  /** `entity.toObject()`: the document's fields with its `_id`. */
  function ToDto(e: Entity): (r: Value)
    ensures r.Obj? && "_id" in r.fields && r.fields["_id"] == Str(e.id)
    ensures e.doc.Obj? ==> forall k :: k in e.doc.fields && k != "_id" ==> k in r.fields && r.fields[k] == e.doc.fields[k]
  {
    Obj((if e.doc.Obj? then e.doc.fields else map[])["_id" := Str(e.id)])
  }

  function ToCreateResponseDto(s: MapperSchemas, e: Entity): Result<Value, Error> { s.createResponse(ToDto(e)) }
  function ToFindByIdResponseDto(s: MapperSchemas, e: Entity): Result<Value, Error> { s.findByIdResponse(ToDto(e)) }
  function ToFindOneResponseDto(s: MapperSchemas, e: Entity): Result<Value, Error> { s.findOneResponse(ToDto(e)) }
  function ToUpdateResponseDto(s: MapperSchemas, e: Entity): Result<Value, Error> { s.updateResponse(ToDto(e)) }
  function ToDeleteResponseDto(s: MapperSchemas, e: Entity): Result<Value, Error> { s.deleteResponse(ToDto(e)) }
  function ToPaginatedItemDto(s: MapperSchemas, e: Entity): Result<Value, Error> { s.paginatedItem(ToDto(e)) }

  /** `xs.map(f)` where `f` may throw: the first element on which `f` throws ends the map
      with that error. */
  function MapAll<A, B, E>(f: A -> Result<B, E>, xs: seq<A>): (r: Result<seq<B>, E>)
    ensures r.Ok? <==> forall i :: 0 <= i < |xs| ==> f(xs[i]).Ok?
    ensures r.Ok? ==> (|r.value| == |xs| && forall i :: 0 <= i < |xs| ==> r.value[i] == f(xs[i]).value)
    ensures r.Err? ==> (exists i :: (0 <= i < |xs| && f(xs[i]) == Err(r.error)
                                     && forall j :: 0 <= j < i ==> f(xs[j]).Ok?))
  {
    if xs == [] then Ok([])
    else
      match f(xs[0])
      case Err(e) => Err(e)
      case Ok(v) =>
        match MapAll(f, xs[1..])
        case Err(e) =>
          FailureShifts(f, xs, e);
          Err(e)
        case Ok(rest) => Ok([v] + rest)
  }

  /** A failure in the tail, after a head that succeeds, is a failure of the whole list at
      the next index. */
  lemma FailureShifts<A, B, E>(f: A -> Result<B, E>, xs: seq<A>, e: E)
    requires xs != [] && f(xs[0]).Ok?
    requires exists i :: (0 <= i < |xs[1..]| && f(xs[1..][i]) == Err(e) && forall j :: 0 <= j < i ==> f(xs[1..][j]).Ok?)
    ensures exists i :: (0 <= i < |xs| && f(xs[i]) == Err(e) && forall j :: 0 <= j < i ==> f(xs[j]).Ok?)
  {
    var i :| 0 <= i < |xs[1..]| && f(xs[1..][i]) == Err(e) && forall j :: 0 <= j < i ==> f(xs[1..][j]).Ok?;
    assert xs[i + 1] == xs[1..][i];
    forall j | 0 <= j < i + 1
      ensures f(xs[j]).Ok?
    {
      if j > 0 { assert xs[j] == xs[1..][j - 1]; }
    }
  }

  /** Mapping distributes over concatenation when both halves succeed. */
  lemma MapAllDistribute<A, B, E>(f: A -> Result<B, E>, a: seq<A>, b: seq<A>)
    requires MapAll(f, a).Ok? && MapAll(f, b).Ok?
    ensures MapAll(f, a + b) == Ok(MapAll(f, a).value + MapAll(f, b).value)
  {
    var r := MapAll(f, a + b);
    var ra, rb := MapAll(f, a).value, MapAll(f, b).value;
    forall i | 0 <= i < |a + b|
      ensures f((a + b)[i]).Ok?
    {
      if i < |a| { assert (a + b)[i] == a[i]; } else { assert (a + b)[i] == b[i - |a|]; }
    }
    assert r.Ok?;
    forall i | 0 <= i < |r.value|
      ensures r.value[i] == (ra + rb)[i]
    {
      if i < |a| { assert (a + b)[i] == a[i]; } else { assert (a + b)[i] == b[i - |a|]; }
    }
    assert r.value == ra + rb;
  }

  /** `toPaginatedItemDto` as the function `map` is given. */
  function ItemParser(s: MapperSchemas): Entity -> Result<Value, Error> {
    e => ToPaginatedItemDto(s, e)
  }

  /** `toPaginatedItemsDto(entities)`: `entities.map(toPaginatedItemDto)`; the first entity
      whose parse throws ends the map with that error. */
  function ToPaginatedItemsDto(s: MapperSchemas, entities: seq<Entity>): (r: Result<seq<Value>, Error>)
    ensures r.Ok? <==> forall i :: 0 <= i < |entities| ==> ToPaginatedItemDto(s, entities[i]).Ok?
    ensures r.Ok? ==> (|r.value| == |entities|
      && forall i :: 0 <= i < |entities| ==> r.value[i] == ToPaginatedItemDto(s, entities[i]).value)
    ensures r.Err? ==> (exists i :: (0 <= i < |entities| && ToPaginatedItemDto(s, entities[i]) == Err(r.error)
                                     && forall j :: 0 <= j < i ==> ToPaginatedItemDto(s, entities[j]).Ok?))
  {
    MapAll(ItemParser(s), entities)
  }

  /** `toPaginatedResponse(response)`: the items mapped, the pagination metadata kept. */
  function ToPaginatedResponse(s: MapperSchemas, response: PaginatedResponse<Entity>): (r: Result<PaginatedResponse<Value>, Error>)
    ensures r.Ok? <==> ToPaginatedItemsDto(s, response.items).Ok?
    ensures r.Ok? ==> r.value.pagination == response.pagination && r.value.items == ToPaginatedItemsDto(s, response.items).value
    ensures r.Err? ==> r.error == ToPaginatedItemsDto(s, response.items).error
  {
    match ToPaginatedItemsDto(s, response.items)
    case Err(e) => Err(e)
    case Ok(items) => Ok(PaginatedResponse(items, response.pagination))
  }

  /** Mapping items distributes over concatenation: two pages mapped one after the other are
      the two pages' items mapped together. */
  lemma ItemsDistribute(s: MapperSchemas, a: seq<Entity>, b: seq<Entity>)
    requires ToPaginatedItemsDto(s, a).Ok? && ToPaginatedItemsDto(s, b).Ok?
    ensures ToPaginatedItemsDto(s, a + b) == Ok(ToPaginatedItemsDto(s, a).value + ToPaginatedItemsDto(s, b).value)
  {
    MapAllDistribute(ItemParser(s), a, b);
  }
}
