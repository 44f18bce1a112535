/**
 * OpenAPI documentation of routes (src/decorator/swaggerDoc.decorator.ts and
 * src/infrastructure/swagger/swaggerProcessor.ts). @SwaggerDoc records a
 * per-method document, @SwaggerDocController a per-class one, and every
 * registered route adds one path to the OpenAPI registry, its fields taken
 * from the method's document with the controller's as fallback.
 */
module Swagger {
  import opened Wrappers
  import opened Strings
  import opened Json
  import opened Paths
  import opened Http
  import opened Metadata
  import opened Decorators
  import opened Stereotypes

  /** One documented response: its description and, optionally, its content. */
  datatype ResponseDoc = ResponseDoc(description: string, content: Option<Value>)

  /** SwaggerDocOptions: a route config without method and path; `extra` holds the other
      route-config fields (request, operationId, ...), which are copied as they are. */
  datatype SwaggerDocOptions = SwaggerDocOptions(
    summary: Option<string>, description: Option<string>, tags: Option<seq<string>>,
    responses: Option<map<int, ResponseDoc>>, extra: map<string, Value>)

  /** SwaggerDocControllerOptions {name, description?, tags?}. */
  datatype SwaggerControllerDoc = SwaggerControllerDoc(name: string, description: Option<string>, tags: Option<seq<string>>)

  /** The route config handed to `registry.registerPath`. */
  datatype RouteConfig = RouteConfig(
    verb: string, path: string, summary: Option<string>, description: Option<string>,
    tags: seq<string>, responses: map<int, ResponseDoc>, extra: map<string, Value>)

  /** @SwaggerDoc(options) on `cls.propertyKey`. */
  method SwaggerDoc(registry: MetadataRegistry<SwaggerDocOptions>, options: SwaggerDocOptions, cls: string, propertyKey: string)
    modifies registry
    ensures registry.own == old(registry.own)[cls := old(registry.OwnRecord(cls))[propertyKey := options]]
  {
    registry.Define(cls, propertyKey, options);
  }

  /** The response documented when a method documents none. */
  const DefaultResponses: map<int, ResponseDoc> := map[200 := ResponseDoc("Success", None)]

  /** The route config of one route. An array counts as given even when empty; a description
      counts only when non-empty, and then the controller's is used as it is. */
  function RouteConfigFor(controllerDoc: Option<SwaggerControllerDoc>, methodDoc: Option<SwaggerDocOptions>, route: RouteMetadata, fullPath: string): RouteConfig
  {
    var controllerTags := if controllerDoc.Some? && controllerDoc.value.tags.Some? then controllerDoc.value.tags.value else [];
    var controllerDescription := if controllerDoc.Some? then controllerDoc.value.description else None;
    RouteConfig(
      Lower(route.verb.Name()),
      SwaggerPath(fullPath),
      if methodDoc.Some? then methodDoc.value.summary else None,
      if methodDoc.Some? && Truthy(methodDoc.value.description) then methodDoc.value.description else controllerDescription,
      if methodDoc.Some? && methodDoc.value.tags.Some? then methodDoc.value.tags.value else controllerTags,
      if methodDoc.Some? && methodDoc.value.responses.Some? then methodDoc.value.responses.value else DefaultResponses,
      if methodDoc.Some? then methodDoc.value.extra else map[])
  }

  /** The OpenAPI registry's paths, in registration order. */
  class OpenApiRegistry {
    var paths: seq<RouteConfig>

    constructor ()
      ensures paths == []
    {
      paths := [];
    }

    method RegisterPath(config: RouteConfig)
      modifies this
      ensures paths == old(paths) + [config]
    {
      paths := paths + [config];
    }
  }

  /** The registry's paths after `processSwaggerRoute`: unchanged for a class without
      controller options, otherwise one more path, documented by the method's entry in the
      merged @SwaggerDoc metadata. */
  function Documented(paths: seq<RouteConfig>, options: Option<ControllerOptions>, controllerDoc: Option<SwaggerControllerDoc>,
                      methodDocs: map<string, SwaggerDocOptions>, methodName: string, route: RouteMetadata, fullPath: string): (r: seq<RouteConfig>)
    ensures options.None? ==> r == paths
    ensures options.Some? ==> |r| == |paths| + 1 && r[..|paths|] == paths
    ensures options.Some? ==> r[|paths|].path == SwaggerPath(fullPath) && r[|paths|].verb == Lower(route.verb.Name())
  {
    if options.None? then paths
    else paths + [RouteConfigFor(controllerDoc, if methodName in methodDocs then Some(methodDocs[methodName]) else None, route, fullPath)]
  }

  /** `processSwaggerRoute(registry, controllerClass, methodName, route, fullPath)`. */
  method ProcessSwaggerRoute(registry: OpenApiRegistry, options: Option<ControllerOptions>, controllerDoc: Option<SwaggerControllerDoc>,
                             methodDocs: map<string, SwaggerDocOptions>, methodName: string, route: RouteMetadata, fullPath: string)
    modifies registry
    ensures registry.paths == Documented(old(registry.paths), options, controllerDoc, methodDocs, methodName, route, fullPath)
  {
    if options.None? {
      return;
    }
    var methodSwaggerDoc := if methodName in methodDocs then Some(methodDocs[methodName]) else None;
    registry.RegisterPath(RouteConfigFor(controllerDoc, methodSwaggerDoc, route, fullPath));
  }

  /** The OpenAPI method (the `verb` field) is the lower-case verb. */
  lemma VerbNames(route: RouteMetadata, fullPath: string, controllerDoc: Option<SwaggerControllerDoc>, methodDoc: Option<SwaggerDocOptions>)
    ensures var m := RouteConfigFor(controllerDoc, methodDoc, route, fullPath).verb;
      (route.verb == GET ==> m == "get") && (route.verb == POST ==> m == "post") &&
      (route.verb == PUT ==> m == "put") && (route.verb == DELETE ==> m == "delete") &&
      (route.verb == PATCH ==> m == "patch")
  {
    var m := RouteConfigFor(controllerDoc, methodDoc, route, fullPath).verb;
    assert m == Lower(route.verb.Name());
    match route.verb
    case GET => assert m == "get";
    case POST => assert m == "post";
    case PUT => assert m == "put";
    case DELETE => assert m == "delete";
    case PATCH => assert m == "patch";
  }

  /** An undocumented route in an undocumented controller gets no summary, no description,
      no tags and the single response `200: Success`. */
  lemma UndocumentedRouteDefaults(route: RouteMetadata, fullPath: string)
    ensures var r := RouteConfigFor(None, None, route, fullPath);
      r.summary.None? && r.description.None? && r.tags == [] && r.responses == DefaultResponses && r.extra == map[]
  {
  }

  /** A controller's description and tags document its undocumented methods. */
  lemma ControllerDocFallback(doc: SwaggerControllerDoc, methodDoc: Option<SwaggerDocOptions>, route: RouteMetadata, fullPath: string)
    requires methodDoc.Some? ==> !Truthy(methodDoc.value.description) && methodDoc.value.tags.None?
    ensures var r := RouteConfigFor(Some(doc), methodDoc, route, fullPath);
      r.description == doc.description && r.tags == doc.tags.GetOr([])
  {
  }

  /** What the method documents wins over the controller; an empty tag list is kept (an array
      is truthy) while an empty description is replaced by the controller's. */
  lemma MethodDocWins(controllerDoc: Option<SwaggerControllerDoc>, doc: SwaggerDocOptions, route: RouteMetadata, fullPath: string)
    ensures var r := RouteConfigFor(controllerDoc, Some(doc), route, fullPath);
      r.summary == doc.summary && r.extra == doc.extra &&
      (doc.tags.Some? ==> r.tags == doc.tags.value) &&
      (doc.responses.Some? ==> r.responses == doc.responses.value) &&
      (Truthy(doc.description) ==> r.description == doc.description) &&
      (doc.description == Some("") && controllerDoc.Some? ==> r.description == controllerDoc.value.description)
  {
  }

  /** The documented path is the registered path in OpenAPI form, and MagicRouter's conversion
      turns it back into that path when the path has no `{`. */
  lemma DocumentedPathRoundTrip(controllerDoc: Option<SwaggerControllerDoc>, methodDoc: Option<SwaggerDocOptions>, route: RouteMetadata, fullPath: string)
    requires forall i :: 0 <= i < |fullPath| ==> fullPath[i] != '{'
    ensures KoaPath(RouteConfigFor(controllerDoc, methodDoc, route, fullPath).path) == fullPath
  {
    KoaPathInvertsSwaggerPath(fullPath);
  }
}
