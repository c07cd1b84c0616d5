/**
 * The decorator revision the app shim imports: `Controller(path)` stores the base path
 * verbatim, and `RouteDecoratorFactory(method)` builds the route decorators.
 */
module Route {
  import opened Common
  import opened Metadata
  import Decorators

  /** `path ?? className ?? ""`: no "/" is added. */
  function BasePath(path: Option<string>, className: Option<string>): (r: string)
    ensures path.Some? ==> r == path.value
    ensures path.None? && className.Some? ==> r == className.value
    ensures path.None? && className.None? ==> r == ""
  {
    if path.Some? then path.value else className.GetOr("")
  }

  /**
   * The two revisions differ only by the leading "/": the normalising revision stores this
   * revision's base path with a "/" added when missing, and both agree when it is already there.
   */
  lemma RevisionsDifferOnlyBySlash(path: Option<string>, className: string)
    ensures Decorators.BasePath(path, className) == WithLeadingSlash(BasePath(path, Some(className)))
    ensures StartsWithSlash(BasePath(path, Some(className))) ==>
              Decorators.BasePath(path, className) == BasePath(path, Some(className))
  {
  }

  /**
   * `Controller()` called with no argument on class `ExampleController` stores a base path without a
   * leading "/", where the normalising revision stores "/ExampleController".
   */
  lemma BasePathWithoutSlash()
    ensures BasePath(None, Some("ExampleController")) == "ExampleController"
    ensures !StartsWithSlash(BasePath(None, Some("ExampleController")))
    ensures Decorators.BasePath(None, "ExampleController") == "/ExampleController"
  {
  }

  /** The class decorator returned by `Controller(path)`. */
  class ControllerDecorator {
    var path: Option<string>

    constructor (path: Option<string>)
      ensures this.path == path
    {
      this.path := path;
    }

    /** Decorating the class `target` whose `name` is `className`: records its base path verbatim. */
    method Apply(store: MetadataStore, target: ControllerId, className: Option<string>)
      modifies this, store
      ensures path == Some(BasePath(old(path), className))
      ensures store.basePaths == old(store.basePaths)[target := BasePath(old(path), className)]
      ensures store.routes == old(store.routes)
    {
      path := Some(if path.Some? then path.value else if className.Some? then className.value else "");
      store.DefineBasePath(target, path.value);
    }
  }

  /** The method decorator returned by `RouteDecoratorFactory(method)(path, schema, handlers = [])`. */
  class RouteDecorator {
    const httpMethod: Method
    var path: Option<string>
    const schema: Option<Schema>
    const handlers: seq<Handler>

    constructor (httpMethod: Method, path: Option<string>, schema: Option<Schema>, handlers: Option<seq<Handler>>)
      ensures this.httpMethod == httpMethod && this.path == path && this.schema == schema
      ensures this.handlers == handlers.GetOr([])
    {
      this.httpMethod := httpMethod;
      this.path := path;
      this.schema := schema;
      this.handlers := handlers.GetOr([]);
    }

    /**
     * Decorating member `key` of `controller`: appends exactly one route configuration at the
     * end of the controller's list and keeps every earlier entry.
     */
    method Apply(store: MetadataStore, controller: ControllerId, key: string)
      modifies this, store
      ensures path == Some(RoutePath(old(path), key))
      ensures store.routes ==
                old(store.routes)[controller :=
                  old(store.RoutesOrEmpty(controller)) + [RouteConfig(RoutePath(old(path), key), httpMethod, handlers, key, schema)]]
      ensures store.basePaths == old(store.basePaths)
    {
      var routes := store.RoutesOrEmpty(controller);
      if path.None? {
        path := Some(key);
      }
      if path.value == "" {
        path := Some(key);
      }
      if !StartsWithSlash(path.value) {
        path := Some("/" + path.value);
      }
      var config := RouteConfig(path.value, httpMethod, handlers, key, schema);
      routes := routes + [config];
      store.DefineRoutes(controller, routes);
    }
  }

  /** The exported route decorators: no `Options` and no `Head`; `Route` is another name for `Get`. */
  const EXPORTS: map<string, Method> := map[
    "Get" := Get, "Post" := Post, "Put" := Put, "Delete" := Delete, "Patch" := Patch,
    "All" := All, "Route" := Get]

  lemma ExportedMethods(m: Method)
    ensures m in EXPORTS.Values <==> m != Options && m != Head
    ensures EXPORTS["Route"] == EXPORTS["Get"]
  {
    match m
    case Get => assert EXPORTS["Get"] == m;
    case Post => assert EXPORTS["Post"] == m;
    case Put => assert EXPORTS["Put"] == m;
    case Delete => assert EXPORTS["Delete"] == m;
    case Patch => assert EXPORTS["Patch"] == m;
    case All => assert EXPORTS["All"] == m;
    case Options =>
    case Head =>
  }
}
