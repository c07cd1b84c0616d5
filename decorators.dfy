/**
 * The decorator revision that normalises the controller base path: `Controller(path)` and the
 * route decorators built by `RouteFactory(method)`. Each decorator object keeps the `path` its
 * factory was called with and overwrites it with the normalised path on every application.
 */
module Decorators {
  import opened Common
  import opened Metadata

  /** The property descriptor a method decorator receives; it is handed back unchanged. */
  datatype Descriptor = Descriptor(id: nat)

  /** The base path `Controller` stores: the class name when no path is given, always with a leading "/". */
  function BasePath(path: Option<string>, className: string): (r: string)
    ensures StartsWithSlash(r)
    ensures path.Some? ==> r == path.value || r == "/" + path.value
    ensures path.None? ==> r == className || r == "/" + className
  {
    WithLeadingSlash(path.GetOr(className))
  }

  /** Applying the normalisation to a stored base path again changes nothing. */
  lemma BasePathStable(path: Option<string>, className: string, otherName: string)
    ensures BasePath(Some(BasePath(path, className)), otherName) == BasePath(path, className)
  {
  }

  /** The class decorator returned by `Controller(path)`. */
  class ControllerDecorator {
    var path: Option<string>

    constructor (path: Option<string>)
      ensures this.path == path
    {
      this.path := path;
    }

    /** Decorating the class `target` named `className`: records its base path and returns the class. */
    method Apply(store: MetadataStore, target: ControllerId, className: string) returns (result: ControllerId)
      modifies this, store
      ensures result == target
      ensures path == Some(BasePath(old(path), className))
      ensures store.basePaths == old(store.basePaths)[target := BasePath(old(path), className)]
      ensures store.routes == old(store.routes)
    {
      if path.None? {
        path := Some(className);
      }
      if !StartsWithSlash(path.value) {
        path := Some("/" + path.value);
      }
      store.DefineBasePath(target, path.value);
      result := target;
    }
  }

  /** The method decorator returned by `RouteFactory(method)(path, schema, handlers = [])`. */
  class RouteDecorator {
    const httpMethod: Method
    var path: Option<string>
    const schema: Option<Schema>
    const handlers: seq<Handler>

    constructor (httpMethod: Method, path: Option<string>, schema: Option<Schema>, handlers: Option<seq<Handler>>)
      ensures this.httpMethod == httpMethod && this.path == path && this.schema == schema
      ensures this.handlers == handlers.GetOr([])
    {
      this.httpMethod := httpMethod;
      this.path := path;
      this.schema := schema;
      this.handlers := handlers.GetOr([]);
    }

    /**
     * Decorating member `key` of `controller`: appends exactly one route configuration at the
     * end of the controller's list, keeps every earlier entry (duplicates included), and returns
     * the descriptor unchanged.
     */
    method Apply(store: MetadataStore, controller: ControllerId, key: string, descriptor: Descriptor)
      returns (result: Descriptor)
      modifies this, store
      ensures result == descriptor
      ensures path == Some(RoutePath(old(path), key))
      ensures store.routes ==
                old(store.routes)[controller :=
                  old(store.RoutesOrEmpty(controller)) + [RouteConfig(RoutePath(old(path), key), httpMethod, handlers, key, schema)]]
      ensures store.basePaths == old(store.basePaths)
    {
      var routes := store.RoutesOrEmpty(controller);
      if path.None? {
        path := Some(key);
      }
      if path.value == "" {
        path := Some(key);
      }
      if !StartsWithSlash(path.value) {
        path := Some("/" + path.value);
      }
      var config := RouteConfig(path.value, httpMethod, handlers, key, schema);
      routes := routes + [config];
      store.DefineRoutes(controller, routes);
      result := descriptor;
    }
  }

  /** The exported route decorators, by name: one per method, and `Route` as another name for `Get`. */
  const EXPORTS: map<string, Method> := map[
    "Get" := Get, "Post" := Post, "Put" := Put, "Delete" := Delete, "Patch" := Patch,
    "Options" := Options, "Head" := Head, "All" := All, "Route" := Get]

  lemma ExportsCoverEveryMethod(m: Method)
    ensures m in EXPORTS.Values
    ensures EXPORTS["Route"] == EXPORTS["Get"]
  {
    match m
    case Get => assert EXPORTS["Get"] == m;
    case Post => assert EXPORTS["Post"] == m;
    case Put => assert EXPORTS["Put"] == m;
    case Delete => assert EXPORTS["Delete"] == m;
    case Patch => assert EXPORTS["Patch"] == m;
    case Options => assert EXPORTS["Options"] == m;
    case Head => assert EXPORTS["Head"] == m;
    case All => assert EXPORTS["All"] == m;
  }

  /**
   * Two `Get('/error')` decorations on members of one controller, as in the example application:
   * both configurations are kept, in declaration order.
   */
  method DuplicateRoutesKept() returns (routes: seq<RouteConfig>)
    ensures |routes| == 2
    ensures routes[0].path == "/error" && routes[1].path == "/error"
    ensures routes[0].key == "error" && routes[1].key == "withError"
    ensures routes[0].httpMethod == Get && routes[1].httpMethod == Get
  {
    var store := new MetadataStore();
    var first := new RouteDecorator(EXPORTS["Route"], Some("/error"), None, None);
    var second := new RouteDecorator(EXPORTS["Get"], Some("/error"), None, None);
    var d := first.Apply(store, 0, "error", Descriptor(0));
    d := second.Apply(store, 0, "withError", Descriptor(1));
    routes := store.routes[0];
  }
}
