/**
 * The route registry both decorator revisions write to: a metadata store keyed by controller,
 * holding a base path and an ordered list of route configurations per controller.
 */
module Metadata {
  import opened Common

  /** The HTTP methods a route configuration can name. */
  datatype Method = All | Get | Post | Put | Delete | Patch | Options | Head

  /** A validation schema, passed through unread. */
  datatype Schema = Schema(id: nat)

  /** A request handler: one supplied by the user, or the schema check the app shim adds. */
  datatype Handler = Middleware(id: nat) | SchemaCheck(schema: Schema)

  /** One decorated controller member: its route path, method, extra handlers, member name and schema. */
  datatype RouteConfig = RouteConfig(path: string, httpMethod: Method, handlers: seq<Handler>, key: string, schema: Option<Schema>)

  /** The identity of a controller class. */
  type ControllerId = nat

  predicate StartsWithSlash(s: string) {
    |s| > 0 && s[0] == '/'
  }

  /** `if (!p.startsWith("/")) p = "/" + p`: a "/" is added only when it is missing. */
  function WithLeadingSlash(p: string): (r: string)
    ensures StartsWithSlash(r)
    ensures r == p || r == "/" + p
    ensures r == p <==> StartsWithSlash(p)
  {
    if StartsWithSlash(p) then p else "/" + p
  }

  lemma WithLeadingSlashIdempotent(p: string)
    ensures WithLeadingSlash(WithLeadingSlash(p)) == WithLeadingSlash(p)
  {
  }

  /**
   * The route path both revisions store: the given path unless it is undefined or empty, in which
   * case the member name, then with a leading "/".
   */
  function RoutePath(path: Option<string>, key: string): (r: string)
    ensures StartsWithSlash(r)
    ensures path.Some? && path.value != "" ==> r == path.value || r == "/" + path.value
    ensures path.None? || path.value == "" ==> r == key || r == "/" + key
    ensures path.Some? && path.value != "" ==> (r == path.value <==> StartsWithSlash(path.value))
    ensures path.None? || path.value == "" ==> (r == key <==> StartsWithSlash(key))
  {
    WithLeadingSlash(if path.None? || path.value == "" then key else path.value)
  }

  /**
   * A decorator object applied a second time starts from the path its first application stored,
   * and stores that same path again, whatever member it now decorates.
   */
  lemma RoutePathReapplied(path: Option<string>, key: string, otherKey: string)
    ensures RoutePath(Some(RoutePath(path, key)), otherKey) == RoutePath(path, key)
  {
  }

  /** The metadata store: `Reflect.defineMetadata` / `getMetadata` under the two keys the decorators use. */
  class MetadataStore {
    var basePaths: map<ControllerId, string>
    var routes: map<ControllerId, seq<RouteConfig>>

    constructor ()
      ensures basePaths == map[] && routes == map[]
    {
      basePaths := map[];
      routes := map[];
    }

    /** `Reflect.getMetadata(ROUTES, controller) || []`. */
    function RoutesOrEmpty(c: ControllerId): (r: seq<RouteConfig>)
      reads this
      ensures c in routes ==> r == routes[c]
      ensures c !in routes ==> r == []
    {
      if c in routes then routes[c] else []
    }

    /** `Reflect.defineMetadata(BASE_PATH, path, controller)`. */
    method DefineBasePath(c: ControllerId, path: string)
      modifies this
      ensures basePaths == old(basePaths)[c := path]
      ensures routes == old(routes)
    {
      basePaths := basePaths[c := path];
    }

    /** `Reflect.defineMetadata(ROUTES, rs, controller)`. */
    method DefineRoutes(c: ControllerId, rs: seq<RouteConfig>)
      modifies this
      ensures routes == old(routes)[c := rs]
      ensures basePaths == old(basePaths)
    {
      routes := routes[c := rs];
    }
  }
}
