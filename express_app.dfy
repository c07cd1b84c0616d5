/**
 * The app shim's bookkeeping: binding every registered route at base path + route path,
 * appending the schema check to a route's handlers, grouping validation errors by parameter,
 * and rejecting a request with validation errors before its handler runs.
 */
module ExpressApp {
  import opened Common
  import opened Metadata
  import opened ControllerErrors

  /**
   * `expressApp[method](routePath, ...handlers, wrapper)`: one route handed to the server. The
   * final wrapper invokes member `key` of the controller instance.
   */
  datatype Binding = Binding(httpMethod: Method, path: string, handlers: seq<Handler>, key: string, schema: Option<Schema>)

  /** `${basePath}${path}`: an undefined base path is rendered as the text "undefined". */
  function FullPath(basePath: Option<string>, routePath: string): (r: string)
    ensures var prefix := if basePath.Some? then basePath.value else "undefined";
            |r| == |prefix| + |routePath| && r[..|prefix|] == prefix && r[|prefix|..] == routePath
  {
    (if basePath.Some? then basePath.value else "undefined") + routePath
  }

  /** A base path that starts with "/" (as the normalising revision stores) gives a full path that does too. */
  lemma FullPathStartsWithSlash(basePath: string, routePath: string)
    requires StartsWithSlash(basePath)
    ensures StartsWithSlash(FullPath(Some(basePath), routePath))
  {
  }

  /** A route after registration: with a schema, its schema check is appended to its handlers. */
  function WithSchemaCheck(route: RouteConfig): RouteConfig {
    if route.schema.Some? then route.(handlers := route.handlers + [SchemaCheck(route.schema.value)]) else route
  }

  function Checked(routes: seq<RouteConfig>): seq<RouteConfig> {
    seq(|routes|, i requires 0 <= i < |routes| => WithSchemaCheck(routes[i]))
  }

  function BindingOf(basePath: Option<string>, route: RouteConfig): Binding {
    Binding(route.httpMethod, FullPath(basePath, route.path), route.handlers, route.key, route.schema)
  }

  function BindingsOf(basePath: Option<string>, routes: seq<RouteConfig>): seq<Binding> {
    seq(|routes|, i requires 0 <= i < |routes| => BindingOf(basePath, routes[i]))
  }

  function BasePathOf(basePaths: map<ControllerId, string>, c: ControllerId): Option<string> {
    if c in basePaths then Some(basePaths[c]) else None
  }

  /** What registering controllers does: whether it completed, the route lists afterwards, and the new bindings. */
  datatype Registration = Registration(ok: bool, routes: map<ControllerId, seq<RouteConfig>>, bindings: seq<Binding>)

  /**
   * `registerController(c)`: a controller without a route list throws before binding anything;
   * otherwise every route gets its schema check and is bound, in list order.
   */
  function RegisterOne(basePaths: map<ControllerId, string>, routes: map<ControllerId, seq<RouteConfig>>, c: ControllerId): (r: Registration)
    ensures r.ok <==> c in routes
    ensures r.ok ==> |r.bindings| == |routes[c]|
    ensures !r.ok ==> r.routes == routes && r.bindings == []
  {
    if c !in routes then Registration(false, routes, [])
    else
      var checked := Checked(routes[c]);
      Registration(true, routes[c := checked], BindingsOf(BasePathOf(basePaths, c), checked))
  }

  /** `registerControllers(...cs)`: one controller after another, stopping at the first that throws. */
  function RegisterAll(basePaths: map<ControllerId, string>, routes: map<ControllerId, seq<RouteConfig>>, cs: seq<ControllerId>): Registration
    decreases |cs|
  {
    if cs == [] then Registration(true, routes, [])
    else
      var one := RegisterOne(basePaths, routes, cs[0]);
      if !one.ok then one
      else
        After(one.bindings, RegisterAll(basePaths, one.routes, cs[1..]))
  }

  /** A registration that follows the bindings `done` already made. */
  function After(done: seq<Binding>, rest: Registration): Registration {
    Registration(rest.ok, rest.routes, done + rest.bindings)
  }

  lemma AfterAssoc(x: seq<Binding>, y: seq<Binding>, r: Registration)
    ensures After(x, After(y, r)) == After(x + y, r)
  {
    assert x + (y + r.bindings) == (x + y) + r.bindings;
  }

  lemma AfterNothing(r: Registration)
    ensures After([], r) == r
  {
    assert [] + r.bindings == r.bindings;
  }

  /**
   * Registering one controller binds each of its routes once, in registry order, at base path
   * + route path, with the schema check as the route's last handler exactly when it has a
   * schema; the stored route gets the same handlers and no other controller's list changes.
   */
  lemma RegisterOneBindsEveryRoute(basePaths: map<ControllerId, string>, routes: map<ControllerId, seq<RouteConfig>>, c: ControllerId)
    ensures var r := RegisterOne(basePaths, routes, c);
            && (r.ok <==> c in routes)
            && (!r.ok ==> r.routes == routes && r.bindings == [])
            && r.routes.Keys == routes.Keys
            && (forall d :: d in routes && d != c ==> r.routes[d] == routes[d])
    ensures c in routes ==>
              var r := RegisterOne(basePaths, routes, c);
              && |r.bindings| == |routes[c]| == |r.routes[c]|
              && forall i :: 0 <= i < |routes[c]| ==>
                   && r.bindings[i].httpMethod == routes[c][i].httpMethod
                   && r.bindings[i].path == FullPath(BasePathOf(basePaths, c), routes[c][i].path)
                   && r.bindings[i].key == routes[c][i].key
                   && r.bindings[i].schema == routes[c][i].schema
                   && r.bindings[i].handlers ==
                        (if routes[c][i].schema.Some? then routes[c][i].handlers + [SchemaCheck(routes[c][i].schema.value)]
                         else routes[c][i].handlers)
                   && r.routes[c][i] == routes[c][i].(handlers := r.bindings[i].handlers)
  {
  }

  /**
   * Registration completes exactly when every controller listed has a route list (the same
   * controllers as before keep one either way); otherwise it stops at the first that has none.
   */
  lemma {:induction false} RegisterAllCompletes(basePaths: map<ControllerId, string>, routes: map<ControllerId, seq<RouteConfig>>, cs: seq<ControllerId>)
    ensures RegisterAll(basePaths, routes, cs).ok <==> forall c :: c in cs ==> c in routes
    decreases |cs|
  {
    if cs != [] {
      var one := RegisterOne(basePaths, routes, cs[0]);
      assert forall c :: c in cs ==> c == cs[0] || c in cs[1..];
      if one.ok {
        RegisterAllCompletes(basePaths, one.routes, cs[1..]);
      }
    }
  }

  /**
   * Registering `cs1 + cs2` registers `cs1` and then, if that completed, `cs2` on the updated
   * registry; the bindings of `cs1` come first.
   */
  lemma {:induction false} RegisterAllConcat(basePaths: map<ControllerId, string>, routes: map<ControllerId, seq<RouteConfig>>, cs1: seq<ControllerId>, cs2: seq<ControllerId>)
    ensures var a := RegisterAll(basePaths, routes, cs1);
            RegisterAll(basePaths, routes, cs1 + cs2) ==
              if !a.ok then a else After(a.bindings, RegisterAll(basePaths, a.routes, cs2))
    decreases |cs1|
  {
    if cs1 == [] {
      assert cs1 + cs2 == cs2;
      AfterNothing(RegisterAll(basePaths, routes, cs2));
    } else {
      assert (cs1 + cs2)[0] == cs1[0];
      assert (cs1 + cs2)[1..] == cs1[1..] + cs2;
      var one := RegisterOne(basePaths, routes, cs1[0]);
      if one.ok {
        RegisterAllConcat(basePaths, one.routes, cs1[1..], cs2);
        var a := RegisterAll(basePaths, one.routes, cs1[1..]);
        if a.ok {
          AfterAssoc(one.bindings, a.bindings, RegisterAll(basePaths, a.routes, cs2));
        }
      }
    }
  }

  /**
   * Registering the same controller twice appends its schema check twice, because the first
   * registration changed the stored route.
   */
  lemma RegisteringTwiceAddsTwoChecks(basePaths: map<ControllerId, string>, routes: map<ControllerId, seq<RouteConfig>>, c: ControllerId, i: nat)
    requires c in routes && i < |routes[c]| && routes[c][i].schema.Some?
    ensures var r := RegisterAll(basePaths, routes, [c, c]);
            var s := routes[c][i].schema.value;
            r.ok && c in r.routes && i < |r.routes[c]| && r.routes[c][i].handlers == routes[c][i].handlers + [SchemaCheck(s), SchemaCheck(s)]
  {
    var one := RegisterOne(basePaths, routes, c);
    assert [c, c][1..] == [c];
    var two := RegisterOne(basePaths, one.routes, c);
    assert RegisterAll(basePaths, one.routes, [c]) == Registration(two.ok, two.routes, two.bindings + []) by {
      assert [c][1..] == [];
    }
  }

  /** An error the request validator reports. */
  datatype ValidationError = ValidationError(param: string, msg: string)

  /**
   * The `reduce` that builds `{ [param]: msg[] }`, as a left fold: each error's message is pushed
   * at the end of its parameter's list, which is created on first sight.
   */
  function Grouped(errs: seq<ValidationError>): (g: map<string, seq<string>>)
    ensures errs == [] ==> g == map[]
    ensures errs != [] ==> var last := errs[|errs| - 1];
              last.param in g && |g[last.param]| > 0 && g[last.param][|g[last.param]| - 1] == last.msg
    decreases |errs|
  {
    if errs == [] then map[]
    else
      var g := Grouped(errs[..|errs| - 1]);
      var last := errs[|errs| - 1];
      g[last.param := (if last.param in g then g[last.param] else []) + [last.msg]]
  }

  /** The parameters that occur in `errs`. */
  function Params(errs: seq<ValidationError>): set<string> {
    set i | 0 <= i < |errs| :: errs[i].param
  }

  /** The messages reported for `p`, in input order (a reference definition, by recursion from the front). */
  function MessagesFor(errs: seq<ValidationError>, p: string): seq<string>
    decreases |errs|
  {
    if errs == [] then []
    else (if errs[0].param == p then [errs[0].msg] else []) + MessagesFor(errs[1..], p)
  }

  /** The parameters of `errs` in order of first occurrence: the key order of the grouped object. */
  function DistinctParams(errs: seq<ValidationError>): seq<string>
    decreases |errs|
  {
    if errs == [] then []
    else
      var d := DistinctParams(errs[..|errs| - 1]);
      if errs[|errs| - 1].param in d then d else d + [errs[|errs| - 1].param]
  }

  /** The number of messages grouped under the keys `ps`. */
  function TotalMessages(g: map<string, seq<string>>, ps: seq<string>): nat
    decreases |ps|
  {
    if ps == [] then 0
    else TotalMessages(g, ps[..|ps| - 1]) + (if ps[|ps| - 1] in g then |g[ps[|ps| - 1]]| else 0)
  }

  predicate NoDuplicates(ps: seq<string>) {
    forall i, j :: 0 <= i < j < |ps| ==> ps[i] != ps[j]
  }

  lemma {:induction false} ParamsSnoc(errs: seq<ValidationError>, x: ValidationError)
    ensures Params(errs + [x]) == Params(errs) + {x.param}
  {
    var e := errs + [x];
    forall p | p in Params(e) ensures p in Params(errs) + {x.param} {
      var i :| 0 <= i < |e| && e[i].param == p;
      if i < |errs| {
        assert errs[i] == e[i];
      }
    }
    forall p | p in Params(errs) ensures p in Params(e) {
      var i :| 0 <= i < |errs| && errs[i].param == p;
      assert e[i] == errs[i];
    }
    assert e[|errs|] == x;
  }

  lemma {:induction false} MessagesForSnoc(errs: seq<ValidationError>, x: ValidationError, p: string)
    ensures MessagesFor(errs + [x], p) == MessagesFor(errs, p) + (if x.param == p then [x.msg] else [])
    decreases |errs|
  {
    if errs == [] {
      assert errs + [x] == [x] && [x][1..] == [];
    } else {
      var head := if errs[0].param == p then [errs[0].msg] else [];
      var tail := if x.param == p then [x.msg] else [];
      assert (errs + [x])[0] == errs[0];
      assert (errs + [x])[1..] == errs[1..] + [x];
      assert MessagesFor(errs + [x], p) == head + MessagesFor(errs[1..] + [x], p);
      MessagesForSnoc(errs[1..], x, p);
      assert head + (MessagesFor(errs[1..], p) + tail) == (head + MessagesFor(errs[1..], p)) + tail;
    }
  }

  /** The grouped object's keys are exactly the parameters that occur in the error list. */
  lemma {:induction false} GroupedKeys(errs: seq<ValidationError>)
    ensures Grouped(errs).Keys == Params(errs)
    decreases |errs|
  {
    if errs != [] {
      var init := errs[..|errs| - 1];
      var last := errs[|errs| - 1];
      assert errs == init + [last];
      GroupedKeys(init);
      ParamsSnoc(init, last);
    }
  }

  /** Under each parameter, the grouped object lists that parameter's messages in input order. */
  lemma {:induction false} GroupedMessages(errs: seq<ValidationError>, p: string)
    requires p in Grouped(errs)
    ensures Grouped(errs)[p] == MessagesFor(errs, p)
    decreases |errs|
  {
    var init := errs[..|errs| - 1];
    var last := errs[|errs| - 1];
    assert errs == init + [last];
    MessagesForSnoc(init, last, p);
    if p in Grouped(init) {
      GroupedMessages(init, p);
    } else {
      GroupedKeys(init);
      MessagesForAbsent(init, p);
    }
  }

  lemma {:induction false} MessagesForAbsent(errs: seq<ValidationError>, p: string)
    requires p !in Params(errs)
    ensures MessagesFor(errs, p) == []
    decreases |errs|
  {
    if errs != [] {
      assert errs[0].param in Params(errs);
      assert Params(errs[1..]) <= Params(errs) by {
        forall q | q in Params(errs[1..]) ensures q in Params(errs) {
          var i :| 0 <= i < |errs[1..]| && errs[1..][i].param == q;
          assert errs[i + 1] == errs[1..][i];
        }
      }
      MessagesForAbsent(errs[1..], p);
    }
  }

  /** The first-occurrence order has each parameter once, and exactly the parameters of the list. */
  lemma {:induction false} DistinctParamsFacts(errs: seq<ValidationError>)
    ensures NoDuplicates(DistinctParams(errs))
    ensures forall p :: p in DistinctParams(errs) <==> p in Params(errs)
    decreases |errs|
  {
    if errs != [] {
      var init := errs[..|errs| - 1];
      var last := errs[|errs| - 1];
      assert errs == init + [last];
      DistinctParamsFacts(init);
      ParamsSnoc(init, last);
    }
  }

  /** Replacing the list under one key changes the total by the difference in length, if the key is listed once. */
  lemma {:induction false} TotalMessagesUpdate(g: map<string, seq<string>>, k: string, v: seq<string>, ps: seq<string>)
    requires NoDuplicates(ps)
    ensures k !in ps ==> TotalMessages(g[k := v], ps) == TotalMessages(g, ps)
    ensures k in ps ==>
              TotalMessages(g[k := v], ps) + (if k in g then |g[k]| else 0) == TotalMessages(g, ps) + |v|
    decreases |ps|
  {
    if ps != [] {
      var init := ps[..|ps| - 1];
      assert ps == init + [ps[|ps| - 1]];
      assert NoDuplicates(init);
      TotalMessagesUpdate(g, k, v, init);
    }
  }

  /** The grouped object holds exactly as many messages as there are errors. */
  lemma {:induction false} GroupedTotal(errs: seq<ValidationError>)
    ensures TotalMessages(Grouped(errs), DistinctParams(errs)) == |errs|
    decreases |errs|
  {
    if errs != [] {
      var init := errs[..|errs| - 1];
      var last := errs[|errs| - 1];
      var g := Grouped(init);
      var d := DistinctParams(init);
      var v := (if last.param in g then g[last.param] else []) + [last.msg];
      GroupedTotal(init);
      DistinctParamsFacts(init);
      GroupedKeys(init);
      TotalMessagesUpdate(g, last.param, v, d);
      if last.param !in d {
        assert (d + [last.param])[..|d|] == d;
        assert DistinctParams(errs) == d + [last.param];
      }
    }
  }

  /** The grouping `reduce`, run step by step over the validator's error array. */
  method GroupByParam(errs: seq<ValidationError>) returns (grouped: map<string, seq<string>>)
    ensures grouped == Grouped(errs)
    ensures grouped.Keys == Params(errs)
    ensures forall p :: p in grouped ==> grouped[p] == MessagesFor(errs, p)
    ensures TotalMessages(grouped, DistinctParams(errs)) == |errs|
  {
    grouped := map[];
    var i := 0;
    while i < |errs|
      invariant 0 <= i <= |errs|
      invariant grouped == Grouped(errs[..i])
    {
      var curr := errs[i];
      if curr.param !in grouped {
        grouped := grouped[curr.param := []];
      }
      grouped := grouped[curr.param := grouped[curr.param] + [curr.msg]];
      assert errs[..i + 1][..i] == errs[..i];
      i := i + 1;
    }
    assert errs[..i] == errs;
    GroupedKeys(errs);
    forall p | p in grouped ensures grouped[p] == MessagesFor(errs, p) {
      GroupedMessages(errs, p);
    }
    GroupedTotal(errs);
  }

  /** What the request wrapper does before the controller method runs. */
  datatype Dispatch = InvokeHandler | Reject(error: ControllerError<map<string, seq<string>>>)

  /**
   * A route with a schema whose validation produced errors throws `ControllerError("Invalid
   * request", 400, grouped errors)` and never reaches the handler; any other request does.
   */
  function Decide(schema: Option<Schema>, errs: seq<ValidationError>): (d: Dispatch)
    ensures d.InvokeHandler? <==> schema.None? || errs == []
    ensures d.Reject? ==> d.error == New("Invalid request", Some(400), Some(Grouped(errs)))
    ensures d.Reject? ==> d.error.errors.value.Keys == Params(errs) && d.error.code == 400
  {
    if schema.Some? && errs != [] then
      GroupedKeys(errs);
      Reject(New("Invalid request", Some(400), Some(Grouped(errs))))
    else InvokeHandler
  }

  /** One step of `registerControllers`: the controller at position `i` is registered, or throws. */
  lemma RegisterAllStep(basePaths: map<ControllerId, string>, routes: map<ControllerId, seq<RouteConfig>>, cs: seq<ControllerId>, i: nat, done: seq<Binding>)
    requires i < |cs|
    ensures var one := RegisterOne(basePaths, routes, cs[i]);
            && (!one.ok ==> one.routes == routes && After(done, RegisterAll(basePaths, routes, cs[i..])) == Registration(false, routes, done))
            && (one.ok ==> After(done, RegisterAll(basePaths, routes, cs[i..])) ==
                           After(done + one.bindings, RegisterAll(basePaths, one.routes, cs[i + 1..])))
  {
    assert cs[i..][0] == cs[i] && cs[i..][1..] == cs[i + 1..];
    var one := RegisterOne(basePaths, routes, cs[i]);
    if one.ok {
      AfterAssoc(done, one.bindings, RegisterAll(basePaths, one.routes, cs[i + 1..]));
    } else {
      assert done + [] == done;
    }
  }

  /** One step of registration: the next route gets its schema check and its binding. */
  lemma RegistrationStep(basePath: Option<string>, routes: seq<RouteConfig>, i: nat)
    requires i < |routes|
    ensures (Checked(routes[..i]) + routes[i..])[i := WithSchemaCheck(routes[i])] == Checked(routes[..i + 1]) + routes[i + 1..]
    ensures BindingsOf(basePath, Checked(routes[..i + 1])) ==
              BindingsOf(basePath, Checked(routes[..i])) + [BindingOf(basePath, WithSchemaCheck(routes[i]))]
  {
    assert Checked(routes[..i + 1]) == Checked(routes[..i]) + [WithSchemaCheck(routes[i])];
  }

  /** The app: the routes bound on the underlying server so far, in binding order. */
  class App {
    var bound: seq<Binding>

    constructor ()
      ensures bound == []
    {
      bound := [];
    }

    /** `registerController(c)`, reading and updating the route registry `store`. */
    method RegisterController(store: MetadataStore, c: ControllerId) returns (ok: bool)
      modifies this, store
      ensures var r := RegisterOne(old(store.basePaths), old(store.routes), c);
              ok == r.ok && store.routes == r.routes && bound == old(bound) + r.bindings
      ensures store.basePaths == old(store.basePaths)
    {
      if c !in store.routes {
        return false;
      }
      var basePath := if c in store.basePaths then Some(store.basePaths[c]) else None;
      var routes := store.routes[c];
      var i := 0;
      assert Checked(routes[..0]) + routes[0..] == routes;
      assert old(store.routes)[c := routes] == old(store.routes);
      while i < |routes|
        invariant 0 <= i <= |routes|
        invariant store.basePaths == old(store.basePaths) && c in old(store.routes) && routes == old(store.routes)[c]
        invariant store.routes == old(store.routes)[c := Checked(routes[..i]) + routes[i..]]
        invariant bound == old(bound) + BindingsOf(basePath, Checked(routes[..i]))
      {
        ghost var current := Checked(routes[..i]) + routes[i..];
        assert current[i] == routes[i];
        var route := store.routes[c][i];
        var handlers := route.handlers;
        if route.schema.Some? {
          handlers := handlers + [SchemaCheck(route.schema.value)];
          store.routes := store.routes[c := store.routes[c][i := route.(handlers := handlers)]];
        } else {
          assert current[i := WithSchemaCheck(routes[i])] == current;
        }
        assert store.routes == old(store.routes)[c := current[i := WithSchemaCheck(routes[i])]];
        bound := bound + [Binding(route.httpMethod, FullPath(basePath, route.path), handlers, route.key, route.schema)];
        RegistrationStep(basePath, routes, i);
        i := i + 1;
      }
      assert routes[..i] == routes;
      assert routes[i..] == [];
      assert Checked(routes[..i]) + routes[i..] == Checked(routes);
      assert RegisterOne(old(store.basePaths), old(store.routes), c) ==
             Registration(true, old(store.routes)[c := Checked(routes)], BindingsOf(basePath, Checked(routes)));
      ok := true;
    }

    /** `registerControllers(...cs)`: the controllers in argument order, stopping at the first that throws. */
    method RegisterControllers(store: MetadataStore, cs: seq<ControllerId>) returns (ok: bool)
      modifies this, store
      ensures var r := RegisterAll(old(store.basePaths), old(store.routes), cs);
              ok == r.ok && store.routes == r.routes && bound == old(bound) + r.bindings
      ensures store.basePaths == old(store.basePaths)
    {
      var i := 0;
      ghost var done: seq<Binding> := [];
      while i < |cs|
        invariant 0 <= i <= |cs|
        invariant store.basePaths == old(store.basePaths)
        invariant bound == old(bound) + done
        invariant RegisterAll(old(store.basePaths), old(store.routes), cs) ==
                  After(done, RegisterAll(store.basePaths, store.routes, cs[i..]))
      {
        ghost var routesBefore := store.routes;
        ghost var one := RegisterOne(store.basePaths, routesBefore, cs[i]);
        RegisterAllStep(store.basePaths, routesBefore, cs, i, done);
        var registered := RegisterController(store, cs[i]);
        if !registered {
          return false;
        }
        done := done + one.bindings;
        i := i + 1;
      }
      assert cs[i..] == [];
      assert done + [] == done;
      ok := true;
    }
  }
}
