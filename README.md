# express-scaffold core, modelled in Dafny

A model of the thin logic in a decorator-driven layer over Express. It covers five parts:

- the **response envelope** (`ControllerResponse`). Its status code is derived from a raw code and the
  `error` / `is_redirect` flags each time it is read. It has a validating constructor, a `code` setter,
  `toJSON`, and four presets: `success`, `error`, `stream` and `redirect`.
- the **error presets** (`ControllerError`).
- the **route registry**, in its two revisions. `src/decorators.ts` normalises the base path to start
  with "/". `src/route.ts`, the revision the app shim imports, stores the base path verbatim. Both
  revisions normalise the route path and append one route configuration per decorated member.
- the **app shim's bookkeeping**. It composes base path + route path. It appends the schema check to a
  route's handlers in the registry. It groups validation errors by parameter. It rejects a request that
  has validation errors before the handler runs. It registers controllers in argument order.

Files:

- `common.dfy`: `Option`, `Result`, and `Opaque`. `Opaque` stands for a JavaScript `any` value and
  records only whether it is truthy.
- `controller_response.dfy`: module `Response`.
- `controller_error.dfy`: module `ControllerErrors`.
- `metadata.dfy`: module `Metadata`. It holds the metadata store that stands in for `reflect-metadata`,
  and the path normalisation both revisions share.
- `decorators.dfy`: module `Decorators`.
- `route.dfy`: module `Route`.
- `express_app.dfy`: module `ExpressApp`.

Things the code does that are easy to miss:

- **State that changes in place is modelled as classes.** These are the envelope, the store, the app,
  and the decorator objects.
- **A decorator object keeps the `path` it was created with and overwrites it on every application.**
  This follows the closure variable in the source. Reusing one decorator object therefore reuses the
  first path (`Metadata.RoutePathReapplied`).
- **The envelope follows the code as written**, not its comments. The error rule of the getter fires when
  the code *is* 4xx/5xx. The setter stores 200 only for an out-of-range value and throws for a valid one.
  The corrected rules are defined and proved beside them (see Findings). The class keeps the as-written
  rules, because that is what the library does.
- **Two places where the code contradicts its own comments or its other revision.** The model follows
  the code each time.
  - The comment at `src/controller-response.ts:97` says an error envelope without a 4xx/5xx code reports
    500. The test on line 98 fires only when the code *is* 4xx/5xx, so an error envelope without a code
    reports 200.
  - `src/decorators.ts:42-44` gives a controller's base path a leading "/". `src/route.ts:40`, the
    revision the app shim imports, stores it verbatim.

## Model

| member | source | states |
|---|---|---|
| `Response.ResolveCode` | src/controller-response.ts:90-110 | the derived status code lies in [200, 600) for every raw code and every flag combination |
| `Response.ErrorRule` | src/controller-response.ts:91-100 | with a truthy error, a 4xx/5xx code (1000 when unset) resolves to 500; any other code resolves as if no error were set |
| `Response.RedirectRule` | src/controller-response.ts:101-104 | once the error rule has not fired, a redirect flag with a non-3xx code gives 302, and a 3xx code is kept |
| `Response.FallbackRule` | src/controller-response.ts:105-109 | when neither rule fires, a code in [200, 600) is returned unchanged and any other gives 200 |
| `Response.ResolveCodeIsFixedPoint` | src/controller-response.ts:90-110 | storing the derived code back as the raw code derives the same code |
| `Response.ResolveCodeIntended` | src/controller-response.ts:97-100 | the corrected getter: a non-redirect error envelope always reports a 4xx/5xx code, keeps a 4xx/5xx code it was given, and gets 500 otherwise |
| `Response.ErrorEnvelopeAsWritten` | src/controller-response.ts:98 | as written, an error envelope without a code reports 200 (success), and one with 404 reports 500; the corrected getter gives 500 and 404 |
| `Response.SetterOutcome` | src/controller-response.ts:112-119 | the setter as written succeeds exactly for a value outside [200, 600) and then stores 200; a valid value throws "Invalid status code" |
| `Response.IntendedSetterOutcome` | src/controller-response.ts:112-119 | the corrected setter succeeds exactly for a value in [200, 600) and stores that value |
| `Response.SetterAsWritten` | src/controller-response.ts:114-118 | `response.code = 500` throws as written, 700 stores 200, and the corrected setter makes a plain envelope report 500 |
| `Response.Clamp` | src/controller-response.ts:158-160 | the presets' clamp keeps a code inside the range and substitutes the fallback otherwise (also used at 196-198) |
| `Response.ControllerResponse.constructor` | src/controller-response.ts:36-78 | a constructed envelope holds the given message, code and payloads, no stream or redirect flags, and empty file and URL fields |
| `Response.ControllerResponse.Create` | src/controller-response.ts:75-77 | construction throws "Invalid status code" exactly when the code is truthy and outside [200, 600); 0 or absent counts as unset |
| `Response.ControllerResponse.Code` | src/controller-response.ts:90-110 | the getter returns a status in [200, 600) whatever the fields hold |
| `Response.ControllerResponse.SetCode` | src/controller-response.ts:112-119 | the setter changes only the raw code: to 200 for an out-of-range value, and not at all when it throws for a valid one; afterwards the getter reports 302 or 200 |
| `Response.ControllerResponse.ToJson` | src/controller-response.ts:125-134 | `success` holds exactly when the derived code is 2xx; `code` is the getter's value; message, data, meta and error are copied |
| `Response.ControllerResponse.Success` | src/controller-response.ts:143-145 | the success preset always stores and reports 200, ignores its code argument, defaults the message to "Success", and sets no error |
| `Response.ControllerResponse.Error` | src/controller-response.ts:157-162 | the error preset stores a code clamped to [400, 600) (default 400) and message "Failed" by default; it reports 500 when errors are truthy and the stored code otherwise, and never reports success |
| `Response.ErrorPresetWithErrorsReports500` | src/controller-response.ts:157-162 | an error preset with truthy errors reports 500 for every code argument |
| `Response.ControllerResponse.Stream` | src/controller-response.ts:177-183 | the stream preset sets the stream flag, the file name, and the file type (octet-stream when falsy), stores code 200, and reports 200 |
| `Response.ControllerResponse.Redirect` | src/controller-response.ts:194-203 | the redirect preset stores a code clamped to [300, 400) (default 302), sets the redirect flag and URL and the message "Redirecting", and reports exactly that 3xx code |
| `ControllerErrors.New` | src/controller-error.ts:4-8 | the constructor stores message and errors verbatim and defaults the code to 400 |
| `ControllerErrors.NoRangeCheck` | src/controller-error.ts:4-8 | any explicit code is stored unchanged, whether or not it is a valid status |
| `ControllerErrors.BadRequest` | src/controller-error.ts:20-22 | code 400, message "Bad Request" by default, errors passed through |
| `ControllerErrors.Unauthorized` | src/controller-error.ts:24-26 | code 401, message "Unauthorized" by default, no errors |
| `ControllerErrors.Forbidden` | src/controller-error.ts:28-30 | code 403, message "Forbidden" by default, no errors |
| `ControllerErrors.NotFound` | src/controller-error.ts:32-34 | code 404, message "Not Found" by default, no errors |
| `ControllerErrors.Error` | src/controller-error.ts:36-38 | code 400, message "Something went wrong" by default, no errors |
| `ControllerErrors.PresetsAreClientErrors` | src/controller-error.ts:20-38 | every preset carries a 4xx code; with an explicit message, `error` is `badRequest` without details, and the two differ by default message only |
| `Metadata.WithLeadingSlash` | src/decorators.ts:42-44 | the result starts with "/", and is the input itself when it already did and "/" + input otherwise |
| `Metadata.WithLeadingSlashIdempotent` | src/decorators.ts:42-44 | normalising twice gives the same path as normalising once |
| `Metadata.RoutePath` | src/decorators.ts:61-67 | the route path is the given path, or the member name when the path is undefined or empty, with a leading "/" added only when missing |
| `Metadata.RoutePathReapplied` | src/route.ts:54-60 | a decorator object applied again starts from the path its first application stored and stores it again, whatever member it decorates |
| `Metadata.MetadataStore.RoutesOrEmpty` | src/decorators.ts:60 | the route list read back is the stored list, or the empty list when the controller has none yet |
| `Metadata.MetadataStore.DefineBasePath` | src/decorators.ts:45 | defining a base path sets that controller's base path and changes nothing else |
| `Metadata.MetadataStore.DefineRoutes` | src/decorators.ts:76 | defining a route list replaces that controller's list and changes nothing else |
| `Decorators.BasePath` | src/decorators.ts:39-44 | the base path is the path given (the class name when undefined), with a leading "/" added only when missing, so it always starts with "/" |
| `Decorators.BasePathStable` | src/decorators.ts:37-45 | normalising a stored base path again does not change it, so a reused decorator object stores the same base path |
| `Decorators.ControllerDecorator.Apply` | src/decorators.ts:38-47 | applying a controller decorator records that base path for the class, overwrites the captured path with it, leaves the route lists alone, and returns the class |
| `Decorators.ControllerDecorator.constructor` | src/decorators.ts:37-38 | a class decorator starts with the path given to `Controller(path)`, undefined when none is given |
| `Decorators.RouteDecorator.constructor` | src/decorators.ts:52-57 | a route decorator carries the factory's method, the path and schema as given, and the handlers (empty when not given) |
| `Decorators.RouteDecorator.Apply` | src/decorators.ts:58-78 | applying a route decorator appends exactly one configuration at the end of the controller's list, after all earlier entries, duplicates included; it holds the normalised path, the method, the handlers, the member name and the schema; base paths are left alone and the descriptor is returned |
| `Decorators.ExportsCoverEveryMethod` | src/decorators.ts:88-141 | there is a route decorator for each of the eight methods, and `Route` names the same as `Get` |
| `Decorators.DuplicateRoutesKept` | example/index.ts:13-31 | two `Get('/error')` decorations on one controller are both kept, in declaration order |
| `Route.BasePath` | src/route.ts:38-41 | the base path is the path given if defined, else the class name, else the empty string, with no "/" added |
| `Route.RevisionsDifferOnlyBySlash` | src/route.ts:35-42 | the normalising revision stores this revision's base path with a "/" added when missing, so the two agree exactly when the path already starts with "/" |
| `Route.BasePathWithoutSlash` | src/route.ts:40 | `Controller()` on class `ExampleController` stores "ExampleController" with no leading "/", where the normalising revision stores "/ExampleController" |
| `Route.ControllerDecorator.Apply` | src/route.ts:36-42 | applying a controller decorator records the verbatim base path for the class, overwrites the captured path with it, and leaves the route lists alone |
| `Route.ControllerDecorator.constructor` | src/route.ts:35-36 | a class decorator starts with the path given to `Controller(path)`, undefined when none is given |
| `Route.RouteDecorator.constructor` | src/route.ts:46-50 | a route decorator carries the factory's method, the path and schema as given, and the handlers (empty when not given) |
| `Route.RouteDecorator.Apply` | src/route.ts:51-70 | applying a route decorator appends exactly one configuration at the end of the controller's list, after all earlier entries; it holds the normalised path, the method, the handlers, the member name and the schema |
| `Route.ExportedMethods` | src/route.ts:74-82 | the exported route decorators cover every method except options and head, and `Route` names the same as `Get` |
| `ExpressApp.FullPath` | src/express-app.ts:27 | the bound path is the base path followed by the route path; an undefined base path becomes the text "undefined" |
| `ExpressApp.FullPathStartsWithSlash` | src/express-app.ts:27 | a base path starting with "/" gives a full path starting with "/" |
| `ExpressApp.RegisterOne` | src/express-app.ts:21-79 | registering one controller completes exactly when it has a route list, and then binds one route per configuration; without a list it binds nothing and leaves the registry unchanged |
| `ExpressApp.RegisterAllCompletes` | src/express-app.ts:80-84 | `RegisterAll`, the specification of `registerControllers`, completes exactly when every controller listed has a route list |
| `ExpressApp.RegisterOneBindsEveryRoute` | src/express-app.ts:21-79 | a controller without a route list binds nothing and changes nothing; otherwise each route is bound once, in registry order, at base path + route path, with its method, key and schema; exactly when it has a schema, one schema check is appended at the end of its handlers both in the binding and in the stored route; other controllers are unchanged |
| `ExpressApp.RegisterAllConcat` | src/express-app.ts:80-84 | registering `cs1 + cs2` registers `cs1` first and then `cs2` on the updated registry, with the bindings of `cs1` first; after a failure nothing more is registered |
| `ExpressApp.RegisteringTwiceAddsTwoChecks` | src/express-app.ts:28-30 | registering a controller twice appends its schema check twice, because the first registration changed the stored route |
| `ExpressApp.Grouped` | src/express-app.ts:39-45 | the fold of no errors is the empty object; after any error, that error's parameter is a key and its message is the last in that parameter's list |
| `ExpressApp.GroupedKeys` | src/express-app.ts:39-45 | the grouped object's keys are exactly the parameters that occur in the error list |
| `ExpressApp.GroupedMessages` | src/express-app.ts:39-45 | under each parameter, the grouped object lists exactly that parameter's messages in input order |
| `ExpressApp.GroupedTotal` | src/express-app.ts:39-45 | the grouped object holds as many messages as there are errors |
| `ExpressApp.GroupByParam` | src/express-app.ts:39-45 | the step-by-step `reduce` computes that grouping, with its keys, per-parameter order and total |
| `ExpressApp.Decide` | src/express-app.ts:33-49 | the handler runs exactly when the route has no schema or validation found no errors; otherwise a `ControllerError` "Invalid request" with code 400 and the grouped errors is thrown first |
| `ExpressApp.App.RegisterController` | src/express-app.ts:21-79 | after `registerController`, the store's route lists and the bound routes are those the registration specification gives, and base paths are unchanged |
| `ExpressApp.App.RegisterControllers` | src/express-app.ts:80-84 | after `registerControllers`, controllers are registered in argument order up to the first that throws, as the specification gives |

## Findings

| source | as written | input that shows it | evidently intended | confidence | as-written member | corrected member |
|---|---|---|---|---|---|---|
| src/controller-response.ts:98 | the error test `!(tmp < 400 or tmp >= 600)` fires when the code is 4xx/5xx, and then returns 500 | an envelope with `error` set and no code reports 200 and `success: true`; `error(["x"], 404)` reports 500 | 500 when an error envelope's code is not 4xx/5xx, as the comment on line 97 says | high; not executed | `Response.ErrorEnvelopeAsWritten` | `Response.ResolveCodeIntended` |
| src/controller-response.ts:114-118 | an out-of-range value stores 200, and a valid value throws | `response.code = 500` (example/index.ts:17) throws "Invalid status code" | store a valid code and throw on an out-of-range one, as the comment on line 113 says | high; not executed | `Response.SetterAsWritten` | `Response.IntendedSetterOutcome` |
| src/route.ts:40 | the base path is stored verbatim | `Controller()` with no argument on class `ExampleController` stores "ExampleController" (line 40), so a route "/error" is bound at `${basePath}${path}` = "ExampleController/error" (`src/express-app.ts:27`), a path with no leading "/" | a leading "/" as `src/decorators.ts:42-44` adds | medium; not executed | `Route.BasePathWithoutSlash` | `Decorators.BasePath` |

The envelope class `Response.ControllerResponse` keeps the as-written getter and setter, because the
library behaves that way; the corrected definitions are not wired into it.

## Left out

- Express binding and request serving are server I/O, so the underlying server is a list of bindings and
  nothing more. This covers `expressApp[method](...)`, `registerMiddleware`, `registerRoute`, `res.status`,
  `res.json`, `res.send`, `res.setHeader`, `start`, `listen`, `on("error")`, `listRoutes`, and the console
  output.
- After the handler returns, the response writing is not modelled. The stream branch tests
  `has_downloadable_data`, which the envelope does not define. The catch path, and `ControllerError.toJSON`,
  call `ControllerResponse.withError`, which does not exist either, so there is no behaviour to state.
- `new controller()` (`src/express-app.ts:24`) runs the controller's constructor synchronously during
  registration, before any route is bound. A constructor that throws aborts `registerController`, and
  through `forEach` it stops `registerControllers` as well. The model does not represent controller
  constructors: `ExpressApp.RegisterOne` and `ExpressApp.RegisterAll` fail only on a missing route list.
  The call of the controller method at request time is left out too; the binding records the member
  name that the final wrapper invokes.
- `express-validator` is a foreign library. `checkSchema(schema)` is represented by the handler token
  `SchemaCheck(schema)`, and the result of `validationResult` is the error list passed to
  `ExpressApp.Decide`.
- `reflect-metadata` looks metadata up along the prototype chain. The store is a plain map per controller
  identity, so metadata inherited by a subclass, and the route array it would share with its parent, are
  not modelled.
- `Decorators.RouteDecorator.Apply`: handler lists are values. In JavaScript, one decorator object applied to
  two members gives two configurations that share one `handlers` array. Registration then pushes that
  route's schema check into the shared array twice. The model appends one check per configuration.
- `ExpressApp.GroupByParam`: the grouping is a map from parameter to message list. Keys that a JavaScript
  object inherits from `Object.prototype` (such as "constructor") are not modelled; for these the source's
  `push` fails. The ascending order JavaScript gives to integer-like keys is not modelled either.
- `Response.ResolveCode`: status codes are integers. `NaN`, fractional codes and non-number values are not
  modelled.
- `Object.setPrototypeOf` is runtime plumbing with no behaviour to state.
- `src/index.ts` only re-exports, plus two constants, and is not part of this model.
