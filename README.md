# zod-http-schemas in Dafny

A model of the contract layer of zod-http-schemas: one HTTP schema shared by an Express server and
an axios client. The model covers these parts.

- **Schema construction.** There are two forms.
  - `createHttpSchema` takes an object keyed by `"METHOD PATH"`. It splits each key and checks the
    method against GET, POST, PUT, PATCH and DELETE. It derives `namedParams` from the path, where a `*`
    that does not follow a `:name` counts as a positional parameter (after `:id`, the rewritten `*` is
    that named parameter's pattern, and an escaped `\*` is literal text). It rejects optional and repeating parameters and fills in
    default body shapes.
  - The older array form `httpSchema` rejects duplicate method/path pairs. It also rejects paths whose
    parsed parameters do not match the declared `paramNames`.
- **Server dispatch.** There are two variants, `decorateExpressRouter` and `decorateExpressServer`.
  Registering handlers for a schema route does the following:
  - looks up the one matching schema route;
  - in the router variant, flattens nested handler arrays;
  - installs a chain on the Express router: an optional request-property check, then a
    parameter/body validation middleware, then each user handler wrapped so that its throws and
    rejections reach `next(err)`.

  The validation middleware does three things:
  - it forwards parameter mismatches to `next`;
  - it answers an invalid body with a 400, or hands it to a callback;
  - it replaces `req.body` with the cleaned body and patches `res.json`/`jsonp`/`send` to validate
    outgoing bodies.
- **`createRequestHandler`.** It resolves its overloads and can wrap a handler in a request-property
  check.
- **The client.** Its entry points are `get`, `post` and `put`. It sets the transport defaults,
  rewrites each `*` of the compiled URL from left to right with a running counter, and settles the
  call on the reply status.

Files:
- `wrappers.dfy` and `json.dfy` hold the value and error vocabulary.
- `shapes.dfy` holds the abstract validation engine.
- `strings.dfy` and `methods.dfy` hold the string helpers and methods.
- `path_pattern.dfy` holds a concrete model of the path-to-regexp `parse` tokens the schema code reads.
- `keyed_schema.dfy` models `createHttpSchema` and `array_schema.dfy` models `httpSchema`.
- `express.dfy` models the host behaviour the dispatchers rely on:
  - the request and response as classes;
  - the patched emitters;
  - a route's middleware chain, run to its verdict;
  - the router as a class.
- `contract.dfy` holds what both server variants share.
- `router_dispatch.dfy` and `server_dispatch.dfy` model the two server variants.
- `request_handler.dfy` models `createRequestHandler` and `http_client.dfy` models the client.

Behaviours worth knowing, each as the code has it:
- Wildcard values are inserted into the URL as they are, without URL-encoding
  (`HttpClient.VerbatimReplacement`).
- Both server variants register on the given router, although the comments at
  src/server/decorate-express-router.ts:32 and :40 say it is left unchanged
  (`RouterDispatch.DecoratedRouter.constructor`, `ServerDispatch.DecoratedServer.constructor`).
- Only `decorateExpressServer` rejects non-string parameter values; `decorateExpressRouter` does not.
- A handler wrapped by `createRequestHandler` with `requestProps` loses its rejection, although the
  comment at src/server/decorate-express-router.ts:64-65 says every error of a route handler reaches
  the error middleware (see Findings).
- An array schema's parameter names are compared by length and membership, so `/:a/:a` declared as
  `["a", "b"]` is accepted (`ArraySchema.RepeatedNameAccepted`). An unnamed group never matches any
  declared name (`ArraySchema.UnnamedGroupRejected`).
- The request-property checks see the whole request object: its parameters, its body and its other
  properties (`Express.RequestObject`).
- Four more details:
  - `createHttpSchema` defaults both body shapes to accept-anything;
  - the servers check an absent request shape against the empty object;
  - a status of 400 or more is always an error;
  - the file versions disagree on field names (`paramNames`/`requestPayload` against
    `namedParams`/`requestBody`), and each module reads the fields its own file reads.

## Model

| member | source | states |
|---|---|---|
| Methods.FromName | src/shared/methods.ts:2 | a name is recognised exactly when it is one of GET, POST, PUT, PATCH, DELETE, and it is recognised as the method of that name |
| Methods.NameRoundTrip | src/shared/methods.ts:2 | every method is recognised from its own name; no name is empty or holds a space |
| Methods.NameInjective | src/shared/methods.ts:2 | different methods have different names |
| Strings.SplitLength | src/shared/create-http-schema.ts:21-22 | `split(' ')` gives one more part than the key has spaces |
| Strings.SplitTwo | src/shared/create-http-schema.ts:21-26 | splitting two space-free halves joined by one space gives back the two halves |
| Strings.NatToStringInjective | src/shared/create-http-schema.ts:39 | distinct numbers print as distinct decimal strings |
| PathPattern.KeysMeaning | src/shared/create-http-schema.ts:34-36 | the filter keeps exactly the key tokens: a token survives iff it is a key, and one entry survives per key token |
| PathPattern.KeysAppend | src/shared/create-http-schema.ts:34-36 | the filter of a concatenation is the concatenation of the filters, so key order is kept |
| PathPattern.NoStarsUnchanged | src/shared/create-http-schema.ts:35 | the `*` rewrite leaves a path without `*` unchanged |
| PathPattern.WildcardKeys | src/shared/create-http-schema.ts:33-36 | in a plain path with `*` rewritten to `(.*)`, the keys are unnamed, counted from the given index, one per `*`, none optional or repeating |
| PathPattern.StarGroupParse | src/shared/create-http-schema.ts:33-36 | the `(.*)` group a `*` is rewritten to parses as one unnamed key with the next index, followed by the keys of the rest |
| PathPattern.PlainPrefixKeys | src/shared/create-http-schema.ts:34-36 | plain text in front of a path adds no keys |
| PathPattern.TrailingKey | src/shared/create-http-schema.ts:34-36 | `:name` alone parses to one named key that is neither optional nor repeating |
| PathPattern.ModifiedKeyParse | src/shared/create-http-schema.ts:34-37 | `:name` followed by `?`, `+` or `*` parses to one key with the flags that modifier sets |
| KeyedSchema.ParamNames | src/shared/create-http-schema.ts:37-39 | fails exactly when some key is optional or repeating; otherwise gives the keys' names in order, numbers in decimal |
| KeyedSchema.RouteInfoForMeaning | src/shared/create-http-schema.ts:21-45 | a key is refused as malformed exactly when it does not hold exactly one space; an accepted key's method and path rejoin to the key; absent body shapes become accept-anything |
| KeyedSchema.SplitJoin | src/shared/create-http-schema.ts:21-26 | a key that splits into two parts is those parts joined by a space |
| KeyedSchema.CreateHttpSchema | src/shared/create-http-schema.ts:13-56 | succeeds exactly when every key is accepted; then the schema has exactly the input keys, each holding its own route info; otherwise the error is that of the first bad key, and all keys before it were accepted |
| KeyedSchema.RouteKeyRoundTrip | src/shared/create-http-schema.ts:21-53 | `Name(m) + " " + path` is accepted exactly when the path's parameters are; the entry then holds `m`, the path, the parameter names and the default shapes |
| KeyedSchema.UnsupportedMethodRejected | src/shared/create-http-schema.ts:27-30 | with one space and an unknown first half, the key is refused with that half |
| KeyedSchema.UnsupportedParamRejected | src/shared/create-http-schema.ts:37-38 | a well-formed key is refused for its parameters exactly when a parsed key is optional or repeating |
| KeyedSchema.WildcardNamedParams | src/shared/create-http-schema.ts:33-39 | a plain path's parameters are "0", "1", …, one per `*`, from the left |
| KeyedSchema.WildcardRoute | src/shared/create-http-schema.ts:33-39 | example: `GET *` is accepted with parameters `["0"]` |
| KeyedSchema.TrailingNamedParam | src/shared/create-http-schema.ts:34-39 | plain text followed by `:name` has exactly the parameter `name` |
| KeyedSchema.TrailingPathKeys | src/shared/create-http-schema.ts:34-39 | plain text followed by `:name` parses to the single required, non-repeating key `name` |
| KeyedSchema.GreetRoute | src/shared/create-http-schema.ts:34-39 | example: `/greet/:name` has the parameter `name` |
| KeyedSchema.ModifiedParamRejected | src/shared/create-http-schema.ts:37-38 | a `?` or `+` after a named parameter makes the path unsupported |
| KeyedSchema.OptionalParamRejected | src/shared/create-http-schema.ts:37-38 | example: `/:id?` and `/:id+` are refused |
| ArraySchema.HttpSchema | src/http-schema.ts:11-34 | returns the schema unchanged exactly when no route repeats an earlier method/path pair or mismatches its parameters; otherwise the error is that of the first failing route |
| ArraySchema.ComboInjective | src/http-schema.ts:17 | the combination string determines method and path |
| ArraySchema.DuplicateIff | src/http-schema.ts:16-21 | a route is reported as a duplicate exactly when an earlier route has its method and path |
| ArraySchema.DuplicateRejected | src/http-schema.ts:16-21 | two routes with one method and path make the schema fail |
| ArraySchema.LengthMismatchRejected | src/http-schema.ts:27-31 | direct consequence of the name comparison: a different number of declared and parsed names fails |
| ArraySchema.MissingNameRejected | src/http-schema.ts:28-31 | direct consequence of the name comparison: a parsed name not among the declared names fails |
| ArraySchema.UnnamedGroupRejected | src/http-schema.ts:24-28 | an unnamed group fails, since its number never equals a declared string |
| ArraySchema.PermutationAccepted | src/http-schema.ts:26-28 | any rearrangement of the parsed names is accepted |
| ArraySchema.RepeatedNameAccepted | src/http-schema.ts:27-28 | `[a, a]` parsed against `[a, b]` declared is accepted although the multisets differ |
| ArraySchema.SingleParamRoute | src/http-schema.ts:24-31 | plain text then `:name` passes exactly when `[name]` is declared |
| ArraySchema.AbsentNamesMeansNone | src/http-schema.ts:26 | direct consequence of the name comparison: without `paramNames` only a path without parameters passes |
| Express.ThroughWrappers | src/server/decorate-express-router.ts:153-158 | with no patches a body passes unchanged; every failure is the validation error |
| Express.RunChain | src/server/decorate-express-router.ts:82 | at most all middlewares run; falling through means all ran; a non-empty chain runs at least one |
| Express.RunAppend | src/server/decorate-express-router.ts:82 | running two chains joined is running the first, then the second only if the first falls through |
| Express.FirstDecides | src/server/decorate-express-router.ts:82 | a first middleware that does not call `next()` decides alone |
| Express.ParamsObjectKeys | src/server/decorate-express-router.ts:104-108 | the `params` of the request object the property check sees has exactly the parameter names as keys |
| Express.ParamsObjectValue | src/server/decorate-express-router.ts:104-108 | under each name it holds the value of the last parameter of that name |
| Express.Request.SetBody | src/server/decorate-express-router.ts:142 | only the body changes, to the given value |
| Express.Response.Patch | src/server/decorate-express-router.ts:153-158 | only the patch list changes: the route's response shape is added as newest |
| Express.Response.Perform | src/server/decorate-express-router.ts:153-158 | a call that succeeds leaves the response it computes; one that throws changes nothing and reports the error |
| Express.Response.PerformAll | src/server/decorate-express-router.ts:145 | runs the calls in order up to the first that throws, as `RunEffects` states |
| Express.Router.constructor | src/server/decorate-express-router.ts:41 | a new router has no routes |
| Express.Router.Register | src/server/decorate-express-router.ts:82 | appends one registration and changes nothing else |
| Contract.DefaultBodyShapes | src/server/decorate-express-router.ts:142-169 | without `requestBody` only objects pass, and they are cleaned to `{}`; without `responseBody` only `undefined` passes |
| Contract.MatchingEmpty | src/server/decorate-express-router.ts:54 | the filter is empty exactly when no route matches |
| Contract.MatchingSeveral | src/server/decorate-express-router.ts:54 | the filter has two or more routes exactly when two positions match |
| Contract.MatchingOne | src/server/decorate-express-router.ts:54 | a single filtered route is the route at the only matching position |
| Contract.LookupFound | src/server/decorate-express-router.ts:54-59 | lookup succeeds exactly when one position matches, and it gives that route |
| Contract.LookupNoRoute | src/server/decorate-express-router.ts:56-58 | "no route" exactly when nothing matches |
| Contract.LookupMultiple | src/server/decorate-express-router.ts:56-58 | "multiple routes" exactly when two positions match |
| Contract.Without | src/server/decorate-express-router.ts:126-127 | holds exactly the names of the first list that the second lacks |
| Contract.NamesAgree | src/server/decorate-express-router.ts:124-128 | nothing is missing and nothing is in excess exactly when both lists hold the same names |
| Contract.PropagatingStep | src/server/decorate-express-router.ts:66-75 | the wrapper never throws and never rejects |
| Contract.PropagatingForwards | src/server/decorate-express-router.ts:66-75 | a throw or rejection of the handler becomes `next(err)` with that error; any other ending and all response effects are kept |
| Contract.NewestPatchFirst | src/server/decorate-express-router.ts:153-158 | the newest patch validates first and passes its cleaned value on |
| Contract.PatchedJson | src/server/decorate-express-router.ts:155-156 | patched `json`/`jsonp` write the cleaned body when it conforms and throw otherwise |
| Contract.PatchedSend | src/server/decorate-express-router.ts:157 | patched `send` writes a string unvalidated and handles anything else as `json` |
| RouterDispatch.FlatDeepLeaves | src/server/decorate-express-router.ts:175-177 | `flatDeep` gives exactly the leaf handlers, left to right |
| RouterDispatch.FlatFoldLeaves | src/server/decorate-express-router.ts:176 | the reduce appends the leaves to its accumulator |
| RouterDispatch.FlatListUnchanged | src/server/decorate-express-router.ts:62-177 | a list with no nested arrays is unchanged |
| RouterDispatch.LeavesOfLeafs | src/server/decorate-express-router.ts:62 | the leaves of a flat list are the list |
| RouterDispatch.ChainShape | src/server/decorate-express-router.ts:62-82 | the chain is the property check (default accept-anything), the body check, then every leaf handler wrapped, in order |
| RouterDispatch.PropCheckRejects | src/server/decorate-express-router.ts:80-109 | a request failing the property check raises the validation error after one middleware |
| RouterDispatch.ParamMismatchForwarded | src/server/decorate-express-router.ts:124-133 | a name mismatch raises the error with the quoted Missing/Excess message after two middlewares, with request and response unchanged |
| RouterDispatch.InvalidBodyDefault | src/server/decorate-express-router.ts:114-147 | with the default callback an invalid body stops the chain with a 400 and the fixed text sent; no handler runs |
| RouterDispatch.InvalidBodyCallback | src/server/decorate-express-router.ts:139-147 | with a callback that does not call `next()`, no handler runs and the response is what the callback made |
| RouterDispatch.ValidRequestContinues | src/server/decorate-express-router.ts:139-161 | a conforming request continues into the wrapped handlers with the cleaned body and patched emitters |
| RouterDispatch.DecoratedRouter.constructor | src/server/decorate-express-router.ts:41 | the given router is the one used; without one a fresh, empty router is made |
| RouterDispatch.DecoratedRouter.Handle | src/server/decorate-express-router.ts:51-83 | a failed lookup throws its error and registers nothing; otherwise exactly one registration of the route's chain is appended |
| RouterDispatch.DecoratedRouter.Get | src/server/decorate-express-router.ts:45 | `Handle` for GET |
| RouterDispatch.DecoratedRouter.Post | src/server/decorate-express-router.ts:46 | `Handle` for POST |
| RouterDispatch.ValidateBodies | src/server/decorate-express-router.ts:118-162 | on live request/response objects, does what `BodyValidationStep` states |
| ServerDispatch.NonStringNames | src/decorate-express-server.ts:92 | holds exactly the names of the parameters whose value is not a string |
| ServerDispatch.NonStringNamesOfObject | src/decorate-express-server.ts:92 | with distinct parameter names, the reported names are exactly those whose value in the `req.params` object is not a string |
| ServerDispatch.ParamsConformIff | src/decorate-express-server.ts:88-93 | parameters pass exactly when they hold the declared names and every value is a string |
| ServerDispatch.ParamMismatchForwarded | src/decorate-express-server.ts:88-99 | a failing check raises the error with the comma-joined Missing/Excess/Non-string message before any handler, with nothing changed |
| ServerDispatch.InvalidBodyRejected | src/decorate-express-server.ts:103-111 | an invalid body stops the chain with a 400 and the fixed text; `next` is not called |
| ServerDispatch.ValidRequestContinues | src/decorate-express-server.ts:103-125 | a conforming request continues into the wrapped handlers with the cleaned body and patched emitters |
| ServerDispatch.DecoratedServer.constructor | src/decorate-express-server.ts:25 | registrations go to the given router itself |
| ServerDispatch.DecoratedServer.Handle | src/decorate-express-server.ts:34-62 | a failed lookup throws and registers nothing; otherwise one registration of the body check followed by the wrapped handlers is appended |
| ServerDispatch.DecoratedServer.Get | src/decorate-express-server.ts:28 | `Handle` for GET |
| ServerDispatch.DecoratedServer.Post | src/decorate-express-server.ts:29 | `Handle` for POST |
| ServerDispatch.ValidateAndCleanBodies | src/decorate-express-server.ts:82-126 | on live request/response objects, does what `BodyValidationStep` states |
| RequestHandler.PositionalReturnsHandler | src/server/create-request-handler.ts:48-55 | the positional form returns its handler itself |
| RequestHandler.OptionsWithoutProps | src/server/create-request-handler.ts:48-55 | the options form without `requestProps` returns `options.handler` itself |
| RequestHandler.OptionsWithProps | src/server/create-request-handler.ts:58-71 | with `requestProps`, a request object that does not conform throws without calling the handler; a conforming one gets the handler's response calls and ending, except that a rejection becomes a plain return |
| RequestHandler.IntendedOptionsWithProps | src/server/create-request-handler.ts:58-71 | with the wrapper returning the handler's result, a conforming request gets exactly the handler's behaviour |
| RequestHandler.IntendedDiffersOnlyInRejection | src/server/create-request-handler.ts:58-63 | run on the same response, the code as written and the intended wrapper make the same calls and leave the same response; their endings differ only where the intended one rejects (a returned rejection, or an error an async handler's response call throws), and there the one as written returns |
| RequestHandler.MissingHandlerThrows | src/server/create-request-handler.ts:48-62 | with `requestProps` and no handler, a conforming request throws the calling-undefined error |
| RequestHandler.DroppedRejection | src/server/create-request-handler.ts:58-63 | behind the error-propagating wrapper, any run of the wrapped handler that rejects (its returned promise, or a throwing response call of an async handler) ends as a plain return, while the unwrapped handler's error reaches `next(err)` |
| RequestHandler.DroppedRefusedResponse | src/server/create-request-handler.ts:58-63 | example: an async handler whose `res.json` body is refused by the route's response shape loses the validation error behind the guard, while unguarded it reaches `next(err)` |
| RequestHandler.RejectionPropagates | src/server/create-request-handler.ts:58-63 | with the intended wrapper, any such rejection reaches `next(err)` |
| HttpClient.VerbMethods | src/client/create-http-client.ts:18-21 | `get`, `post`, `put` send GET, POST, PUT, and no two send the same method |
| HttpClient.ClientDefaults | src/client/create-http-client.ts:11-15 | the base URL passes through; the timeout defaults to 0 and credentials to false; given values win |
| HttpClient.SubstituteWildcards | src/client/create-http-client.ts:33-34 | the one-pass rewrite with a counter gives `Substituted(compiled, info, 0)` |
| HttpClient.NoWildcardUnchanged | src/client/create-http-client.ts:34 | a URL without `*` is unchanged |
| HttpClient.PlainPrefix | src/client/create-http-client.ts:34 | a `*`-free prefix is copied in front of the rewrite of the rest |
| HttpClient.WildcardsInOrder | src/client/create-http-client.ts:33-34 | with object `params`, the j-th `*` from the left becomes `String(params[j])` |
| HttpClient.StarFromObject | src/client/create-http-client.ts:33-34 | with object `params`, a leading `*` becomes `String(params[k])` and the counter moves to `k + 1` for the rest |
| HttpClient.VerbatimReplacement | src/client/create-http-client.ts:34 | example: a value holding `*` is inserted as it is and not rewritten again |
| HttpClient.AbsentInfoWildcard | src/client/create-http-client.ts:34 | without `info`, a `*` becomes "undefined" |
| HttpClient.AbsentParamsThrows | src/client/create-http-client.ts:34 | with `info` but no `params`, a URL with `*` throws |
| HttpClient.Settle | src/client/create-http-client.ts:41-46 | succeeds exactly when the status is below 400, with the reply data unchanged |
| HttpClient.SettleErrorNamesStatus | src/client/create-http-client.ts:41-43 | for the same status text, two failing statuses give the same error exactly when they are equal |
| HttpClient.Request | src/client/create-http-client.ts:27-47 | compile, rewrite, send and settle, with the first error winning, as `RequestOutcome` states |
| HttpClient.PlainRequest | src/client/create-http-client.ts:27-47 | a wildcard-free URL is sent as compiled; the result is the reply data below 400 and an error from 400 |

## Left out

- Express itself is modelled only as far as the library relies on it: a chain run to its verdict, the
  response emitters and the router's list of registrations. Its path matching, its error middleware
  and its rendering of thrown errors are not part of this model.
- The decorated router also copies the wrapped router's other properties and forwards requests to
  it. This object plumbing has no behaviour of the library's own, so only `get`/`post` are modelled.
- path-to-regexp is foreign code.
  - Its `parse` is modelled explicitly for the token fields the schema code reads: name, optional and
    repeat.
  - Custom parameter patterns, path prefixes and delimiters are not modelled.
  - Text that does not form a key, such as an unclosed group, is read as literal text, as the
    regular-expression based `parse` of these versions does.
  - Its `compile` is a parameter of the client.
- The axios transport is a parameter. The model does not fix axios's own default of rejecting non-2xx
  replies; the status check applies to whatever replies the transport resolves with.
- rtti and zod are foreign code. A shape is a validity predicate and a cleaning function. The only
  concrete shapes are accept-anything, `undefined` and the empty object. The empty-object shape
  accepting exactly the objects (so not arrays) and cleaning them to `{}` is an assumption about
  rtti's `t.object({})`, whose source is not part of this model.
- Asynchrony is modelled only this far.
  - A handler's behaviour is its list of response calls followed by how it ends: `next()`,
    `next(err)`, a throw, a rejection or a plain return. It also says what becomes of an error one of
    its response calls throws (`Express.ThrownAs`): a throw for a synchronous handler, a rejection for
    an async one, and lost for the guard `createRequestHandler` builds around an async handler.
  - Work after an `await` is not modelled, and neither is interleaving across requests.
- Numbers are integers. `String()` of a fractional number is not modelled.
- Reading a property of `null` raises the same error as reading one of `undefined`.
- `createHttpRoute`, the re-exports and the typing helpers are compile-time only and have no runtime
  behaviour. The second `createHttpClient` is not modelled because it repeats the status check of the
  one modelled here. The
  client's schema argument matters only for typing.
- KeyedSchema.CreateHttpSchema: requires distinct keys, because the input is a JavaScript object,
  which cannot hold one key twice.

## Findings

| source | as written | input that shows it | evidently intended | confidence | as-written member | corrected member |
|---|---|---|---|---|---|---|
| src/server/create-request-handler.ts:58-63 | the property-checking wrapper calls `h(req, res, next)` and does not return its result | the options form with `requestProps`, a conforming request, and an async handler that rejects, or whose `res.json` call is refused by the response shape, registered through `decorateExpressRouter`: the error is lost and `next(err)` is never called | `return h(req, res, next)`, so that the rejection reaches the error-propagating wrapper like that of an unguarded handler | not executed; medium | RequestHandler.DroppedRejection | RequestHandler.RejectionPropagates |

`RequestHandler.CreateRequestHandler` is the wrapper as written. `RequestHandler.CreateRequestHandlerIntended`
is the corrected definition: it returns the handler's result, so a rejection survives.
