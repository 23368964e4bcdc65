/**
 * `decorateExpressServer` (src/decorate-express-server.ts): the older server variant. Registering a
 * schema route's handlers installs one body-validation middleware in front of them, which also checks
 * that every path parameter is a string and answers an invalid body with a fixed 400 response; each
 * handler is wrapped so that its errors reach `next`. Handler arrays are not flattened here.
 */
module ServerDispatch {
  import opened Wrappers
  import opened Json
  import opened Shapes
  import opened Strings
  import opened Methods
  import opened Express
  import opened Contract

  const ParamErrorText := "The request parameters did not conform to the required schema."

  const BodyErrorText := "The request body did not conform to the required schema."

  /** The names of the parameters whose value is not a string, in `Object.keys` order. */
  function NonStringNames(params: seq<Param>): (names: seq<string>)
    ensures forall x :: x in names <==> exists i :: 0 <= i < |params| && params[i].name == x && !params[i].value.Str?
  {
    if params == [] then []
    else
      var rest := NonStringNames(params[1..]);
      assert forall i :: 0 < i < |params| ==> params[i] == params[1..][i - 1];
      (if !params[0].value.Str? then [params[0].name] else []) + rest
  }

  /**
   * With distinct names, as Express produces them, these are exactly the names whose value in the
   * `req.params` object is not a string.
   */
  lemma NonStringNamesOfObject(params: seq<Param>)
    requires DistinctNames(params)
    ensures forall x :: x in NonStringNames(params) <==>
      x in ParamsObject(params) && !ParamsObject(params)[x].Str?
  {
    ParamsObjectKeys(params);
    forall x | x in ParamsObject(params)
      ensures x in NonStringNames(params) <==> !ParamsObject(params)[x].Str?
    {
      var i :| 0 <= i < |params| && params[i].name == x;
      ParamsObjectValue(params, i);
      if x in NonStringNames(params) {
        var k :| 0 <= k < |params| && params[k].name == x && !params[k].value.Str?;
        assert k == i;
      }
    }
  }

  /** The `next(err)` message: the base text, then the missing, excess and non-string names, each comma-joined. */
  function ParamMessage(missing: seq<string>, excess: seq<string>, nonString: seq<string>): string {
    ParamErrorText
      + (if missing != [] then " Missing: " + Join(missing, ", ") + "." else "")
      + (if excess != [] then " Excess: " + Join(excess, ", ") + "." else "")
      + (if nonString != [] then " Non-string: " + Join(nonString, ", ") + "." else "")
  }

  /** `validateAndCleanBodies(routeInfo)` for one request. */
  function BodyValidationStep(route: RouteEntry, ctx: Ctx): Stepped {
    var actual := ParamKeys(ctx.req.params);
    var expected := route.paramNames.GetOr([]);
    var missing := Without(expected, actual);
    var excess := Without(actual, expected);
    var nonString := NonStringNames(ctx.req.params);
    if missing != [] || excess != [] || nonString != [] then
      Stepped(CallNextWith(Message(ParamMessage(missing, excess, nonString))), ctx)
    else
      match ValidateAndClean(RequestShape(route), ctx.req.body)
      case Success(cleaned) => AcceptBody(route, cleaned, ctx)
      case Failure(_) =>
        Stepped(Returns, Ctx(ctx.req, Write(ctx.res.(status := 400), ViaSend, Str(BodyErrorText))))
  }

  /** The middlewares `handle` registers. */
  datatype Layer = BodyValidation(route: RouteEntry) | Propagating(handler: Handler)

  function Step(layer: Layer, ctx: Ctx): Stepped {
    match layer
    case BodyValidation(route) => BodyValidationStep(route, ctx)
    case Propagating(h) => PropagatingStep(h, ctx)
  }

  /** A handler in its error-propagating wrapper. */
  function Propagate(h: Handler): Layer {
    Propagating(h)
  }

  /** The list `handle` registers: the body check, then the handlers as given, each wrapped. */
  function Chain(route: RouteEntry, handlers: seq<Handler>): seq<Layer> {
    [BodyValidation(route)] + Wrapped(handlers, Propagate)
  }

  /** Parameters as the route expects them: the declared names, each with a string value. */
  predicate ParamsConform(route: RouteEntry, req: ReqState) {
    var actual := ParamKeys(req.params);
    var expected := route.paramNames.GetOr([]);
    Without(expected, actual) == [] && Without(actual, expected) == [] && NonStringNames(req.params) == []
  }

  /**
   * The parameters conform exactly when they carry the same names as the route declares and every
   * value is a string.
   */
  lemma ParamsConformIff(route: RouteEntry, req: ReqState)
    ensures ParamsConform(route, req) <==>
      && (forall x :: x in route.paramNames.GetOr([]) <==> x in ParamKeys(req.params))
      && (forall i :: 0 <= i < |req.params| ==> req.params[i].value.Str?)
  {
    NamesAgree(route.paramNames.GetOr([]), ParamKeys(req.params));
    var ns := NonStringNames(req.params);
    if ns != [] {
      assert ns[0] in ns;
    }
    if !(forall i :: 0 <= i < |req.params| ==> req.params[i].value.Str?) {
      var i :| 0 <= i < |req.params| && !req.params[i].value.Str?;
      assert req.params[i].name in ns;
    }
  }

  /** A parameter mismatch is forwarded as an error before any handler runs; nothing is changed. */
  lemma ParamMismatchForwarded(route: RouteEntry, handlers: seq<Handler>, ctx: Ctx)
    requires !ParamsConform(route, ctx.req)
    ensures var actual := ParamKeys(ctx.req.params);
      var expected := route.paramNames.GetOr([]);
      RunChain(Chain(route, handlers), Step, ctx)
        == Run(ErrorRaised(Message(ParamMessage(Without(expected, actual), Without(actual, expected),
                                                NonStringNames(ctx.req.params)))), 1, ctx)
  {
  }

  /** An invalid body gets status 400 and the fixed text; no handler runs and `next` is not called. */
  lemma InvalidBodyRejected(route: RouteEntry, handlers: seq<Handler>, ctx: Ctx)
    requires ParamsConform(route, ctx.req)
    requires !Valid(RequestShape(route), ctx.req.body)
    ensures RunChain(Chain(route, handlers), Step, ctx)
      == Run(Stopped, 1, Ctx(ctx.req, Write(ctx.res.(status := 400), ViaSend, Str(BodyErrorText))))
  {
  }

  /**
   * A conforming request continues into the wrapped handlers, with `req.body` replaced by the cleaned
   * body and the response's emitters patched for the route's response shape.
   */
  lemma ValidRequestContinues(route: RouteEntry, handlers: seq<Handler>, ctx: Ctx)
    requires ParamsConform(route, ctx.req)
    requires Valid(RequestShape(route), ctx.req.body)
    ensures RunChain(Chain(route, handlers), Step, ctx)
      == After(1, RunChain(Wrapped(handlers, Propagate), Step,
                           Ctx(ctx.req.(body := Clean(RequestShape(route), ctx.req.body)),
                               ctx.res.(wrappers := ctx.res.wrappers + [ResponseShape(route)]))))
  {
    RunAppend([BodyValidation(route)], Wrapped(handlers, Propagate), Step, ctx);
  }

  /**
   * `decorateExpressServer(options)`: `get`/`post` register on `options.router` itself, although the
   * documentation says the given router is not modified.
   */
  class DecoratedServer {
    const schema: seq<RouteEntry>
    const router: Router<Layer>

    constructor(schema: seq<RouteEntry>, router: Router<Layer>)
      ensures this.schema == schema && this.router == router
    {
      this.schema := schema;
      this.router := router;
    }

    /** `handle(method, path, ...handlers)`: look the route up, then register its chain; an error is what it throws. */
    method Handle(m: Method, path: string, handlers: seq<Handler>) returns (err: Option<LookupError>)
      modifies router
      ensures Lookup(schema, m, path).Failure? ==>
        err == Some(Lookup(schema, m, path).error) && router.routes == old(router.routes)
      ensures Lookup(schema, m, path).Success? ==> (err.None? &&
        router.routes == old(router.routes) + [Registration(m, path, Chain(Lookup(schema, m, path).value, handlers))])
    {
      var found := Lookup(schema, m, path);
      if found.Failure? {
        return Some(found.error);
      }
      router.Register(m, path, [BodyValidation(found.value)] + Wrapped(handlers, Propagate));
      err := None;
    }

    method Get(path: string, handlers: seq<Handler>) returns (err: Option<LookupError>)
      modifies router
      ensures Lookup(schema, GET, path).Failure? ==>
        err == Some(Lookup(schema, GET, path).error) && router.routes == old(router.routes)
      ensures Lookup(schema, GET, path).Success? ==> (err.None? &&
        router.routes == old(router.routes) + [Registration(GET, path, Chain(Lookup(schema, GET, path).value, handlers))])
    {
      err := Handle(GET, path, handlers);
    }

    method Post(path: string, handlers: seq<Handler>) returns (err: Option<LookupError>)
      modifies router
      ensures Lookup(schema, POST, path).Failure? ==>
        err == Some(Lookup(schema, POST, path).error) && router.routes == old(router.routes)
      ensures Lookup(schema, POST, path).Success? ==> (err.None? &&
        router.routes == old(router.routes) + [Registration(POST, path, Chain(Lookup(schema, POST, path).value, handlers))])
    {
      err := Handle(POST, path, handlers);
    }
  }

  /** The body-validation middleware on the live objects, exactly as `BodyValidationStep` describes. */
  method ValidateAndCleanBodies(route: RouteEntry, req: Request, res: Response) returns (ending: Ending)
    modifies req, res
    ensures Stepped(ending, Ctx(req.State(), res.State()))
      == BodyValidationStep(route, Ctx(old(req.State()), old(res.State())))
  {
    var actual := ParamKeys(req.params);
    var expected := route.paramNames.GetOr([]);
    var missing := Without(expected, actual);
    var excess := Without(actual, expected);
    var nonString := NonStringNames(req.params);
    if missing != [] || excess != [] || nonString != [] {
      return CallNextWith(Message(ParamMessage(missing, excess, nonString)));
    }
    var checked := ValidateAndClean(RequestShape(route), req.body);
    if checked.Failure? {
      var thrown := res.Perform(ResStatus(400));
      thrown := res.Perform(ResSend(Str(BodyErrorText)));
      return Returns;
    }
    req.SetBody(checked.value);
    res.Patch(ResponseShape(route));
    ending := CallNext;
  }
}
