/**
 * `decorateExpressRouter` (src/server/decorate-express-router.ts): registering a schema route's
 * handlers installs, in front of them, a request-property check and a body-validation middleware, and
 * wraps each handler (after flattening nested handler arrays) so that its errors reach `next`.
 */
module RouterDispatch {
  import opened Wrappers
  import opened Json
  import opened Shapes
  import opened Strings
  import opened Methods
  import opened Express
  import opened Contract

  /** `onValidationError(err, req, res, next)`, seen through the behaviour it has. */
  type ErrorCallback = (Error, ReqState) -> Behaviour

  /** An element of the `handlers` argument: a handler, or an array of further elements. */
  datatype HandlerTree = Leaf(handler: Handler) | Nested(items: seq<HandlerTree>)

  function Size(t: HandlerTree): (n: nat)
    ensures n >= 1
    decreases t
  {
    match t
    case Leaf(_) => 1
    case Nested(items) => 1 + SizeAll(items)
  }

  function SizeAll(items: seq<HandlerTree>): nat
    decreases items
  {
    if items == [] then 0 else Size(items[0]) + SizeAll(items[1..])
  }

  /** `flatDeep`: a left-to-right fold that appends a handler, or the flattening of a nested array, to the accumulator. */
  function FlatDeep(items: seq<HandlerTree>): seq<Handler>
    decreases SizeAll(items), 1
  {
    FlatFold(items, [])
  }

  /** The `reduce` of `flatDeep` from accumulator `acc`. */
  function FlatFold(items: seq<HandlerTree>, acc: seq<Handler>): seq<Handler>
    decreases SizeAll(items), 0
  {
    if items == [] then acc
    else
      assert SizeAll(items) == Size(items[0]) + SizeAll(items[1..]);
      match items[0]
      case Leaf(h) => FlatFold(items[1..], acc + [h])
      case Nested(xs) => FlatFold(items[1..], acc + FlatDeep(xs))
  }

  /** The leaves of the handler arguments, left to right: the reference `FlatDeep` is checked against. */
  function Leaves(items: seq<HandlerTree>): seq<Handler>
    decreases items
  {
    if items == [] then [] else TreeLeaves(items[0]) + Leaves(items[1..])
  }

  function TreeLeaves(t: HandlerTree): seq<Handler>
    decreases t
  {
    match t
    case Leaf(h) => [h]
    case Nested(items) => Leaves(items)
  }

  /** `flatDeep` yields exactly the leaves, in left-to-right order. */
  lemma {:induction false} FlatDeepLeaves(items: seq<HandlerTree>)
    ensures FlatDeep(items) == Leaves(items)
    decreases SizeAll(items), 1
  {
    FlatFoldLeaves(items, []);
  }

  lemma {:induction false} FlatFoldLeaves(items: seq<HandlerTree>, acc: seq<Handler>)
    ensures FlatFold(items, acc) == acc + Leaves(items)
    decreases SizeAll(items), 0
  {
    if items != [] {
      assert SizeAll(items) == Size(items[0]) + SizeAll(items[1..]);
      var rest := Leaves(items[1..]);
      assert Leaves(items) == TreeLeaves(items[0]) + rest;
      match items[0]
      case Leaf(h) =>
        FlatFoldLeaves(items[1..], acc + [h]);
        assert (acc + [h]) + rest == acc + ([h] + rest);
      case Nested(xs) =>
        FlatDeepLeaves(xs);
        FlatFoldLeaves(items[1..], acc + FlatDeep(xs));
        assert (acc + Leaves(xs)) + rest == acc + (Leaves(xs) + rest);
    } else {
      assert acc + [] == acc;
    }
  }

  /** A list without nested arrays is left as it is. */
  lemma {:induction false} FlatListUnchanged(hs: seq<Handler>)
    ensures FlatDeep(seq(|hs|, i requires 0 <= i < |hs| => Leaf(hs[i]))) == hs
  {
    var items := seq(|hs|, i requires 0 <= i < |hs| => Leaf(hs[i]));
    FlatDeepLeaves(items);
    LeavesOfLeafs(hs);
  }

  lemma {:induction false} LeavesOfLeafs(hs: seq<Handler>)
    ensures Leaves(seq(|hs|, i requires 0 <= i < |hs| => Leaf(hs[i]))) == hs
  {
    var items := seq(|hs|, i requires 0 <= i < |hs| => Leaf(hs[i]));
    if hs != [] {
      assert items[1..] == seq(|hs[1..]|, i requires 0 <= i < |hs[1..]| => Leaf(hs[1..][i]));
      LeavesOfLeafs(hs[1..]);
      assert hs == [hs[0]] + hs[1..];
    }
  }

  const ParamErrorText := "The request parameters did not conform to the required schema."

  const BodyErrorText := "The request body did not conform to the required schema."

  /** The `next(err)` message: the base text, then the quoted missing names, then the quoted excess names. */
  function ParamMessage(missing: seq<string>, excess: seq<string>): string {
    ParamErrorText
      + (if missing != [] then " Missing: \"" + Join(missing, "\", \"") + "\"." else "")
      + (if excess != [] then " Excess: \"" + Join(excess, "\", \"") + "\"." else "")
  }

  /** The default `onValidationError`: `res.status(400).send(…)`. */
  function DefaultOnValidationError(e: Error, req: ReqState): Behaviour {
    Behaviour([ResStatus(400), ResSend(Str(BodyErrorText))], Returns, AsThrow)
  }

  /** `createRequestPropValidationMiddleware(shape)`: assert the request, then `next()`. */
  function PropCheckStep(shape: Shape, ctx: Ctx): Stepped {
    if Valid(shape, RequestObject(ctx.req)) then Stepped(CallNext, ctx) else Stepped(Throws(ShapeMismatch), ctx)
  }

  /**
   * `createBodyValidationMiddleware(route, onError)` for one request: parameter names, then the body.
   * The callback's own ending stands for the middleware's, except that a promise it returns is dropped.
   */
  function BodyValidationStep(route: RouteEntry, onError: Option<ErrorCallback>, ctx: Ctx): Stepped {
    var actual := ParamKeys(ctx.req.params);
    var expected := route.paramNames.GetOr([]);
    var missing := Without(expected, actual);
    var excess := Without(actual, expected);
    if missing != [] || excess != [] then Stepped(CallNextWith(Message(ParamMessage(missing, excess))), ctx)
    else
      match ValidateAndClean(RequestShape(route), ctx.req.body)
      case Success(cleaned) => AcceptBody(route, cleaned, ctx)
      case Failure(e) =>
        var callback := onError.GetOr(DefaultOnValidationError);
        var (ending, res) := RunBehaviour(callback(e, ctx.req), ctx.res);
        Stepped(if ending.Rejects? then Returns else ending, Ctx(ctx.req, res))
  }

  /** The middlewares `handle` registers. */
  datatype Layer =
    | PropCheck(shape: Shape)
    | BodyValidation(route: RouteEntry, onError: Option<ErrorCallback>)
    | Propagating(handler: Handler)

  function Step(layer: Layer, ctx: Ctx): Stepped {
    match layer
    case PropCheck(shape) => PropCheckStep(shape, ctx)
    case BodyValidation(route, onError) => BodyValidationStep(route, onError, ctx)
    case Propagating(h) => PropagatingStep(h, ctx)
  }

  /** A handler in its error-propagating wrapper. */
  function Propagate(h: Handler): Layer {
    Propagating(h)
  }

  /** The list `handle` registers: prop check (default `t.unknown`), body validation, wrapped handlers. */
  function Chain(route: RouteEntry, requestProps: Option<Shape>, onError: Option<ErrorCallback>, handlers: seq<HandlerTree>): seq<Layer> {
    [PropCheck(requestProps.GetOr(Unknown)), BodyValidation(route, onError)] + Wrapped(FlatDeep(handlers), Propagate)
  }

  /** The registered list is the two checks followed by every leaf handler, wrapped, in the order given. */
  lemma ChainShape(route: RouteEntry, requestProps: Option<Shape>, onError: Option<ErrorCallback>, handlers: seq<HandlerTree>)
    ensures var chain := Chain(route, requestProps, onError, handlers);
      && |chain| == 2 + |Leaves(handlers)|
      && chain[0] == PropCheck(requestProps.GetOr(Unknown))
      && chain[1] == BodyValidation(route, onError)
      && forall i :: 0 <= i < |Leaves(handlers)| ==> chain[2 + i] == Propagating(Leaves(handlers)[i])
  {
    FlatDeepLeaves(handlers);
    var leaves := Leaves(handlers);
    var chain := Chain(route, requestProps, onError, handlers);
    var checks := [PropCheck(requestProps.GetOr(Unknown)), BodyValidation(route, onError)];
    assert chain == checks + Wrapped(leaves, Propagate);
    forall i | 0 <= i < |leaves|
      ensures chain[2 + i] == Propagating(leaves[i])
    {
      assert chain[2 + i] == Wrapped(leaves, Propagate)[i];
    }
  }

  /** Parameters and body as the schema route expects them: names agree and the body conforms. */
  predicate ParamsAgree(route: RouteEntry, req: ReqState) {
    var actual := ParamKeys(req.params);
    var expected := route.paramNames.GetOr([]);
    Without(expected, actual) == [] && Without(actual, expected) == []
  }

  /** A request that fails the property check is forwarded as an error by the first middleware alone. */
  lemma PropCheckRejects(route: RouteEntry, requestProps: Option<Shape>, onError: Option<ErrorCallback>,
                         handlers: seq<HandlerTree>, ctx: Ctx)
    requires !Valid(requestProps.GetOr(Unknown), RequestObject(ctx.req))
    ensures RunChain(Chain(route, requestProps, onError, handlers), Step, ctx) == Run(ErrorRaised(ShapeMismatch), 1, ctx)
  {
  }

  /**
   * Parameter names that disagree with the route's `paramNames` are forwarded as an error by the second
   * middleware; the body is untouched, the response not patched, and no handler runs.
   */
  lemma ParamMismatchForwarded(route: RouteEntry, requestProps: Option<Shape>, onError: Option<ErrorCallback>,
                               handlers: seq<HandlerTree>, ctx: Ctx)
    requires Valid(requestProps.GetOr(Unknown), RequestObject(ctx.req))
    requires !ParamsAgree(route, ctx.req)
    ensures var actual := ParamKeys(ctx.req.params);
      var expected := route.paramNames.GetOr([]);
      RunChain(Chain(route, requestProps, onError, handlers), Step, ctx)
        == Run(ErrorRaised(Message(ParamMessage(Without(expected, actual), Without(actual, expected)))), 2, ctx)
  {
    var chain := Chain(route, requestProps, onError, handlers);
    assert chain[1..][0] == BodyValidation(route, onError);
  }

  /**
   * An invalid body under the default callback: status 400 and the fixed text are sent, no `next` is called
   * and no handler runs.
   */
  lemma InvalidBodyDefault(route: RouteEntry, requestProps: Option<Shape>, handlers: seq<HandlerTree>, ctx: Ctx)
    requires Valid(requestProps.GetOr(Unknown), RequestObject(ctx.req))
    requires ParamsAgree(route, ctx.req)
    requires !Valid(RequestShape(route), ctx.req.body)
    ensures RunChain(Chain(route, requestProps, None, handlers), Step, ctx)
      == Run(Stopped, 2, Ctx(ctx.req, Write(ctx.res.(status := 400), ViaSend, Str(BodyErrorText))))
  {
    var chain := Chain(route, requestProps, None, handlers);
    assert chain[1..][0] == BodyValidation(route, None);
    var res400 := ctx.res.(status := 400);
    assert RunEffects([ResSend(Str(BodyErrorText))], res400) == Performed(None, Write(res400, ViaSend, Str(BodyErrorText)));
  }

  /**
   * An invalid body under a given callback: the callback gets the validation error and the request as
   * it came, and the handlers run only if the callback itself calls `next()`.
   */
  lemma InvalidBodyCallback(route: RouteEntry, requestProps: Option<Shape>, callback: ErrorCallback,
                            handlers: seq<HandlerTree>, ctx: Ctx)
    requires Valid(requestProps.GetOr(Unknown), RequestObject(ctx.req))
    requires ParamsAgree(route, ctx.req)
    requires !Valid(RequestShape(route), ctx.req.body)
    requires !RunBehaviour(callback(ShapeMismatch, ctx.req), ctx.res).0.CallNext?
    ensures RunChain(Chain(route, requestProps, Some(callback), handlers), Step, ctx).ran == 2
    ensures RunChain(Chain(route, requestProps, Some(callback), handlers), Step, ctx).ctx
      == Ctx(ctx.req, RunBehaviour(callback(ShapeMismatch, ctx.req), ctx.res).1)
  {
    var chain := Chain(route, requestProps, Some(callback), handlers);
    assert chain[1..][0] == BodyValidation(route, Some(callback));
  }

  /**
   * A conforming request continues into the wrapped handlers, in order, with `req.body` replaced by the
   * cleaned body and the response's emitters patched for the route's response shape.
   */
  lemma ValidRequestContinues(route: RouteEntry, requestProps: Option<Shape>, onError: Option<ErrorCallback>,
                              handlers: seq<HandlerTree>, ctx: Ctx)
    requires Valid(requestProps.GetOr(Unknown), RequestObject(ctx.req))
    requires ParamsAgree(route, ctx.req)
    requires Valid(RequestShape(route), ctx.req.body)
    ensures RunChain(Chain(route, requestProps, onError, handlers), Step, ctx)
      == After(2, RunChain(Wrapped(Leaves(handlers), Propagate), Step,
                           Ctx(ctx.req.(body := Clean(RequestShape(route), ctx.req.body)),
                               ctx.res.(wrappers := ctx.res.wrappers + [ResponseShape(route)]))))
  {
    var checks := [PropCheck(requestProps.GetOr(Unknown)), BodyValidation(route, onError)];
    FlatDeepLeaves(handlers);
    RunAppend(checks, Wrapped(Leaves(handlers), Propagate), Step, ctx);
    assert checks[1..][0] == BodyValidation(route, onError);
    assert checks[1..][1..] == [];
  }

  /**
   * `decorateExpressRouter(options)`: `get`/`post` register on `options.router`, or on a new router when
   * none is given. The given router is the one registered on, although the documentation says it is not
   * modified.
   */
  class DecoratedRouter {
    const schema: seq<RouteEntry>
    const router: Router<Layer>
    const requestProps: Option<Shape>
    const onError: Option<ErrorCallback>

    constructor(schema: seq<RouteEntry>, router: Router?<Layer>, requestProps: Option<Shape>,
                onError: Option<ErrorCallback>)
      ensures this.schema == schema && this.requestProps == requestProps && this.onError == onError
      ensures router != null ==> this.router == router
      ensures router == null ==> fresh(this.router) && this.router.routes == []
    {
      this.schema := schema;
      this.requestProps := requestProps;
      this.onError := onError;
      if router != null {
        this.router := router;
      } else {
        this.router := new Router();
      }
    }

    /** `handle(method, path, ...handlers)`: look the route up, then register its chain; an error is what it throws. */
    method Handle(m: Method, path: string, handlers: seq<HandlerTree>) returns (err: Option<LookupError>)
      modifies router
      ensures Lookup(schema, m, path).Failure? ==>
        err == Some(Lookup(schema, m, path).error) && router.routes == old(router.routes)
      ensures Lookup(schema, m, path).Success? ==> (err.None? &&
        router.routes == old(router.routes) + [Registration(m, path, Chain(Lookup(schema, m, path).value, requestProps, onError, handlers))])
    {
      var found := Lookup(schema, m, path);
      if found.Failure? {
        return Some(found.error);
      }
      var layers := [PropCheck(requestProps.GetOr(Unknown)), BodyValidation(found.value, onError)]
        + Wrapped(FlatDeep(handlers), Propagate);
      router.Register(m, path, layers);
      err := None;
    }

    method Get(path: string, handlers: seq<HandlerTree>) returns (err: Option<LookupError>)
      modifies router
      ensures Lookup(schema, GET, path).Failure? ==>
        err == Some(Lookup(schema, GET, path).error) && router.routes == old(router.routes)
      ensures Lookup(schema, GET, path).Success? ==> (err.None? &&
        router.routes == old(router.routes) + [Registration(GET, path, Chain(Lookup(schema, GET, path).value, requestProps, onError, handlers))])
    {
      err := Handle(GET, path, handlers);
    }

    method Post(path: string, handlers: seq<HandlerTree>) returns (err: Option<LookupError>)
      modifies router
      ensures Lookup(schema, POST, path).Failure? ==>
        err == Some(Lookup(schema, POST, path).error) && router.routes == old(router.routes)
      ensures Lookup(schema, POST, path).Success? ==> (err.None? &&
        router.routes == old(router.routes) + [Registration(POST, path, Chain(Lookup(schema, POST, path).value, requestProps, onError, handlers))])
    {
      err := Handle(POST, path, handlers);
    }
  }

  /**
   * The body-validation middleware on the live objects: reads the parameters, replaces `req.body`,
   * patches `res` or lets the callback respond, exactly as `BodyValidationStep` describes.
   */
  method ValidateBodies(route: RouteEntry, onError: Option<ErrorCallback>, req: Request, res: Response)
    returns (ending: Ending)
    modifies req, res
    ensures Stepped(ending, Ctx(req.State(), res.State()))
      == BodyValidationStep(route, onError, Ctx(old(req.State()), old(res.State())))
  {
    var actual := ParamKeys(req.params);
    var expected := route.paramNames.GetOr([]);
    var missing := Without(expected, actual);
    var excess := Without(actual, expected);
    if missing != [] || excess != [] {
      return CallNextWith(Message(ParamMessage(missing, excess)));
    }
    var checked := ValidateAndClean(RequestShape(route), req.body);
    if checked.Failure? {
      var callback := onError.GetOr(DefaultOnValidationError);
      var b := callback(checked.error, req.State());
      var thrown := res.PerformAll(b.effects);
      if thrown.Some? {
        return if b.thrownAs.AsThrow? then Throws(thrown.value) else Returns;
      }
      return if b.ending.Rejects? then Returns else b.ending;
    }
    req.SetBody(checked.value);
    res.Patch(ResponseShape(route));
    ending := CallNext;
  }
}
