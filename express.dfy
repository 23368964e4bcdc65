/**
 * The part of Express the library relies on, as the library sees it: the request and response a
 * middleware receives, the `json`/`jsonp`/`send` emitters (with the validating patches the library
 * installs on them), and the way a route's middleware chain is run. Express itself is not part of
 * the source; this module states the host behaviour the dispatchers are proved against.
 */
module Express {
  import opened Wrappers
  import opened Json
  import opened Shapes
  import opened Methods

  /** One entry of `req.params`, in `Object.keys` order. */
  datatype Param = Param(name: string, value: Value)

  /**
   * A request: its path parameters (their names distinct in any request Express builds, see
   * `DistinctNames`), its body, and the request object's other properties by name.
   */
  datatype ReqState = ReqState(params: seq<Param>, body: Value, props: map<string, Value>)

  /** `req.params` as an object: each parameter's name holds its value, a later entry winning. */
  function ParamsObject(params: seq<Param>): map<string, Value>
    decreases |params|
  {
    if params == [] then map[]
    else ParamsObject(params[..|params| - 1])[params[|params| - 1].name := params[|params| - 1].value]
  }

  /** The whole request object, as a request-property check sees it: its properties with `params` and `body`. */
  function RequestObject(req: ReqState): Value {
    Obj(req.props["params" := Obj(ParamsObject(req.params))]["body" := req.body])
  }

  /** No name occurs twice, as in any list `Object.keys(req.params)` yields. */
  predicate DistinctNames(params: seq<Param>) {
    forall i, j :: 0 <= i < j < |params| ==> params[i].name != params[j].name
  }

  /** `req.params` has exactly the parameters' names as its keys. */
  lemma {:induction false} ParamsObjectKeys(params: seq<Param>)
    ensures ParamsObject(params).Keys == set i | 0 <= i < |params| :: params[i].name
    decreases |params|
  {
    if params != [] {
      var init := params[..|params| - 1];
      ParamsObjectKeys(init);
      assert forall i :: 0 <= i < |init| ==> init[i] == params[i];
      assert (set i | 0 <= i < |params| :: params[i].name)
        == (set i | 0 <= i < |init| :: init[i].name) + {params[|params| - 1].name};
    }
  }

  /** The last parameter of a given name is the value `req.params` holds under it. */
  lemma {:induction false} ParamsObjectValue(params: seq<Param>, i: nat)
    requires i < |params|
    requires forall j :: i < j < |params| ==> params[j].name != params[i].name
    ensures params[i].name in ParamsObject(params) && ParamsObject(params)[params[i].name] == params[i].value
    decreases |params|
  {
    var last := |params| - 1;
    if i < last {
      var init := params[..last];
      assert init[i] == params[i];
      ParamsObjectValue(init, i);
    }
  }

  /** Which original emitter finally wrote the response. */
  datatype Emitter = ViaJson | ViaJsonp | ViaSend

  /** One response written: the emitter, the status at that moment, and the payload. */
  datatype Emission = Emission(via: Emitter, status: int, payload: Value)

  /**
   * A response: its status, the response shapes of the `json`/`jsonp`/`send` patches installed on it,
   * oldest first, and the emissions written so far.
   */
  datatype ResState = ResState(status: int, wrappers: seq<Shape>, sent: seq<Emission>)

  datatype Ctx = Ctx(req: ReqState, res: ResState)

  /** A fresh response: status 200, original emitters, nothing written. */
  const FreshResponse: ResState := ResState(200, [], [])

  /** A call a handler makes on the response. */
  datatype Effect = ResStatus(code: int) | ResJson(body: Value) | ResJsonp(body: Value) | ResSend(body: Value)

  /** How a handler's turn ends: it calls `next()`, `next(err)`, throws, returns a rejected promise, or returns. */
  datatype Ending = CallNext | CallNextWith(err: Error) | Throws(err: Error) | Rejects(err: Error) | Returns

  /**
   * What becomes of an error that one of a handler's response calls throws: the handler throws it
   * (a synchronous handler), its returned promise rejects with it (an async handler), or it is lost
   * (a handler that calls an async one and drops the promise it returns).
   */
  datatype ThrownAs = AsThrow | AsRejection | AsLost

  /** What a handler does for a request: its calls on the response, in order, then its ending. */
  datatype Behaviour = Behaviour(effects: seq<Effect>, ending: Ending, thrownAs: ThrownAs)

  /** A request handler `(req, res, next) => …`, seen through the behaviour it has for each request. */
  type Handler = ReqState -> Behaviour

  /**
   * A body through the `json` patches `ws`, newest first: each asserts its shape and passes on the
   * cleaned value; the first failed assertion throws.
   */
  function ThroughWrappers(ws: seq<Shape>, v: Value): (r: Result<Value, Error>)
    ensures ws == [] ==> r == Success(v)
    ensures r.Failure? ==> r.error == ShapeMismatch
    decreases |ws|
  {
    if ws == [] then Success(v)
    else
      match ValidateAndClean(ws[|ws| - 1], v)
      case Failure(e) => Failure(e)
      case Success(c) => ThroughWrappers(ws[..|ws| - 1], c)
  }

  /** Write one emission with the current status. */
  function Write(res: ResState, via: Emitter, payload: Value): ResState {
    res.(sent := res.sent + [Emission(via, res.status, payload)])
  }

  /**
   * One call on the response. `json`/`jsonp` go through every patch; a patched `send` passes a string
   * straight to the original `send` and hands anything else to the (patched) `json`.
   */
  function ApplyEffect(res: ResState, e: Effect): Result<ResState, Error> {
    match e
    case ResStatus(code) => Success(res.(status := code))
    case ResJson(v) =>
      (match ThroughWrappers(res.wrappers, v)
       case Failure(err) => Failure(err)
       case Success(c) => Success(Write(res, ViaJson, c)))
    case ResJsonp(v) =>
      (match ThroughWrappers(res.wrappers, v)
       case Failure(err) => Failure(err)
       case Success(c) => Success(Write(res, ViaJsonp, c)))
    case ResSend(v) =>
      if v.Str? || res.wrappers == [] then Success(Write(res, ViaSend, v))
      else
        match ThroughWrappers(res.wrappers, v)
        case Failure(err) => Failure(err)
        case Success(c) => Success(Write(res, ViaJson, c))
  }

  /** The outcome of running a handler's calls: the error the first failing call threw, if any, and the response. */
  datatype Performed = Performed(thrown: Option<Error>, res: ResState)

  /** Run the calls in order; a call that throws ends the run there. */
  function RunEffects(effects: seq<Effect>, res: ResState): Performed
    decreases |effects|
  {
    if effects == [] then Performed(None, res)
    else
      match ApplyEffect(res, effects[0])
      case Failure(e) => Performed(Some(e), res)
      case Success(res') => RunEffects(effects[1..], res')
  }

  /** A handler's whole turn: its calls, then its ending, unless a call threw (which then ends it as `thrownAs` says). */
  function RunBehaviour(b: Behaviour, res: ResState): (Ending, ResState) {
    var p := RunEffects(b.effects, res);
    if p.thrown.None? then (b.ending, p.res)
    else
      match b.thrownAs
      case AsThrow => (Throws(p.thrown.value), p.res)
      case AsRejection => (Rejects(p.thrown.value), p.res)
      case AsLost => (Returns, p.res)
  }

  /** How a run of a middleware chain ends. */
  datatype Verdict =
    | FellThrough         // the last middleware called `next()`: Express moves on to later routes
    | ErrorRaised(e: Error)  // `next(err)` or a synchronous throw: Express skips to error middleware
    | Stopped             // a middleware returned without calling `next`
    | Unhandled(e: Error) // a returned promise rejected: Express 4 does not observe it

  /** A chain run: the verdict, how many middlewares were invoked, and the request/response left behind. */
  datatype Run = Run(verdict: Verdict, ran: nat, ctx: Ctx)

  /** One middleware's turn: its ending and the request/response afterwards. */
  datatype Stepped = Stepped(ending: Ending, ctx: Ctx)

  /**
   * Express's handling of one route's middleware list: invoke them in order while each calls `next()`.
   * A synchronous throw is caught and forwarded like `next(err)`.
   */
  function RunChain<L>(layers: seq<L>, step: (L, Ctx) -> Stepped, ctx: Ctx): (r: Run)
    ensures r.ran <= |layers|
    ensures r.verdict.FellThrough? ==> r.ran == |layers|
    ensures layers != [] ==> r.ran >= 1
    decreases |layers|
  {
    if layers == [] then Run(FellThrough, 0, ctx)
    else
      var s := step(layers[0], ctx);
      match s.ending
      case CallNext =>
        var rest := RunChain(layers[1..], step, s.ctx);
        rest.(ran := rest.ran + 1)
      case CallNextWith(e) => Run(ErrorRaised(e), 1, s.ctx)
      case Throws(e) => Run(ErrorRaised(e), 1, s.ctx)
      case Rejects(e) => Run(Unhandled(e), 1, s.ctx)
      case Returns => Run(Stopped, 1, s.ctx)
  }

  /** A run shifted by `n` middlewares that ran before it. */
  function After(n: nat, r: Run): Run {
    r.(ran := r.ran + n)
  }

  /** Running `a + b` is running `a`, then, only if `a` falls through, running `b` from where `a` left off. */
  lemma {:induction false} RunAppend<L>(a: seq<L>, b: seq<L>, step: (L, Ctx) -> Stepped, ctx: Ctx)
    ensures RunChain(a + b, step, ctx) ==
      (var ra := RunChain(a, step, ctx);
       if ra.verdict.FellThrough? then After(|a|, RunChain(b, step, ra.ctx)) else ra)
    decreases |a|
  {
    if a == [] {
      assert a + b == b;
    } else {
      assert (a + b)[0] == a[0];
      assert (a + b)[1..] == a[1..] + b;
      var s := step(a[0], ctx);
      if s.ending.CallNext? {
        RunAppend(a[1..], b, step, s.ctx);
      }
    }
  }

  /** The first middleware decides alone unless it calls `next()`. */
  lemma FirstDecides<L>(layers: seq<L>, step: (L, Ctx) -> Stepped, ctx: Ctx)
    requires layers != [] && !step(layers[0], ctx).ending.CallNext?
    ensures RunChain(layers, step, ctx).ran == 1
    ensures RunChain(layers, step, ctx).ctx == step(layers[0], ctx).ctx
  {
  }

  /** `req`: the fields the library reads and writes. */
  class Request {
    var params: seq<Param>
    var body: Value
    var props: map<string, Value>

    function State(): ReqState
      reads this
    {
      ReqState(params, body, props)
    }

    constructor(s: ReqState)
      ensures State() == s
    {
      params, body, props := s.params, s.body, s.props;
    }

    /** `req.body = v`. */
    method SetBody(v: Value)
      modifies this
      ensures State() == old(State()).(body := v)
    {
      body := v;
    }
  }

  /** `res`: status, installed patches and what has been written. */
  class Response {
    var status: int
    var wrappers: seq<Shape>
    var sent: seq<Emission>

    function State(): ResState
      reads this
    {
      ResState(status, wrappers, sent)
    }

    constructor()
      ensures State() == FreshResponse
    {
      status, wrappers, sent := 200, [], [];
    }

    /** `Object.assign(res, {json, jsonp, send})`: install validating emitters for `shape` over the current ones. */
    method Patch(shape: Shape)
      modifies this
      ensures State() == old(State()).(wrappers := old(wrappers) + [shape])
    {
      wrappers := wrappers + [shape];
    }

    /** One call on the response; on a throw nothing changes and the error is returned. */
    method Perform(e: Effect) returns (thrown: Option<Error>)
      modifies this
      ensures ApplyEffect(old(State()), e).Success? ==> thrown.None? && State() == ApplyEffect(old(State()), e).value
      ensures ApplyEffect(old(State()), e).Failure? ==>
        thrown == Some(ApplyEffect(old(State()), e).error) && State() == old(State())
    {
      var r := ApplyEffect(State(), e);
      if r.Failure? {
        return Some(r.error);
      }
      status, wrappers, sent := r.value.status, r.value.wrappers, r.value.sent;
      thrown := None;
    }

    /** A handler's calls, in order, stopping at the first that throws. */
    method PerformAll(effects: seq<Effect>) returns (thrown: Option<Error>)
      modifies this
      ensures Performed(thrown, State()) == RunEffects(effects, old(State()))
    {
      var i := 0;
      while i < |effects|
        invariant 0 <= i <= |effects|
        invariant RunEffects(effects[i..], State()) == RunEffects(effects, old(State()))
      {
        assert effects[i..][1..] == effects[i + 1..];
        thrown := Perform(effects[i]);
        if thrown.Some? {
          return;
        }
        i := i + 1;
      }
      thrown := None;
    }
  }

  /** One `router.get(path, …)` / `router.post(path, …)` registration: method, path and middleware list. */
  datatype Registration<L> = Registration(httpMethod: Method, path: string, layers: seq<L>)

  /** An Express app or router, seen through the routes registered on it, in registration order. */
  class Router<L> {
    var routes: seq<Registration<L>>

    /** `express.Router()`: no routes yet. */
    constructor()
      ensures routes == []
    {
      routes := [];
    }

    /** `router[m](path, ...layers)`: add one route after the existing ones. */
    method Register(m: Method, path: string, layers: seq<L>)
      modifies this
      ensures routes == old(routes) + [Registration(m, path, layers)]
    {
      routes := routes + [Registration(m, path, layers)];
    }
  }
}
