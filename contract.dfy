/**
 * The pieces both server variants (src/server/decorate-express-router.ts and
 * src/decorate-express-server.ts) share word for word: the route record they read, the lookup of the
 * one schema route a registration refers to, the comparison of parameter names, the success step of
 * body validation, and the wrapper that turns a handler's throw or rejection into `next(err)`.
 */
module Contract {
  import opened Wrappers
  import opened Json
  import opened Shapes
  import opened Strings
  import opened Methods
  import opened Express

  /** A schema route, with the fields the server variants read. */
  datatype RouteEntry = RouteEntry(
    httpMethod: Method,
    path: string,
    paramNames: Option<seq<string>>,
    requestBody: Option<Shape>,
    responseBody: Option<Shape>)

  /** The shape a request body is checked against: the route's request shape, the empty object when absent. */
  function RequestShape(route: RouteEntry): Shape {
    route.requestBody.GetOr(EmptyObject)
  }

  /** The shape response bodies are checked against: `responseBody`, `t.undefined` when absent. */
  function ResponseShape(route: RouteEntry): Shape {
    route.responseBody.GetOr(Shapes.Undefined)
  }

  /**
   * Without `requestBody` a request body must be an object and is cleaned to `{}`; without
   * `responseBody` only `undefined` may be sent through `json`/`jsonp`.
   */
  lemma DefaultBodyShapes(route: RouteEntry, v: Value)
    ensures route.requestBody.None? ==>
      ValidateAndClean(RequestShape(route), v) == (if v.Obj? then Success(Obj(map[])) else Failure(ShapeMismatch))
    ensures route.responseBody.None? ==>
      ValidateAndClean(ResponseShape(route), v) == (if v == Value.Undefined then Success(v) else Failure(ShapeMismatch))
  {
  }

  predicate Matches(route: RouteEntry, m: Method, path: string) {
    route.httpMethod == m && route.path == path
  }

  /** Position `i` matches and no other position does. */
  predicate OnlyMatchAt(schema: seq<RouteEntry>, m: Method, path: string, i: nat)
    requires i < |schema|
  {
    Matches(schema[i], m, path) && forall j :: 0 <= j < |schema| && j != i ==> !Matches(schema[j], m, path)
  }

  /** The schema routes with the given method and path, in schema order. */
  function Matching(schema: seq<RouteEntry>, m: Method, path: string): seq<RouteEntry> {
    if schema == [] then []
    else (if Matches(schema[0], m, path) then [schema[0]] else []) + Matching(schema[1..], m, path)
  }

  datatype Problem = MultipleRoutes | NoRoute

  datatype LookupError = LookupError(problem: Problem, httpMethod: Method, path: string)

  function LookupMessage(e: LookupError): string {
    var problem := if e.problem == MultipleRoutes then "multiple routes" else "no route";
    "Schema has " + problem + " for method '" + Name(e.httpMethod) + "' and path '" + e.path + "'"
  }

  /** The route a registration for `m` and `path` refers to, or the error `handle` throws. */
  function Lookup(schema: seq<RouteEntry>, m: Method, path: string): Result<RouteEntry, LookupError> {
    var matching := Matching(schema, m, path);
    if |matching| == 1 then Success(matching[0])
    else Failure(LookupError(if |matching| > 1 then MultipleRoutes else NoRoute, m, path))
  }

  /** No route is found exactly when none matches. */
  lemma {:induction false} MatchingEmpty(schema: seq<RouteEntry>, m: Method, path: string)
    ensures Matching(schema, m, path) == [] <==> forall i :: 0 <= i < |schema| ==> !Matches(schema[i], m, path)
  {
    if schema != [] {
      MatchingEmpty(schema[1..], m, path);
      if Matching(schema[1..], m, path) != [] {
        var i :| 0 <= i < |schema[1..]| && Matches(schema[1..][i], m, path);
        assert Matches(schema[i + 1], m, path);
      }
    }
  }

  /** Two or more results exactly when two different positions match. */
  lemma {:induction false} MatchingSeveral(schema: seq<RouteEntry>, m: Method, path: string)
    ensures |Matching(schema, m, path)| >= 2 <==>
      exists i, j :: 0 <= i < j < |schema| && Matches(schema[i], m, path) && Matches(schema[j], m, path)
  {
    if schema != [] {
      var t := schema[1..];
      MatchingSeveral(t, m, path);
      MatchingEmpty(t, m, path);
      if |Matching(schema, m, path)| >= 2 {
        if Matches(schema[0], m, path) {
          var j :| 0 <= j < |t| && Matches(t[j], m, path);
          assert Matches(schema[j + 1], m, path);
        } else {
          var i, j :| 0 <= i < j < |t| && Matches(t[i], m, path) && Matches(t[j], m, path);
          assert Matches(schema[i + 1], m, path) && Matches(schema[j + 1], m, path);
        }
      }
      if exists i, j :: 0 <= i < j < |schema| && Matches(schema[i], m, path) && Matches(schema[j], m, path) {
        var i, j :| 0 <= i < j < |schema| && Matches(schema[i], m, path) && Matches(schema[j], m, path);
        assert Matches(t[j - 1], m, path);
        if i > 0 {
          assert Matches(t[i - 1], m, path);
        }
      }
    }
  }

  /** A single result is the one matching position's route; no other position matches. */
  lemma {:induction false} MatchingOne(schema: seq<RouteEntry>, m: Method, path: string)
    requires |Matching(schema, m, path)| == 1
    ensures exists i :: 0 <= i < |schema| && schema[i] == Matching(schema, m, path)[0] && OnlyMatchAt(schema, m, path, i)
  {
    var t := schema[1..];
    MatchingEmpty(t, m, path);
    if Matches(schema[0], m, path) {
      assert Matching(t, m, path) == [];
      forall j | 0 < j < |schema|
        ensures !Matches(schema[j], m, path)
      {
        assert schema[j] == t[j - 1];
      }
    } else {
      MatchingOne(t, m, path);
      var i :| 0 <= i < |t| && t[i] == Matching(t, m, path)[0] && OnlyMatchAt(t, m, path, i);
      forall j | 0 <= j < |schema| && j != i + 1
        ensures !Matches(schema[j], m, path)
      {
        if j > 0 {
          assert schema[j] == t[j - 1];
        }
      }
      assert schema[i + 1] == t[i];
    }
  }

  /** Registration finds a route exactly when one schema position matches, and it is that position's route. */
  lemma LookupFound(schema: seq<RouteEntry>, m: Method, path: string)
    ensures Lookup(schema, m, path).Success? ==>
      exists i :: 0 <= i < |schema| && Lookup(schema, m, path).value == schema[i] && OnlyMatchAt(schema, m, path, i)
    ensures (exists i :: 0 <= i < |schema| && OnlyMatchAt(schema, m, path, i)) ==> Lookup(schema, m, path).Success?
  {
    if |Matching(schema, m, path)| == 1 {
      MatchingOne(schema, m, path);
    }
    MatchingEmpty(schema, m, path);
    MatchingSeveral(schema, m, path);
  }

  /** "no route" exactly when no position matches. */
  lemma LookupNoRoute(schema: seq<RouteEntry>, m: Method, path: string)
    ensures Lookup(schema, m, path) == Failure(LookupError(NoRoute, m, path)) <==>
      forall i :: 0 <= i < |schema| ==> !Matches(schema[i], m, path)
  {
    MatchingEmpty(schema, m, path);
  }

  /** "multiple routes" exactly when two positions match. */
  lemma LookupMultiple(schema: seq<RouteEntry>, m: Method, path: string)
    ensures Lookup(schema, m, path) == Failure(LookupError(MultipleRoutes, m, path)) <==>
      exists i, j :: 0 <= i < j < |schema| && Matches(schema[i], m, path) && Matches(schema[j], m, path)
  {
    MatchingSeveral(schema, m, path);
  }

  /** The elements of `xs` that do not occur in `ys`, in order and with repeats kept. */
  function Without(xs: seq<string>, ys: seq<string>): (r: seq<string>)
    ensures forall x :: x in r <==> x in xs && x !in ys
  {
    if xs == [] then []
    else (if xs[0] !in ys then [xs[0]] else []) + Without(xs[1..], ys)
  }

  /** `Object.keys(req.params)`. */
  function ParamKeys(params: seq<Param>): seq<string>
  {
    seq(|params|, i requires 0 <= i < |params| => params[i].name)
  }

  /** Nothing is missing and nothing is in excess exactly when the two name lists hold the same names. */
  lemma NamesAgree(expected: seq<string>, actual: seq<string>)
    ensures Without(expected, actual) == [] && Without(actual, expected) == [] <==>
      forall x :: x in expected <==> x in actual
  {
    if !(forall x :: x in expected <==> x in actual) {
      var x :| !(x in expected <==> x in actual);
      if x in expected {
        assert x in Without(expected, actual);
      } else {
        assert x in Without(actual, expected);
      }
    } else {
      NoMembersEmpty(Without(expected, actual));
      NoMembersEmpty(Without(actual, expected));
    }
  }

  lemma NoMembersEmpty(s: seq<string>)
    ensures (forall x :: x !in s) ==> s == []
  {
    if s != [] {
      assert s[0] in s;
    }
  }

  /**
   * The success step of body validation: `req.body` becomes the cleaned body and `res` gets the
   * validating emitters for the route's response shape; the middleware then calls `next()`.
   */
  function AcceptBody(route: RouteEntry, cleaned: Value, ctx: Ctx): Stepped {
    Stepped(
      CallNext,
      Ctx(ctx.req.(body := cleaned), ctx.res.(wrappers := ctx.res.wrappers + [ResponseShape(route)])))
  }

  /** The handler wrapper: run the handler; a throw or a rejection becomes `next(err)`. */
  function PropagatingStep(h: Handler, ctx: Ctx): (s: Stepped)
    ensures !s.ending.Throws? && !s.ending.Rejects?
  {
    var (ending, res) := RunBehaviour(h(ctx.req), ctx.res);
    var ending' := match ending
      case Throws(e) => CallNextWith(e)
      case Rejects(e) => CallNextWith(e)
      case _ => ending;
    Stepped(ending', Ctx(ctx.req, res))
  }

  /** Each handler in its wrapper, in order. */
  function Wrapped<L>(hs: seq<Handler>, wrap: Handler -> L): (layers: seq<L>)
    ensures |layers| == |hs| && forall i :: 0 <= i < |hs| ==> layers[i] == wrap(hs[i])
  {
    seq(|hs|, i requires 0 <= i < |hs| => wrap(hs[i]))
  }

  /** A throwing or rejecting handler makes its wrapper call `next(err)` with that error; all else is kept. */
  lemma PropagatingForwards(h: Handler, ctx: Ctx)
    ensures var (ending, res) := RunBehaviour(h(ctx.req), ctx.res);
      && PropagatingStep(h, ctx).ctx == Ctx(ctx.req, res)
      && (ending.Throws? || ending.Rejects? ==> PropagatingStep(h, ctx).ending == CallNextWith(ending.err))
      && (!ending.Throws? && !ending.Rejects? ==> PropagatingStep(h, ctx).ending == ending)
  {
  }

  /** A patch installed last validates first and hands the cleaned value to the emitters below it. */
  lemma NewestPatchFirst(ws: seq<Shape>, s: Shape, v: Value)
    ensures ThroughWrappers(ws + [s], v) ==
      (if Valid(s, v) then ThroughWrappers(ws, Clean(s, v)) else Failure(ShapeMismatch))
  {
    assert (ws + [s])[..|ws|] == ws;
  }

  /** On a response patched once for `s`, `json` writes the cleaned body when it conforms and throws otherwise. */
  lemma PatchedJson(res: ResState, s: Shape, v: Value)
    requires res.wrappers == [s]
    ensures Valid(s, v) ==> ApplyEffect(res, ResJson(v)) == Success(Write(res, ViaJson, Clean(s, v)))
    ensures !Valid(s, v) ==> ApplyEffect(res, ResJson(v)) == Failure(ShapeMismatch)
    ensures Valid(s, v) ==> ApplyEffect(res, ResJsonp(v)) == Success(Write(res, ViaJsonp, Clean(s, v)))
    ensures !Valid(s, v) ==> ApplyEffect(res, ResJsonp(v)) == Failure(ShapeMismatch)
  {
    NewestPatchFirst([], s, v);
    assert [] + [s] == [s];
  }

  /** A patched `send` writes a string as it is, without validation, and sends anything else through `json`. */
  lemma PatchedSend(res: ResState, v: Value)
    requires res.wrappers != []
    ensures v.Str? ==> ApplyEffect(res, ResSend(v)) == Success(Write(res, ViaSend, v))
    ensures !v.Str? ==> ApplyEffect(res, ResSend(v)) == ApplyEffect(res, ResJson(v))
  {
  }
}
