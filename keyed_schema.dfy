/**
 * `createHttpSchema` (src/shared/create-http-schema.ts): builds the keyed schema from an object whose
 * keys are `"METHOD PATH"` strings, validating each key and deriving its named parameters.
 */
module KeyedSchema {
  import opened Wrappers
  import opened Shapes
  import opened Strings
  import opened Methods
  import opened PathPattern

  /** The value under one route key: the optional body shapes. */
  datatype RouteSpec = RouteSpec(requestBody: Option<Shape>, responseBody: Option<Shape>)

  /** One property of the `routeSpecs` object; the object is the sequence of these in key order. */
  datatype Entry = Entry(route: string, spec: RouteSpec)

  /** `RouteInfo` (src/shared/route-info.ts). */
  datatype RouteInfo = RouteInfo(
    httpMethod: Method,
    path: string,
    namedParams: seq<string>,
    requestBody: Shape,
    responseBody: Shape)

  /** The three errors construction throws. */
  datatype SchemaError = BadRouteFormat | UnsupportedMethod(given: string) | UnsupportedParam

  function ErrorMessage(e: SchemaError): string {
    match e
    case BadRouteFormat => "Route must be specified using the format '{METHOD} {PATH}'"
    case UnsupportedMethod(m) => "Unsupported method '" + m + "'. Expected one of: " + Join(AllNames, ", ")
    case UnsupportedParam => "Optional/repeated parameters are not supported"
  }

  /** `String(p.name)`: a named key's name, or the decimal form of an unnamed key's number. */
  function KeyNameString(n: KeyName): string {
    match n
    case Named(s) => s
    case Index(k) => NatToString(k)
  }

  /** The keys path-to-regexp finds in `path` once every `*` is rewritten to `(.*)`. */
  function PathKeys(path: string): seq<Token> {
    Keys(Parse(ReplaceStars(path), 0))
  }

  /** Some key is optional or repeating. */
  predicate HasUnsupportedKey(keys: seq<Token>)
    requires forall i :: 0 <= i < |keys| ==> keys[i].Key?
  {
    exists i :: 0 <= i < |keys| && (keys[i].optional || keys[i].repeat)
  }

  /** `namedParams` for `path`, or the error for an optional/repeating key. */
  function NamedParams(path: string): Result<seq<string>, SchemaError> {
    ParamNames(PathKeys(path))
  }

  /** The names of `keys` in order, or the error when one of them is optional or repeating. */
  function ParamNames(keys: seq<Token>): (r: Result<seq<string>, SchemaError>)
    requires forall i :: 0 <= i < |keys| ==> keys[i].Key?
    ensures r.Failure? <==> HasUnsupportedKey(keys)
    ensures r.Failure? ==> r.error == UnsupportedParam
    ensures r.Success? ==> |r.value| == |keys| && forall i :: 0 <= i < |keys| ==> r.value[i] == KeyNameString(keys[i].name)
  {
    if keys == [] then Success([])
    else if keys[0].optional || keys[0].repeat then Failure(UnsupportedParam)
    else
      match ParamNames(keys[1..])
      case Failure(e) => Failure(e)
      case Success(names) => Success([KeyNameString(keys[0].name)] + names)
  }

  /** The entry one route key produces, or the error it throws: the reference for one loop iteration. */
  function RouteInfoFor(route: string, spec: RouteSpec): Result<RouteInfo, SchemaError> {
    var parts := Split(route, ' ');
    if |parts| != 2 then Failure(BadRouteFormat)
    else
      match FromName(parts[0])
      case None => Failure(UnsupportedMethod(parts[0]))
      case Some(m) =>
        match NamedParams(parts[1])
        case Failure(e) => Failure(e)
        case Success(names) =>
          Success(RouteInfo(m, parts[1], names, spec.requestBody.GetOr(Unknown), spec.responseBody.GetOr(Unknown)))
  }

  /**
   * A key is rejected as malformed exactly when it does not hold exactly one space; an accepted key's
   * method and path are its two halves, and absent body shapes default to accept-anything.
   */
  lemma RouteInfoForMeaning(route: string, spec: RouteSpec)
    ensures RouteInfoFor(route, spec) == Failure(BadRouteFormat) <==> Count(route, ' ') != 1
    ensures RouteInfoFor(route, spec).Success? ==>
      var info := RouteInfoFor(route, spec).value;
      && Name(info.httpMethod) + " " + info.path == route
      && info.requestBody == spec.requestBody.GetOr(Unknown)
      && info.responseBody == spec.responseBody.GetOr(Unknown)
  {
    SplitLength(route, ' ');
    if |Split(route, ' ')| == 2 {
      SplitJoin(route);
    }
  }

  /** A key with exactly one space is the two parts `split` returns, joined by that space. */
  lemma SplitJoin(route: string)
    requires |Split(route, ' ')| == 2
    ensures Split(route, ' ')[0] + " " + Split(route, ' ')[1] == route
  {
    var i := IndexOf(route, ' ');
    assert Split(route[i + 1..], ' ') == [route[i + 1..]];
    assert route == route[..i] + " " + route[i + 1..];
  }

  /** Every key before `i` is accepted and key `i` throws `e`. */
  predicate FailsFirstAt(routeSpecs: seq<Entry>, i: nat, e: SchemaError)
    requires i < |routeSpecs|
  {
    && (forall j :: 0 <= j < i ==> RouteInfoFor(routeSpecs[j].route, routeSpecs[j].spec).Success?)
    && RouteInfoFor(routeSpecs[i].route, routeSpecs[i].spec) == Failure(e)
  }

  /**
   * `createHttpSchema(routeSpecs)`. The loop fills `schema` one key at a time and throws at the
   * first bad key, so either every key yields its entry under the same key or nothing is returned.
   */
  method CreateHttpSchema(routeSpecs: seq<Entry>) returns (r: Result<map<string, RouteInfo>, SchemaError>)
    requires forall i, j :: 0 <= i < j < |routeSpecs| ==> routeSpecs[i].route != routeSpecs[j].route
    ensures r.Success? <==>
      forall i :: 0 <= i < |routeSpecs| ==> RouteInfoFor(routeSpecs[i].route, routeSpecs[i].spec).Success?
    ensures r.Success? ==> r.value.Keys == set i | 0 <= i < |routeSpecs| :: routeSpecs[i].route
    ensures r.Success? ==> forall i :: 0 <= i < |routeSpecs| ==>
      r.value[routeSpecs[i].route] == RouteInfoFor(routeSpecs[i].route, routeSpecs[i].spec).value
    ensures r.Failure? ==>
      exists i :: 0 <= i < |routeSpecs| && FailsFirstAt(routeSpecs, i, r.error)
  {
    ghost var outcomes := OutcomesOf(routeSpecs);
    var schema: map<string, RouteInfo> := map[];
    var i := 0;
    while i < |routeSpecs|
      invariant 0 <= i <= |routeSpecs|
      invariant forall j :: 0 <= j < i ==> outcomes[j].Success?
      invariant schema.Keys == set j | 0 <= j < i :: routeSpecs[j].route
      invariant forall j :: 0 <= j < i ==> schema[routeSpecs[j].route] == outcomes[j].value
    {
      var route := routeSpecs[i].route;
      var outcome := EntryFor(routeSpecs, i, outcomes);
      if outcome.Failure? {
        FailsHere(routeSpecs, i, outcomes);
        return Failure(outcome.error);
      }
      SchemaStep(routeSpecs, outcomes, i, schema);
      schema := schema[route := outcome.value];
      i := i + 1;
    }
    return Success(schema);
  }

  /** Split key `i`, check its method, derive its named params and default its body shapes. */
  method EntryFor(routeSpecs: seq<Entry>, i: nat, ghost outcomes: seq<Result<RouteInfo, SchemaError>>)
    returns (outcome: Result<RouteInfo, SchemaError>)
    requires i < |routeSpecs| == |outcomes|
    requires forall j {:trigger RouteInfoFor(routeSpecs[j].route, routeSpecs[j].spec)} :: 0 <= j < |routeSpecs| ==>
      outcomes[j] == RouteInfoFor(routeSpecs[j].route, routeSpecs[j].spec)
    ensures outcome == outcomes[i]
  {
    outcome := RouteInfoFor(routeSpecs[i].route, routeSpecs[i].spec);
  }

  /** Key `i` is the first to throw when every earlier key was accepted and key `i` was not. */
  lemma FailsHere(routeSpecs: seq<Entry>, i: nat, outcomes: seq<Result<RouteInfo, SchemaError>>)
    requires i < |routeSpecs| == |outcomes|
    requires forall j {:trigger RouteInfoFor(routeSpecs[j].route, routeSpecs[j].spec)} :: 0 <= j < |routeSpecs| ==>
      outcomes[j] == RouteInfoFor(routeSpecs[j].route, routeSpecs[j].spec)
    requires forall j :: 0 <= j < i ==> outcomes[j].Success?
    requires outcomes[i].Failure?
    ensures FailsFirstAt(routeSpecs, i, outcomes[i].error)
  {
    forall j | 0 <= j < i
      ensures RouteInfoFor(routeSpecs[j].route, routeSpecs[j].spec).Success?
    {
      assert outcomes[j].Success?;
    }
  }

  /** One loop iteration: adding key `i`'s entry keeps the schema equal to the entries of keys `0..i`. */
  lemma SchemaStep(routeSpecs: seq<Entry>, outcomes: seq<Result<RouteInfo, SchemaError>>, i: nat,
                   schema: map<string, RouteInfo>)
    requires forall i, j :: 0 <= i < j < |routeSpecs| ==> routeSpecs[i].route != routeSpecs[j].route
    requires |outcomes| == |routeSpecs| && i < |routeSpecs| && outcomes[i].Success?
    requires schema.Keys == set j | 0 <= j < i :: routeSpecs[j].route
    requires forall j :: 0 <= j < i ==> outcomes[j].Success? && schema[routeSpecs[j].route] == outcomes[j].value
    ensures var next := schema[routeSpecs[i].route := outcomes[i].value];
      && next.Keys == (set j | 0 <= j < i + 1 :: routeSpecs[j].route)
      && forall j :: 0 <= j < i + 1 ==> next[routeSpecs[j].route] == outcomes[j].value
  {
    var route := routeSpecs[i].route;
    var next := schema[route := outcomes[i].value];
    forall j | 0 <= j < i
      ensures next[routeSpecs[j].route] == outcomes[j].value
    {
      assert routeSpecs[j].route != route;
    }
    assert (set j | 0 <= j < i + 1 :: routeSpecs[j].route) == (set j | 0 <= j < i :: routeSpecs[j].route) + {route};
  }

  /** What each key produces, in key order; the connecting fact fires only on an existing `RouteInfoFor` term. */
  lemma OutcomesOf(routeSpecs: seq<Entry>) returns (outcomes: seq<Result<RouteInfo, SchemaError>>)
    ensures |outcomes| == |routeSpecs|
    ensures forall j {:trigger RouteInfoFor(routeSpecs[j].route, routeSpecs[j].spec)} :: 0 <= j < |routeSpecs| ==>
      outcomes[j] == RouteInfoFor(routeSpecs[j].route, routeSpecs[j].spec)
  {
    outcomes := seq(|routeSpecs|, j requires 0 <= j < |routeSpecs| => RouteInfoFor(routeSpecs[j].route, routeSpecs[j].spec));
  }

  /** A key whose halves are a supported method and a space-free path is accepted exactly when its path is. */
  lemma RouteKeyRoundTrip(m: Method, path: string, spec: RouteSpec)
    requires ' ' !in path
    ensures RouteInfoFor(Name(m) + " " + path, spec).Success? <==> NamedParams(path).Success?
    ensures NamedParams(path).Success? ==>
      RouteInfoFor(Name(m) + " " + path, spec)
        == Success(RouteInfo(m, path, NamedParams(path).value, spec.requestBody.GetOr(Unknown), spec.responseBody.GetOr(Unknown)))
  {
    NameRoundTrip(m);
    SplitTwo(Name(m), ' ', path);
    assert Name(m) + " " + path == Name(m) + [' '] + path;
  }

  /** With exactly one space, a first half outside GET, POST, PUT, PATCH, DELETE is rejected with that half. */
  lemma UnsupportedMethodRejected(route: string, spec: RouteSpec)
    requires Count(route, ' ') == 1
    requires Split(route, ' ')[0] !in AllNames
    ensures RouteInfoFor(route, spec) == Failure(UnsupportedMethod(Split(route, ' ')[0]))
  {
    SplitLength(route, ' ');
  }

  /** A supported key is rejected exactly when some key parsed from its path is optional or repeating. */
  lemma UnsupportedParamRejected(m: Method, path: string, spec: RouteSpec)
    requires ' ' !in path
    ensures RouteInfoFor(Name(m) + " " + path, spec) == Failure(UnsupportedParam)
        <==> HasUnsupportedKey(PathKeys(path))
  {
    RouteKeyRoundTrip(m, path, spec);
    NameRoundTrip(m);
    SplitTwo(Name(m), ' ', path);
    assert Name(m) + " " + path == Name(m) + [' '] + path;
  }

  /** `"0"`, `"1"`, …: the names positional parameters get. */
  function PositionalNames(n: nat): seq<string>
  {
    seq(n, i requires 0 <= i < n => NatToString(i))
  }

  /** Each `*` of an otherwise plain path becomes a positional parameter, named `"0"`, `"1"`, … from the left. */
  lemma WildcardNamedParams(path: string)
    requires forall i :: 0 <= i < |path| ==> PlainChar(path[i])
    ensures NamedParams(path) == Success(PositionalNames(Count(path, '*')))
  {
    var n := Count(path, '*');
    WildcardKeys(path, 0);
    IndexKeysLength(0, n);
    var keys := PathKeys(path);
    forall i | 0 <= i < n
      ensures keys[i] == Key(Index(i), false, false)
    {
      IndexKeysAt(0, n, i);
    }
    assert !HasUnsupportedKey(keys);
    assert NamedParams(path).value == PositionalNames(n);
  }

  /** Example, the route `GET *` of the test schema: one positional parameter, `"0"` (an instance of `WildcardNamedParams`). */
  lemma WildcardRoute(spec: RouteSpec)
    ensures RouteInfoFor("GET *", spec).Success?
    ensures RouteInfoFor("GET *", spec).value.namedParams == ["0"]
  {
    StarParams();
    assert Name(GET) + " " + "*" == "GET *";
    RouteKeyRoundTrip(GET, "*", spec);
  }

  /** The path `*` alone: the one positional parameter `"0"`. */
  lemma StarParams()
    ensures NamedParams("*") == Success(["0"])
  {
    assert multiset("*")['*'] == 1;
    WildcardNamedParams("*");
    assert NatToString(0) == "0";
    assert PositionalNames(1) == [NatToString(0)];
  }

  /** The keys of plain text followed by one `:name` at its end: that one plain named key. */
  lemma TrailingPathKeys(prefix: string, name: string)
    requires forall i :: 0 <= i < |prefix| ==> PlainChar(prefix[i]) && prefix[i] != '*'
    requires name != [] && forall i :: 0 <= i < |name| ==> IsWordChar(name[i])
    ensures PathKeys(prefix + ":" + name) == [Key(Named(name), false, false)]
  {
    var tail := ":" + name;
    var path := prefix + tail;
    assert prefix + ":" + name == path;
    assert forall i :: 0 <= i < |path| ==> path[i] != '*' by {
      forall i | 0 <= i < |path|
        ensures path[i] != '*'
      {
        if i >= |prefix| {
          assert path[i] == tail[i - |prefix|];
        }
      }
    }
    NoStarsUnchanged(path);
    PlainPrefixKeys(prefix, tail, 0);
    TrailingKey(name, 0);
    KeysOfKey(Key(Named(name), false, false));
  }

  /** A path that is plain text followed by one `:name` at its end has exactly that parameter. */
  lemma TrailingNamedParam(prefix: string, name: string)
    requires forall i :: 0 <= i < |prefix| ==> PlainChar(prefix[i]) && prefix[i] != '*'
    requires name != [] && forall i :: 0 <= i < |name| ==> IsWordChar(name[i])
    ensures NamedParams(prefix + ":" + name) == Success([name])
  {
    TrailingPathKeys(prefix, name);
    var keys := [Key(Named(name), false, false)];
    assert !HasUnsupportedKey(keys);
    var r := ParamNames(keys);
    assert |r.value| == 1 && r.value[0] == name;
    assert r.value == [name];
  }

  /** Example: the route `/greet/:name` has the one parameter `name` (an instance of `TrailingNamedParam`). */
  lemma GreetRoute()
    ensures NamedParams("/greet/:name") == Success(["name"])
  {
    TrailingNamedParam("/greet/", "name");
    assert "/greet/" + ":" + "name" == "/greet/:name";
  }

  /** A `?` or `+` after a named parameter makes the path unsupported, whatever plain text precedes it. */
  lemma ModifiedParamRejected(prefix: string, name: string, m: char)
    requires forall i :: 0 <= i < |prefix| ==> PlainChar(prefix[i]) && prefix[i] != '*'
    requires name != [] && forall i :: 0 <= i < |name| ==> IsWordChar(name[i])
    requires m == '?' || m == '+'
    ensures NamedParams(prefix + ":" + name + [m]) == Failure(UnsupportedParam)
  {
    ModifiedParamKeys(prefix, name, m);
    var key := ModifiedKey(Named(name), [m]);
    assert [key][0].optional || [key][0].repeat;
    assert HasUnsupportedKey([key]);
  }

  /** Behind a plain prefix, `:name?` or `:name+` parses to the one modified key. */
  lemma ModifiedParamKeys(prefix: string, name: string, m: char)
    requires forall i :: 0 <= i < |prefix| ==> PlainChar(prefix[i]) && prefix[i] != '*'
    requires name != [] && forall i :: 0 <= i < |name| ==> IsWordChar(name[i])
    requires m == '?' || m == '+'
    ensures PathKeys(prefix + ":" + name + [m]) == [ModifiedKey(Named(name), [m])]
  {
    var tail := ":" + name + [m];
    var path := prefix + tail;
    assert prefix + ":" + name + [m] == path;
    assert forall i :: 0 <= i < |path| ==> path[i] != '*' by {
      forall i | 0 <= i < |path|
        ensures path[i] != '*'
      {
        if i >= |prefix| {
          assert path[i] == tail[i - |prefix|];
        }
      }
    }
    NoStarsUnchanged(path);
    PlainPrefixKeys(prefix, tail, 0);
    ModifiedKeyParse(name, m, 0);
    KeysOfKey(ModifiedKey(Named(name), [m]));
  }

  /** Example: `/:id?` and `/:id+` are both refused (instances of `ModifiedParamRejected`). */
  lemma OptionalParamRejected()
    ensures NamedParams("/:id?") == Failure(UnsupportedParam)
    ensures NamedParams("/:id+") == Failure(UnsupportedParam)
  {
    ModifiedParamRejected("/", "id", '?');
    ModifiedParamRejected("/", "id", '+');
    assert "/" + ":" + "id" + ['?'] == "/:id?";
    assert "/" + ":" + "id" + ['+'] == "/:id+";
  }
}
