/**
 * `httpSchema` (src/http-schema.ts): the older, array form of a schema. It is checked up front and
 * returned as given: no two routes may share a method and path, and the parameters parsed from each
 * path must match the names the route declares.
 */
module ArraySchema {
  import opened Wrappers
  import opened Shapes
  import opened Strings
  import opened Methods
  import opened PathPattern

  /** One element of the array: `RouteInfo` of src/http-schema.ts. */
  datatype ArrayRoute = ArrayRoute(
    httpMethod: Method,
    path: string,
    paramNames: Option<seq<string>>,
    requestPayload: Option<Shape>,
    responsePayload: Option<Shape>)

  datatype ArraySchemaError = DuplicateCombo(combo: string) | ParamMismatch(httpMethod: Method, path: string)

  function ErrorMessage(e: ArraySchemaError): string {
    match e
    case DuplicateCombo(c) => "Duplicate method/path combination '" + c + "' in schema"
    case ParamMismatch(m, p) => "Param names don't match in path and params for route '" + Name(m) + " " + p + "'"
  }

  /** The string the duplicate check keys on: method, one space, path. */
  function Combo(route: ArrayRoute): string {
    Name(route.httpMethod) + " " + route.path
  }

  /** The names of the keys path-to-regexp finds in `path` (no wildcard rewrite in this version). */
  function PathNames(path: string): seq<KeyName> {
    var keys := Keys(Parse(path, 0));
    seq(|keys|, i requires 0 <= i < |keys| => keys[i].name)
  }

  /**
   * The parameter comparison: as many parsed names as declared ones, and every parsed name among the
   * declared ones. `includes` compares without conversion, so the number naming an unnamed group is
   * never equal to a declared string.
   */
  predicate NamesMatch(pathNames: seq<KeyName>, declared: seq<string>) {
    && |pathNames| == |declared|
    && forall i :: 0 <= i < |pathNames| ==> pathNames[i].Named? && pathNames[i].name in declared
  }

  /** The parameter check for one route; absent `paramNames` counts as none. */
  predicate ParamsMatch(route: ArrayRoute) {
    NamesMatch(PathNames(route.path), route.paramNames.GetOr([]))
  }

  /** The combinations of the routes before `i`. */
  function CombosBefore(schema: seq<ArrayRoute>, i: nat): set<string>
    requires i <= |schema|
  {
    set j | 0 <= j < i :: Combo(schema[j])
  }

  /** The error route `i` raises once the routes before it have passed, or `None`. */
  function RouteError(schema: seq<ArrayRoute>, i: nat): Option<ArraySchemaError>
    requires i < |schema|
  {
    var route := schema[i];
    if Combo(route) in CombosBefore(schema, i) then Some(DuplicateCombo(Combo(route)))
    else if !ParamsMatch(route) then Some(ParamMismatch(route.httpMethod, route.path))
    else None
  }

  /** Every route before `i` passes and route `i` raises `e`. */
  predicate FailsFirstAt(schema: seq<ArrayRoute>, i: nat, e: ArraySchemaError)
    requires i < |schema|
  {
    (forall j :: 0 <= j < i ==> RouteError(schema, j).None?) && RouteError(schema, i) == Some(e)
  }

  /**
   * `httpSchema(schema)`: the loop keeps the set of combinations seen so far and throws at the first
   * route that repeats one or whose parameters do not match; otherwise the schema is returned as is.
   */
  method HttpSchema(schema: seq<ArrayRoute>) returns (r: Result<seq<ArrayRoute>, ArraySchemaError>)
    ensures r.Success? <==> forall i :: 0 <= i < |schema| ==> RouteError(schema, i).None?
    ensures r.Success? ==> r.value == schema
    ensures r.Failure? ==> exists i :: 0 <= i < |schema| && FailsFirstAt(schema, i, r.error)
  {
    var combos: set<string> := {};
    var i := 0;
    while i < |schema|
      invariant 0 <= i <= |schema|
      invariant combos == CombosBefore(schema, i)
      invariant forall j :: 0 <= j < i ==> RouteError(schema, j).None?
    {
      var route := schema[i];
      // No duplicate method/path combinations.
      var combo := Name(route.httpMethod) + " " + route.path;
      if combo in combos {
        assert FailsFirstAt(schema, i, DuplicateCombo(combo));
        return Failure(DuplicateCombo(combo));
      }
      combos := combos + {combo};
      // The parsed parameter names against the declared ones.
      var pathNames := PathNames(route.path);
      var declared := route.paramNames.GetOr([]);
      var mismatch := |pathNames| != |declared|;
      mismatch := mismatch || !(forall k :: 0 <= k < |pathNames| ==> pathNames[k].Named? && pathNames[k].name in declared);
      if mismatch {
        assert FailsFirstAt(schema, i, ParamMismatch(route.httpMethod, route.path));
        return Failure(ParamMismatch(route.httpMethod, route.path));
      }
      assert CombosBefore(schema, i + 1) == CombosBefore(schema, i) + {combo};
      i := i + 1;
    }
    return Success(schema);
  }

  /** Method names hold no space, so a combination determines its method and path. */
  lemma ComboInjective(a: ArrayRoute, b: ArrayRoute)
    requires Combo(a) == Combo(b)
    ensures a.httpMethod == b.httpMethod && a.path == b.path
  {
    NameRoundTrip(a.httpMethod);
    NameRoundTrip(b.httpMethod);
    SplitPrefix(Name(a.httpMethod), a.path);
    SplitPrefix(Name(b.httpMethod), b.path);
    NameInjective(a.httpMethod, b.httpMethod);
  }

  /** The text before the first space of `w + " " + rest` is `w` when `w` has no space. */
  lemma SplitPrefix(w: string, rest: string)
    requires ' ' !in w
    ensures IndexOf(w + " " + rest, ' ') == |w|
    ensures (w + " " + rest)[..|w|] == w && (w + " " + rest)[|w| + 1..] == rest
  {
    var s := w + " " + rest;
    assert s[|w|] == ' ';
    assert s[..|w|] == w;
  }

  /** A route is reported as a duplicate exactly when an earlier route has the same method and path. */
  lemma DuplicateIff(schema: seq<ArrayRoute>, j: nat)
    requires j < |schema|
    ensures (RouteError(schema, j) == Some(DuplicateCombo(Combo(schema[j])))) <==>
      exists i :: 0 <= i < j && schema[i].httpMethod == schema[j].httpMethod && schema[i].path == schema[j].path
  {
    if Combo(schema[j]) in CombosBefore(schema, j) {
      var i :| 0 <= i < j && Combo(schema[i]) == Combo(schema[j]);
      ComboInjective(schema[i], schema[j]);
    }
  }

  /** So a schema with two routes of the same method and path is rejected. */
  lemma DuplicateRejected(schema: seq<ArrayRoute>, i: nat, j: nat)
    requires i < j < |schema|
    requires schema[i].httpMethod == schema[j].httpMethod && schema[i].path == schema[j].path
    ensures !(forall k :: 0 <= k < |schema| ==> RouteError(schema, k).None?)
  {
    DuplicateIff(schema, j);
  }

  /** Direct consequence of the length comparison: a different number of declared names is rejected. */
  lemma LengthMismatchRejected(pathNames: seq<KeyName>, declared: seq<string>)
    requires |pathNames| != |declared|
    ensures !NamesMatch(pathNames, declared)
  {
  }

  /** Direct consequence of the membership test: a parsed name missing from the declared names is rejected. */
  lemma MissingNameRejected(pathNames: seq<KeyName>, declared: seq<string>, k: nat)
    requires k < |pathNames| && pathNames[k].Named? && pathNames[k].name !in declared
    ensures !NamesMatch(pathNames, declared)
  {
  }

  /** An unnamed group never matches any declared name. */
  lemma UnnamedGroupRejected(pathNames: seq<KeyName>, declared: seq<string>, k: nat)
    requires k < |pathNames| && pathNames[k].Index?
    ensures !NamesMatch(pathNames, declared)
  {
  }

  /** Order is irrelevant: declaring any rearrangement of the parsed names is accepted. */
  lemma PermutationAccepted(names: seq<string>, declared: seq<string>)
    requires multiset(names) == multiset(declared)
    ensures NamesMatch(seq(|names|, i requires 0 <= i < |names| => Named(names[i])), declared)
  {
    var pathNames := seq(|names|, i requires 0 <= i < |names| => Named(names[i]));
    assert |names| == |multiset(names)| == |multiset(declared)| == |declared|;
    forall i | 0 <= i < |pathNames|
      ensures pathNames[i].name in declared
    {
      assert names[i] in multiset(names);
      assert names[i] in multiset(declared);
    }
  }

  /**
   * The comparison is by length and membership, not as multisets: a path naming `a` twice accepts the
   * declared names `a` and `b`.
   */
  lemma RepeatedNameAccepted()
    ensures NamesMatch([Named("a"), Named("a")], ["a", "b"])
    ensures multiset(["a", "a"]) != multiset(["a", "b"])
  {
    assert "b" !in multiset(["a", "a"]);
  }

  /** A path of plain text ending in one `:name` passes exactly when `name` is the only declared name. */
  lemma SingleParamRoute(m: Method, prefix: string, name: string, declared: Option<seq<string>>)
    requires forall i :: 0 <= i < |prefix| ==> PlainChar(prefix[i])
    requires name != [] && forall i :: 0 <= i < |name| ==> IsWordChar(name[i])
    ensures ParamsMatch(ArrayRoute(m, prefix + ":" + name, declared, None, None)) <==> declared.GetOr([]) == [name]
  {
    PlainPrefixKeys(prefix, ":" + name, 0);
    TrailingKey(name, 0);
    assert prefix + ":" + name == prefix + (":" + name);
    var pathNames := PathNames(prefix + ":" + name);
    assert pathNames == [Named(name)];
    var d := declared.GetOr([]);
    var route := ArrayRoute(m, prefix + ":" + name, declared, None, None);
    assert ParamsMatch(route) == NamesMatch([Named(name)], d);
    if d == [name] {
      assert NamesMatch([Named(name)], d);
      assert ParamsMatch(route);
    } else if |d| == 1 {
      assert d == [d[0]];
      assert name !in d;
      assert !NamesMatch([Named(name)], d) by {
        assert [Named(name)][0] == Named(name);
      }
    }
  }

  /** Direct consequence of the empty default: without declared names, only a path without parameters passes. */
  lemma AbsentNamesMeansNone(route: ArrayRoute)
    requires route.paramNames.None?
    ensures ParamsMatch(route) <==> PathNames(route.path) == []
  {
  }
}
