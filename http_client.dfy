/**
 * `createHttpClient` (src/client/create-http-client.ts): an object with `get`/`post`/`put`, each of
 * which builds the URL (path-to-regexp's `compile`, then a left-to-right rewrite of every `*` with the
 * next positional parameter), hands the request to the transport, and settles on the reply's status.
 * `compile` and the transport are parameters: they are foreign code.
 */
module HttpClient {
  import opened Wrappers
  import opened Json
  import opened Strings
  import opened Methods

  /** `Partial<HttpClientOptions>`; an absent field is `None`. */
  datatype ClientOptions = ClientOptions(baseURL: Option<string>, timeout: Option<int>, withCredentials: Option<bool>)

  /** What the transport instance is created with. */
  datatype TransportConfig = TransportConfig(baseURL: Option<string>, timeout: int, withCredentials: bool)

  /** The client: its transport configuration (the schema only shapes the static types). */
  datatype Client = Client(config: TransportConfig)

  /** The `info` argument: `params` and `body`, each `Undefined` when left out. */
  datatype RequestInfo = RequestInfo(params: Value, body: Value)

  /** One request as the transport receives it. */
  datatype TransportRequest = TransportRequest(httpMethod: Method, url: string, data: Value)

  /** A reply the transport resolves with. */
  datatype Reply = Reply(status: int, statusText: string, data: Value)

  /** The transport: a reply, or the error its promise rejects with. */
  type Transport = (TransportConfig, TransportRequest) -> Result<Reply, Error>

  /** path-to-regexp's `compile(path)(params)`: a URL, or the error it throws. */
  type Compile = (string, Value) -> Result<string, Error>

  /** The three entry points of the client object. */
  datatype Verb = Get | Post | Put

  function VerbMethod(v: Verb): Method {
    match v
    case Get => GET
    case Post => POST
    case Put => PUT
  }

  /** `get`, `post` and `put` send GET, POST and PUT, and no two send the same method. */
  lemma VerbMethods(v: Verb, w: Verb)
    ensures Name(VerbMethod(Get)) == "GET" && Name(VerbMethod(Post)) == "POST" && Name(VerbMethod(Put)) == "PUT"
    ensures VerbMethod(v) == VerbMethod(w) ==> v == w
  {
  }

  /** `createHttpClient(schema, options?)`: `baseURL` as given, `timeout` 0 and `withCredentials` false by default. */
  function CreateHttpClient(options: Option<ClientOptions>): Client {
    var o := options.GetOr(ClientOptions(None, None, None));
    Client(TransportConfig(o.baseURL, o.timeout.GetOr(0), o.withCredentials.GetOr(false)))
  }

  /** Without options the transport gets no base URL, no timeout and no credentials; given fields win. */
  lemma ClientDefaults(options: Option<ClientOptions>)
    ensures CreateHttpClient(None).config == TransportConfig(None, 0, false)
    ensures options.Some? && options.value.timeout.Some? ==> CreateHttpClient(options).config.timeout == options.value.timeout.value
    ensures options.Some? && options.value.timeout.None? ==> CreateHttpClient(options).config.timeout == 0
    ensures options.Some? && options.value.withCredentials.Some? ==>
      CreateHttpClient(options).config.withCredentials == options.value.withCredentials.value
    ensures options.Some? && options.value.withCredentials.None? ==> !CreateHttpClient(options).config.withCredentials
    ensures CreateHttpClient(options).config.baseURL == (if options.Some? then options.value.baseURL else None)
  {
  }

  /** `String(n)` for an integer. */
  function IntString(n: int): string {
    if n >= 0 then NatToString(n) else "-" + NatToString(-n)
  }

  /** `String(v)`: how a replacement value is turned into text. Array elements that are null or undefined print empty. */
  function ToJsString(v: Value): string
    decreases v
  {
    match v
    case Undefined => "undefined"
    case Null => "null"
    case Bool(b) => if b then "true" else "false"
    case Num(n) => IntString(n)
    case Str(s) => s
    case Arr(items) =>
      Join(seq(|items|, i requires 0 <= i < |items| =>
        if items[i].Undefined? || items[i].Null? then "" else ToJsString(items[i])), ",")
    case Obj(_) => "[object Object]"
  }

  /** `params[k]` for a numeric `k`: reading a property of undefined or null throws. */
  function Element(params: Value, k: nat): Result<Value, Error> {
    match params
    case Undefined => Failure(PropertyOfUndefined)
    case Null => Failure(PropertyOfUndefined)
    case Obj(fields) => Success(if NatToString(k) in fields then fields[NatToString(k)] else Undefined)
    case Arr(items) => Success(if k < |items| then items[k] else Undefined)
    case Str(s) => Success(if k < |s| then Str([s[k]]) else Undefined)
    case _ => Success(Undefined)
  }

  /** The replacement callback's value for counter value `k`, as text: parameter `k`, or "undefined" without `info`. */
  function Replacement(info: Option<RequestInfo>, k: nat): Result<string, Error> {
    if info.None? then Success("undefined")
    else
      match Element(info.value.params, k)
      case Failure(e) => Failure(e)
      case Success(v) => Success(ToJsString(v))
  }

  /** The counter after one callback: optional chaining skips `i++` when `info` is absent. */
  function NextCount(info: Option<RequestInfo>, k: nat): nat {
    if info.None? then k else k + 1
  }

  /** `r` with `prefix` in front of its text. */
  function Prepend(prefix: string, r: Result<string, Error>): Result<string, Error> {
    match r
    case Failure(e) => Failure(e)
    case Success(s) => Success(prefix + s)
  }

  /**
   * The global wildcard replacement from counter `k`: each `*`, left to right, becomes the callback's
   * value for the current counter, which is inserted as it is and not scanned again.
   */
  function Substituted(compiled: string, info: Option<RequestInfo>, k: nat): Result<string, Error>
    decreases |compiled|
  {
    if compiled == [] then Success("")
    else if compiled[0] == '*' then
      match Replacement(info, k)
      case Failure(e) => Failure(e)
      case Success(v) => Prepend(v, Substituted(compiled[1..], info, NextCount(info, k)))
    else Prepend([compiled[0]], Substituted(compiled[1..], info, k))
  }

  lemma PrependPrepend(a: string, b: string, r: Result<string, Error>)
    ensures Prepend(a, Prepend(b, r)) == Prepend(a + b, r)
  {
    if r.Success? {
      assert a + (b + r.value) == (a + b) + r.value;
    }
  }

  lemma PrependEmpty(r: Result<string, Error>)
    ensures Prepend("", r) == r
  {
    if r.Success? {
      assert "" + r.value == r.value;
    }
  }

  /** The rewrite as the source does it: one pass with a running counter. */
  method SubstituteWildcards(compiled: string, info: Option<RequestInfo>) returns (r: Result<string, Error>)
    ensures r == Substituted(compiled, info, 0)
  {
    var i: nat := 0;
    var url := "";
    var pos := 0;
    PrependEmpty(Substituted(compiled, info, 0));
    assert compiled[0..] == compiled;
    while pos < |compiled|
      invariant 0 <= pos <= |compiled|
      invariant Substituted(compiled, info, 0) == Prepend(url, Substituted(compiled[pos..], info, i))
      decreases |compiled| - pos
    {
      var rest := compiled[pos..];
      assert rest[1..] == compiled[pos + 1..];
      if compiled[pos] == '*' {
        var piece := Replacement(info, i);
        if piece.Failure? {
          return Failure(piece.error);
        }
        PrependPrepend(url, piece.value, Substituted(compiled[pos + 1..], info, NextCount(info, i)));
        url := url + piece.value;
        if info.Some? {
          i := i + 1;
        }
      } else {
        PrependPrepend(url, [compiled[pos]], Substituted(compiled[pos + 1..], info, i));
        url := url + [compiled[pos]];
      }
      pos := pos + 1;
    }
    assert compiled[pos..] == [];
    assert url + "" == url;
    r := Success(url);
  }

  /** Text without `*` comes back unchanged, and nothing is read from `info`. */
  lemma {:induction false} NoWildcardUnchanged(compiled: string, info: Option<RequestInfo>, k: nat)
    requires '*' !in compiled
    ensures Substituted(compiled, info, k) == Success(compiled)
    decreases |compiled|
  {
    if compiled != [] {
      NoWildcardUnchanged(compiled[1..], info, k);
      assert [compiled[0]] + compiled[1..] == compiled;
    }
  }

  /** A prefix without `*` is copied in front of the rewrite of what follows it. */
  lemma {:induction false} PlainPrefix(a: string, s: string, info: Option<RequestInfo>, k: nat)
    requires '*' !in a
    ensures Substituted(a + s, info, k) == Prepend(a, Substituted(s, info, k))
    decreases |a|
  {
    if a == [] {
      assert a + s == s;
      if Substituted(s, info, k).Success? {
        assert a + Substituted(s, info, k).value == Substituted(s, info, k).value;
      }
    } else {
      assert (a + s)[0] == a[0] && (a + s)[1..] == a[1..] + s;
      PlainPrefix(a[1..], s, info, k);
      PrependPrepend([a[0]], a[1..], Substituted(s, info, k));
      assert [a[0]] + a[1..] == a;
    }
  }

  /** The text of parameter `k` of an object `params`: `String(params[k])`, "undefined" when absent. */
  function Arg(fields: map<string, Value>, k: nat): string {
    ToJsString(if NatToString(k) in fields then fields[NatToString(k)] else Undefined)
  }

  /** `pieces` joined with, in place of the j-th separator, parameter `k + j`. */
  function Woven(pieces: seq<string>, fields: map<string, Value>, k: nat): string
    decreases |pieces|
  {
    if pieces == [] then ""
    else if |pieces| == 1 then pieces[0]
    else pieces[0] + Arg(fields, k) + Woven(pieces[1..], fields, k + 1)
  }

  /**
   * With `params` an object, a URL made of `*`-free pieces joined by `*` gets its j-th `*` (from the
   * left, counting from `k`) replaced by `String(params[k + j])`.
   */
  lemma {:induction false} WildcardsInOrder(pieces: seq<string>, fields: map<string, Value>, body: Value, k: nat)
    requires forall j :: 0 <= j < |pieces| ==> '*' !in pieces[j]
    ensures Substituted(Join(pieces, "*"), Some(RequestInfo(Obj(fields), body)), k) == Success(Woven(pieces, fields, k))
    decreases |pieces|
  {
    var info := Some(RequestInfo(Obj(fields), body));
    if pieces == [] {
    } else if |pieces| == 1 {
      NoWildcardUnchanged(pieces[0], info, k);
    } else {
      var tail := Join(pieces[1..], "*");
      var rest := Woven(pieces[1..], fields, k + 1);
      assert Join(pieces, "*") == pieces[0] + ("*" + tail);
      PlainPrefix(pieces[0], "*" + tail, info, k);
      WildcardsInOrder(pieces[1..], fields, body, k + 1);
      StarFromObject(tail, fields, body, k);
      PrependPrepend(pieces[0], Arg(fields, k), Success(rest));
      assert Woven(pieces, fields, k) == pieces[0] + Arg(fields, k) + rest;
    }
  }

  /** A leading `*` with `params` an object becomes parameter `k`; the rest continues from `k + 1`. */
  lemma StarFromObject(tail: string, fields: map<string, Value>, body: Value, k: nat)
    ensures Substituted("*" + tail, Some(RequestInfo(Obj(fields), body)), k)
      == Prepend(Arg(fields, k), Substituted(tail, Some(RequestInfo(Obj(fields), body)), k + 1))
  {
    var info := Some(RequestInfo(Obj(fields), body));
    assert ("*" + tail)[0] == '*' && ("*" + tail)[1..] == tail;
    assert Replacement(info, k) == Success(Arg(fields, k));
  }

  /** Example: a replacement value that itself holds `*` is inserted verbatim (an instance of `WildcardsInOrder`). */
  lemma VerbatimReplacement()
    ensures Substituted("/files/*", Some(RequestInfo(Obj(map["0" := Str("a*b")]), Undefined)), 0) == Success("/files/a*b")
  {
    var fields := map["0" := Str("a*b")];
    assert Join(["/files/", ""], "*") == "/files/*";
    WildcardsInOrder(["/files/", ""], fields, Undefined, 0);
    assert NatToString(0) == "0";
    assert Arg(fields, 0) == "a*b";
    assert Woven(["/files/", ""], fields, 0) == "/files/" + "a*b" + Woven([""], fields, 1);
    assert Woven([""], fields, 1) == "";
    assert "/files/" + "a*b" + "" == "/files/a*b";
    assert Substituted(Join(["/files/", ""], "*"), Some(RequestInfo(Obj(fields), Undefined)), 0) == Success("/files/a*b");
  }

  /** Without `info`, every `*` becomes the text "undefined". */
  lemma AbsentInfoWildcard(pieces: seq<string>)
    requires |pieces| == 2 && '*' !in pieces[0] && '*' !in pieces[1]
    ensures Substituted(pieces[0] + "*" + pieces[1], None, 0) == Success(pieces[0] + "undefined" + pieces[1])
  {
    PlainPrefix(pieces[0], "*" + pieces[1], None, 0);
    assert pieces[0] + "*" + pieces[1] == pieces[0] + ("*" + pieces[1]);
    assert ("*" + pieces[1])[1..] == pieces[1];
    NoWildcardUnchanged(pieces[1], None, 0);
    assert pieces[0] + ("undefined" + pieces[1]) == pieces[0] + "undefined" + pieces[1];
  }

  /** With `info` but no `params`, a URL holding `*` makes the request throw. */
  lemma {:induction false} AbsentParamsThrows(compiled: string, body: Value, k: nat)
    requires '*' in compiled
    ensures Substituted(compiled, Some(RequestInfo(Undefined, body)), k) == Failure(PropertyOfUndefined)
    decreases |compiled|
  {
    if compiled[0] != '*' {
      assert '*' in compiled[1..] by {
        var j :| 0 <= j < |compiled| && compiled[j] == '*';
        assert compiled[1..][j - 1] == '*';
      }
      AbsentParamsThrows(compiled[1..], body, k);
    }
  }

  const ServerErrorText := "There was an error communicating with the server: "

  /** The reply's settlement: status 400 or above throws, anything else yields the reply's data. */
  function Settle(reply: Reply): (r: Result<Value, Error>)
    ensures r.Success? <==> reply.status < 400
    ensures r.Success? ==> r.value == reply.data
  {
    if reply.status >= 400 then Failure(Message(ServerErrorText + IntString(reply.status) + " " + reply.statusText))
    else Success(reply.data)
  }

  /** The error of a failing status names it: two replies with the same status text fail alike exactly when their statuses agree. */
  lemma SettleErrorNamesStatus(a: Reply, b: Reply)
    requires a.status >= 400 && b.status >= 400 && a.statusText == b.statusText
    ensures Settle(a) == Settle(b) <==> a.status == b.status
  {
    if Settle(a) == Settle(b) {
      var pa := ServerErrorText + NatToString(a.status);
      var pb := ServerErrorText + NatToString(b.status);
      assert pa + " " + a.statusText == pb + " " + b.statusText;
      DigitsThenSpace(ServerErrorText, NatToString(a.status), NatToString(b.status), a.statusText);
      NatToStringInjective(a.status, b.status);
    }
  }

  /** Two decimal numerals each followed by a space and the same text are equal when the whole strings are. */
  lemma DigitsThenSpace(p: string, x: string, y: string, t: string)
    requires forall i :: 0 <= i < |x| ==> '0' <= x[i] <= '9'
    requires forall i :: 0 <= i < |y| ==> '0' <= y[i] <= '9'
    requires p + x + " " + t == p + y + " " + t
    ensures x == y
  {
    var s := p + x + " " + t;
    assert |s| == |p| + |x| + 1 + |t|;
    assert x == s[|p|..|p| + |x|];
    assert y == (p + y + " " + t)[|p|..|p| + |y|];
  }

  /** The transport request for a URL: the method, the URL and, as data, the body of `info` when given. */
  function Outgoing(m: Method, url: string, info: Option<RequestInfo>): TransportRequest {
    TransportRequest(m, url, if info.Some? then info.value.body else Undefined)
  }

  /** `request(method, path, info?)`: compile, rewrite the wildcards, send, settle; the first error wins. */
  function RequestOutcome(client: Client, m: Method, path: string, info: Option<RequestInfo>,
                          compile: Compile, transport: Transport): Result<Value, Error> {
    match compile(path, if info.Some? then info.value.params else Undefined)
    case Failure(e) => Failure(e)
    case Success(compiled) =>
      match Substituted(compiled, info, 0)
      case Failure(e) => Failure(e)
      case Success(url) =>
        match transport(client.config, Outgoing(m, url, info))
        case Failure(e) => Failure(e)
        case Success(reply) => Settle(reply)
  }

  /** `client.get(path, info?)`, `client.post(…)`, `client.put(…)`: `request` with the entry point's method. */
  method Request(client: Client, verb: Verb, path: string, info: Option<RequestInfo>,
                 compile: Compile, transport: Transport) returns (r: Result<Value, Error>)
    ensures r == RequestOutcome(client, VerbMethod(verb), path, info, compile, transport)
  {
    var compiled := compile(path, if info.Some? then info.value.params else Undefined);
    if compiled.Failure? {
      return Failure(compiled.error);
    }
    var url := SubstituteWildcards(compiled.value, info);
    if url.Failure? {
      return Failure(url.error);
    }
    var reply := transport(client.config, Outgoing(VerbMethod(verb), url.value, info));
    if reply.Failure? {
      return Failure(reply.error);
    }
    r := Settle(reply.value);
  }

  /**
   * A path without wildcards is sent as compiled, with the entry point's method and the body as given;
   * the outcome is the reply's data when its status is below 400 and an error otherwise.
   */
  lemma PlainRequest(client: Client, verb: Verb, path: string, info: Option<RequestInfo>,
                     compile: Compile, transport: Transport)
    requires compile(path, if info.Some? then info.value.params else Undefined).Success?
    requires '*' !in compile(path, if info.Some? then info.value.params else Undefined).value
    requires transport(client.config, Outgoing(VerbMethod(verb), compile(path, if info.Some? then info.value.params else Undefined).value, info)).Success?
    ensures var reply := transport(client.config,
      Outgoing(VerbMethod(verb), compile(path, if info.Some? then info.value.params else Undefined).value, info)).value;
      && (reply.status < 400 ==> RequestOutcome(client, VerbMethod(verb), path, info, compile, transport) == Success(reply.data))
      && (reply.status >= 400 ==> RequestOutcome(client, VerbMethod(verb), path, info, compile, transport).Failure?)
  {
    NoWildcardUnchanged(compile(path, if info.Some? then info.value.params else Undefined).value, info, 0);
  }
}
