/** The closed set of HTTP methods the keyed schema accepts (src/shared/methods.ts). */
module Methods {
  import opened Wrappers

  datatype Method = GET | POST | PUT | PATCH | DELETE

  /** The method's name as it appears in a route key. */
  function Name(m: Method): string {
    match m
    case GET => "GET"
    case POST => "POST"
    case PUT => "PUT"
    case PATCH => "PATCH"
    case DELETE => "DELETE"
  }

  /** `methods`, in declaration order. */
  const AllNames: seq<string> := ["GET", "POST", "PUT", "PATCH", "DELETE"]

  /** `methods.includes(s)`, returning the method it names. */
  function FromName(s: string): (r: Option<Method>)
    ensures r.Some? <==> s in AllNames
    ensures r.Some? ==> Name(r.value) == s
  {
    if s == "GET" then Some(GET)
    else if s == "POST" then Some(POST)
    else if s == "PUT" then Some(PUT)
    else if s == "PATCH" then Some(PATCH)
    else if s == "DELETE" then Some(DELETE)
    else None
  }

  /** Every method's name is recognised as that method, and no name contains a space. */
  lemma NameRoundTrip(m: Method)
    ensures FromName(Name(m)) == Some(m)
    ensures Name(m) in AllNames
    ensures ' ' !in Name(m) && |Name(m)| > 0
  {
  }

  lemma NameInjective(m1: Method, m2: Method)
    requires Name(m1) == Name(m2)
    ensures m1 == m2
  {
    NameRoundTrip(m1);
    NameRoundTrip(m2);
  }
}
