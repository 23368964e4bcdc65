/** The JavaScript values that flow through requests and responses, and the errors that are thrown. */
module Json {

  /** A JSON-like value: what `req.body`, `req.params[...]` and response payloads hold. */
  datatype Value =
    | Undefined
    | Null
    | Bool(b: bool)
    | Num(n: int)
    | Str(s: string)
    | Arr(items: seq<Value>)
    | Obj(fields: map<string, Value>)

  /** What is thrown or passed to `next(err)`. */
  datatype Error =
    | Message(text: string)   // `new Error(text)` raised by this library
    | ShapeMismatch           // the validation engine's assertion error (its contents are not modelled)
    | NotAFunction            // the TypeError of calling `undefined`
    | PropertyOfUndefined     // the TypeError of reading a property of `undefined`
    | Thrown(value: Value)    // anything a user handler throws or rejects with
}
