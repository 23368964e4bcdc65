/**
 * The value-shape engine (rtti `assert`/`removeExcessProperties`, zod `parse`) seen only through
 * its interface: a validity test and a cleaning function. The three defaults the library itself
 * names are given meanings; every other shape is declared by the caller and stays abstract.
 */
module Shapes {
  import opened Json
  import opened Wrappers

  datatype Shape =
    | Unknown                                                // `z.unknown()` / `t.unknown`: accepts anything
    | Undefined                                              // `t.undefined`: accepts only `undefined`
    | EmptyObject                                            // `t.object({})`: any object, cleaned to `{}`
    | Declared(accepts: Value -> bool, strip: Value -> Value) // a caller's shape

  /** Does `v` conform to `s` (the engine's assertion would not throw)? */
  predicate Valid(s: Shape, v: Value) {
    match s
    case Unknown => true
    case Undefined => v == Value.Undefined
    case EmptyObject => v.Obj?
    case Declared(accepts, _) => accepts(v)
  }

  /** The cleaned copy of a conforming value: undeclared properties removed (for zod, the parse output). */
  function Clean(s: Shape, v: Value): Value {
    match s
    case Unknown => v
    case Undefined => v
    case EmptyObject => Obj(map[])
    case Declared(_, strip) => strip(v)
  }

  /** `validateAndClean(value, type)`: assert that the value conforms, then clean it; a failed assertion throws. */
  function ValidateAndClean(s: Shape, v: Value): Result<Value, Error> {
    if Valid(s, v) then Success(Clean(s, v)) else Failure(ShapeMismatch)
  }
}
