/**
 * The JavaScript values a caller may pass as a template variable value or
 * declare as a default, with just enough structure to model truthiness and
 * the `||` operator the variable resolution relies on.
 */
module JsValues {

  datatype Value =
    | Undefined
    | Null
    | Bool(b: bool)
    | Number(n: real)        // a finite number; -0 and 0 are the same real
    | NaN
    | BigInt(i: int)
    | Str(s: string)
    | Object(ref: nat)       // any object, array or function, named by its reference

  /** JavaScript's ToBoolean: the falsy values are undefined, null, false, 0, NaN, 0n and "". */
  predicate Truthy(v: Value) {
    match v
    case Undefined => false
    case Null => false
    case Bool(b) => b
    case Number(n) => n != 0.0
    case NaN => false
    case BigInt(i) => i != 0
    case Str(s) => s != ""
    case Object(_) => true
  }

  /** The value of the JavaScript expression `a || b`. */
  function Or(a: Value, b: Value): Value {
    if Truthy(a) then a else b
  }
}
