/**
 * The JavaScript values that reach the core from its callers: the arguments
 * of the configuration constructor and the status code in a provider reply.
 * Numbers are integers here; NaN and fractions are not modelled.
 */
module JsValue {

  datatype Value =
    | Undefined
    | Null
    | Bool(b: bool)
    | Num(n: int)
    | Str(s: string)
    | Arr(items: seq<Value>)
    | Obj
    | Fn(name: string)

  /** JavaScript truthiness: `!v` holds exactly when this is false. */
  predicate Truthy(v: Value) {
    match v
    case Undefined => false
    case Null => false
    case Bool(b) => b
    case Num(n) => n != 0
    case Str(s) => s != ""
    case Arr(_) => true
    case Obj => true
    case Fn(_) => true
  }
}
