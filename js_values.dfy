/**
 * The JavaScript values the modelled code inspects, and JavaScript's
 * truthiness rule, shared by the notification modules.
 */
module JsValues {

  /** `T | null | undefined` in the source. */
  datatype Option<T> = None | Some(value: T)

  /** A JavaScript value, as far as `if (x)` and `typeof x` can tell. */
  datatype JsValue =
    | Undefined
    | Null
    | Bool(b: bool)
    | Num(n: real)
    | NaN
    | Str(s: string)
    | Obj  // any object, array or function

  /** JavaScript's `Boolean(v)`. */
  predicate Truthy(v: JsValue)
  {
    match v
    case Undefined => false
    case Null => false
    case Bool(b) => b
    case Num(n) => n != 0.0
    case NaN => false
    case Str(s) => s != ""
    case Obj => true
  }

  /** `Boolean(s)` for a value typed `string | null | undefined`. */
  predicate TruthyString(s: Option<string>)
  {
    s.Some? && s.value != ""
  }
}
