/**
 * The JSON values that travel in request bodies and component state. Numbers are
 * integers (the only numbers the core handles are millisecond timestamps); arrays
 * and objects are told apart from scalars only, since no rule looks inside them.
 */
module JsValues {
  import opened Results

  datatype Value =
    | Str(s: string)
    | Bool(b: bool)
    | Num(n: int)
    | Null
    | Compound

  /** A JSON object: a request body or a state object built by spreading. */
  type Object = map<string, Value>

  /** JavaScript truthiness of a value. */
  predicate Truthy(v: Value) {
    match v
    case Str(s) => s != ""
    case Bool(b) => b
    case Num(n) => n != 0
    case Null => false
    case Compound => true
  }

  /** `obj[key]` used as a condition: an absent key reads as `undefined`, which is falsy. */
  predicate TruthyAt(obj: Object, key: string) {
    key in obj && Truthy(obj[key])
  }

  /** `obj[key]` when it holds a string. */
  predicate StringAt(obj: Object, key: string) {
    key in obj && obj[key].Str?
  }
}
