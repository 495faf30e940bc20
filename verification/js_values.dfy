/** The scalar values a plugin setting can hold, with JavaScript truthiness.
    Numbers are integers: NaN and fractions play no part in the decisions
    the plugin takes on its settings. */
module JsValues {

  datatype JsValue = Undefined | Null | Bool(b: bool) | Num(n: int) | Str(s: string)

  /** JavaScript truthiness: `undefined`, `null`, `false`, `0` and `""` are falsy,
      every other value is truthy (so the string "0" is truthy). */
  predicate Truthy(v: JsValue) {
    match v
    case Undefined => false
    case Null => false
    case Bool(b) => b
    case Num(n) => n != 0
    case Str(s) => s != ""
  }
}
