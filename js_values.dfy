/**
 * The JavaScript values the host check can meet in a lexer's `isLexer`
 * property, and JavaScript truthiness (`!!v`) over them.
 */
module JsValues {
  datatype JsValue =
    | Undefined
    | Null
    | Bool(b: bool)
    | Number(x: real)   // any number except NaN; -0 and 0 are both 0.0
    | NaN
    | Str(s: string)
    | ObjectValue       // an object or a function: always truthy

  /** `!!v` in JavaScript: what `if (!lexer.isLexer)` tests. */
  predicate Truthy(v: JsValue) {
    match v
    case Undefined => false
    case Null => false
    case Bool(b) => b
    case Number(x) => x != 0.0
    case NaN => false
    case Str(s) => s != ""
    case ObjectValue => true
  }
}
