/** The slice of JavaScript's value model the handlers depend on: JSON values,
    truthiness, and the process environment. */
module Js {

  /** A value as it arrives in a parsed JSON request body, plus `undefined`
      for a field that is absent. Numbers are modelled as reals: JSON cannot
      carry NaN, and a literal too large for a double (which parses to
      Infinity) is not represented. */
  datatype JsValue =
    | Undefined
    | Null
    | Bool(b: bool)
    | Num(n: real)
    | Str(s: string)
    | Arr(items: seq<JsValue>)
    | Obj(fields: map<string, JsValue>)

  /** JavaScript truthiness: `undefined`, `null`, `false`, `0`, `-0` and `""`
      are falsy; every array and object, even an empty one, is truthy. */
  predicate Truthy(v: JsValue) {
    match v
    case Undefined => false
    case Null => false
    case Bool(b) => b
    case Num(n) => n != 0.0
    case Str(s) => s != ""
    case Arr(_) => true
    case Obj(_) => true
  }

  /** `process.env`: a variable that is not in the map reads as `undefined`. */
  type Env = map<string, string>

  /** `!!process.env[name]`: the variable exists and is not the empty string. */
  predicate IsSet(env: Env, name: string) {
    name in env && env[name] != ""
  }
}
