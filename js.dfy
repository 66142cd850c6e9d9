/** The few JavaScript notions the model needs: a dynamic value as it reaches
    a validating setter, JS truthiness, an optional value (`undefined`/`null`
    versus present), and the outcome of a call that may throw. */
module Js {

  /** A JavaScript value as seen by `typeof` and `isNaN`. `Num` is a finite,
      non-NaN number; infinities are not represented. */
  datatype JsValue =
    | Num(n: real)
    | NaN
    | Str(s: string)
    | Bool(b: bool)
    | Null
    | Undefined
    | Obj

  /** `typeof v === 'number'` (NaN is a number to JavaScript). */
  predicate IsNumber(v: JsValue) {
    v.Num? || v.NaN?
  }

  /** JavaScript truthiness: `false`, `0`, `NaN`, `''`, `null` and
      `undefined` are falsy, everything else is truthy. */
  predicate Truthy(v: JsValue) {
    match v
    case Num(n) => n != 0.0
    case NaN => false
    case Str(s) => s != ""
    case Bool(b) => b
    case Null => false
    case Undefined => false
    case Obj => true
  }

  datatype Option<+T> = None | Some(value: T) {
    function GetOr(default: T): T {
      if Some? then value else default
    }
  }

  /** A call that returns normally, or throws an `Error` with this message. */
  datatype Status = Done | Thrown(message: string)
}
