/** Values of the JavaScript runtime that the two screens' code depends on. */
module Js {

  datatype Option<+T> = None | Some(value: T)

  /** A string-typed property as it can actually arrive at run time: missing
      from a decoded object, explicitly `null`, or a real string. */
  datatype JsString = Undefined | Null | Text(s: string)

  /** What a template literal `${v}` inserts for `v`. */
  function Interpolate(v: JsString): string
  {
    match v
    case Undefined => "undefined"
    case Null => "null"
    case Text(s) => s
  }
}
