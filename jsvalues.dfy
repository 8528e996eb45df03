/**
 The few JavaScript value conventions the sitemap code relies on: optional
 values, string-valued properties read through optional chaining (`a?.b`), and
 how such a value turns into text inside a template literal or when it is used
 as an object key.
 */
module JsValues {

  datatype Option<+T> = None | Some(value: T)

  /** A property that should hold a string: missing (`undefined`), `null`, or a string. */
  datatype JsString = Undefined | Null | Str(s: string)

  /** The text of the value inside `${...}`, which is also its property-key form. */
  function ToText(v: JsString): string
  {
    match v
    case Undefined => "undefined"
    case Null => "null"
    case Str(s) => s
  }

  /** JavaScript truthiness of the value: only a non-empty string is truthy. */
  predicate Truthy(v: JsString)
  {
    v.Str? && v.s != ""
  }

  /** `v || fallback` */
  function OrElse(v: JsString, fallback: string): string
  {
    if Truthy(v) then v.s else fallback
  }
}
