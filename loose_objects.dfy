/** JavaScript values as far as the account code looks at them: the loose
    objects that constructors destructure, and the truthiness tests (`!x`) that
    decide whether a field counts as present. */
module LooseObjects {

  /** A JavaScript value. `Date` is a Date object (always truthy) holding its
      ISO-8601 text; numbers are integers (NaN is not modelled). */
  datatype JsValue =
    | Undefined
    | Null
    | Bool(b: bool)
    | Num(n: int)
    | Str(s: string)
    | Date(iso: string)

  /** JavaScript truthiness: `!v` is false exactly for these values. */
  predicate Truthy(v: JsValue)
  {
    match v
    case Undefined => false
    case Null => false
    case Bool(b) => b
    case Num(n) => n != 0
    case Str(s) => s != ""
    case Date(_) => true
  }

  /** Destructuring `const { key } = obj`: a missing key reads as `undefined`. */
  function Get(obj: map<string, JsValue>, key: string): JsValue
  {
    if key in obj then obj[key] else Undefined
  }

  /** A request body whose fields are strings; a key that is absent is
      `undefined`. */
  type Body = map<string, string>

  /** `!!body[key]`: the field is there and is not the empty string. */
  predicate Present(body: Body, key: string)
  {
    key in body && body[key] != ""
  }

  /** The value of a field known to be present (empty text when it is not). */
  function Field(body: Body, key: string): string
  {
    if key in body then body[key] else ""
  }
}
