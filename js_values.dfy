/** The part of JavaScript's value semantics that the handler observes:
    `typeof`, reading a named property, and strict equality with `0`. */
module JsValues {
  import opened Wrappers

  /** A JavaScript value. A number is its mathematical value, so `-0` and `0`
      coincide, as they do under `===`. Only own named properties of plain
      objects are represented; array indices, `length` and inherited
      properties are not, since the handler reads none of them. */
  datatype Value =
    | Undefined
    | Null
    | Bool(b: bool)
    | Number(n: real)
    | Str(s: string)
    | Array(elements: seq<Value>)
    | Object(properties: map<string, Value>)
    | Function

  /** An exception the handler throws, or lets escape, instead of returning. */
  datatype Thrown =
    | TypeError(message: string)         // `throw new TypeError(message)`
    | NullishPropertyRead(property: string) // the runtime's TypeError for `null.property`
    | SyntaxError(message: string)       // what `JSON.parse` throws on malformed text
    | LibraryError(message: string)      // an Error thrown by a library the handler calls

  /** The string `typeof v` evaluates to. */
  function TypeOf(v: Value): string
  {
    match v
    case Undefined => "undefined"
    case Null => "object"
    case Bool(_) => "boolean"
    case Number(_) => "number"
    case Str(_) => "string"
    case Array(_) => "object"
    case Object(_) => "object"
    case Function => "function"
  }

  /** `v[key]` for a value that is not nullish: the own property, or `undefined`. */
  function Own(v: Value, key: string): Value
  {
    if v.Object? && key in v.properties then v.properties[key] else Undefined
  }

  /** `v.key`: reading a property of `undefined` or `null` throws. */
  function GetProperty(v: Value, key: string): Result<Value, Thrown>
  {
    if v.Undefined? || v.Null? then Err(NullishPropertyRead(key)) else Ok(Own(v, key))
  }

  /** `v === 0`. */
  predicate IsStrictZero(v: Value)
  {
    v.Number? && v.n == 0.0
  }
}
