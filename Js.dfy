/** The slice of JavaScript semantics the video player relies on: the values a
    source descriptor or an option can be, their truthiness, `typeof`, property
    reads, and the exceptions the player throws. */
module Js {

  datatype Option<+T> = None | Some(value: T)

  datatype Result<+T, +E> = Ok(value: T) | Err(error: E)

  /** The exceptions of the modelled code: an `Error` built with a message, or a
      TypeError raised by the engine (a property read on null or undefined, a
      call of something that is not a function). */
  datatype Error = Thrown(message: string) | TypeError

  const SourceMustBeDefined: string := "Source must be defined."
  const CouldNotParseSource: string := "Could not parse source."

  /** A JavaScript value as far as a source descriptor or an option goes.
      Records carry their own properties; functions and prototypes are not
      values here. */
  datatype Value =
    | Undefined
    | Null
    | Boolean(b: bool)
    | Number(n: real)
    | Text(s: string)
    | Record(fields: map<string, Value>)
    | List(items: seq<Value>)

  /** ToBoolean: what `if (v)`, `!v` and `v || w` test. */
  predicate Truthy(v: Value) {
    match v
    case Undefined => false
    case Null => false
    case Boolean(b) => b
    case Number(n) => n != 0.0
    case Text(s) => s != ""
    case Record(_) => true
    case List(_) => true
  }

  /** Null and undefined: the two values whose properties cannot be read. */
  predicate Nullish(v: Value) {
    v.Undefined? || v.Null?
  }

  /** The `typeof` operator. */
  function TypeOf(v: Value): (t: string)
    ensures t == "object" <==> v.Null? || v.Record? || v.List?
    ensures t == "string" <==> v.Text?
  {
    match v
    case Undefined => "undefined"
    case Null => "object"
    case Boolean(_) => "boolean"
    case Number(_) => "number"
    case Text(_) => "string"
    case Record(_) => "object"
    case List(_) => "object"
  }

  /** `v[key]`: a TypeError on null and undefined, the own field of a record,
      the length of a string or an array, and undefined for anything else. */
  function GetProperty(v: Value, key: string): (r: Result<Value, Error>)
    ensures r.Err? <==> Nullish(v)
    ensures r.Err? ==> r.error == TypeError
    ensures v.Record? && key !in v.fields ==> r == Ok(Undefined)
    ensures v.Record? && key in v.fields ==> r == Ok(v.fields[key])
  {
    match v
    case Undefined => Err(TypeError)
    case Null => Err(TypeError)
    case Record(fields) => Ok(if key in fields then fields[key] else Undefined)
    case List(items) => Ok(if key == "length" then Number(|items| as real) else Undefined)
    case Text(s) => Ok(if key == "length" then Number(|s| as real) else Undefined)
    case Boolean(_) => Ok(Undefined)
    case Number(_) => Ok(Undefined)
  }
}
