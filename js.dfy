/** Small value-level vocabulary shared by the components: optional values,
    the truthiness test JavaScript applies to an optional string, and the
    message a `catch` block derives from whatever was thrown. */
module Js {

  /** A value that may be absent (`undefined` in the source). */
  datatype Option<+T> = None | Some(value: T)

  /** An environment variable or optional argument is truthy when it is
      present and not the empty string: `undefined` and `""` are the only
      falsy values of an optional string. */
  function IsSet(o: Option<string>): (truthy: bool)
    ensures !truthy <==> o == None || o == Some("")
  {
    o.Some? && o.value != ""
  }

  /** What a rejected promise or a `throw` carried: an `Error` object with its
      message, or any other value. */
  datatype Thrown = ErrorObject(message: string) | OtherValue

  /** The message shown for a caught value: `err instanceof Error ? err.message : fallback`. */
  function MessageOf(t: Thrown, fallback: string): (m: string)
    ensures t.ErrorObject? ==> m == t.message
    ensures t.OtherValue? ==> m == fallback
  {
    match t
    case ErrorObject(msg) => msg
    case OtherValue => fallback
  }

  /** `x || fallback` for an optional string. */
  function OrElse(o: Option<string>, fallback: string): (r: string)
    ensures IsSet(o) ==> r == o.value
    ensures !IsSet(o) ==> r == fallback
  {
    if IsSet(o) then o.value else fallback
  }
}
