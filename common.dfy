/** Values shared by every part of the storefront client: optional values, what an
    awaited call can throw, and the JavaScript truthiness rules the code relies on. */
module Common {

  datatype Option<+T> = None | Some(value: T) {
    /** `x ?? fallback` / `x || []` for values whose only falsy form is absence */
    function GetOr(default: T): T {
      if Some? then value else default
    }
  }

  /** What a rejected promise carries: an `Error` object (and its `message`), or a
      thrown value that is not an `Error`, for which callers use a fallback text. */
  datatype Thrown = ErrorObject(message: string) | OtherValue

  /** The outcome of one awaited call to the remote service: the parsed body, or
      the value the call threw. */
  datatype Response<+T> = Ok(body: T) | Err(thrown: Thrown)

  /** How an async operation of a context ends: it resolves, or it rejects. */
  datatype Completion = Normal | Abrupt(thrown: Thrown)

  /** `error instanceof Error ? error.message : fallback` */
  function MessageOr(t: Thrown, fallback: string): (m: string)
    ensures t.ErrorObject? ==> m == t.message
    ensures t.OtherValue? ==> m == fallback
  {
    match t
    case ErrorObject(msg) => msg
    case OtherValue => fallback
  }

  /** JavaScript truthiness of a string that may be `null`/`undefined`. */
  predicate Truthy(s: Option<string>) {
    s.Some? && s.value != ""
  }

  /** JavaScript truthiness of a number that may be `undefined` (integers only). */
  predicate NumTruthy(n: Option<int>) {
    n.Some? && n.value != 0
  }

  /** `s || fallback` for a string that may be `null`/`undefined`. */
  function OrElse(s: Option<string>, fallback: string): (r: string)
    ensures Truthy(s) ==> r == s.value
    ensures !Truthy(s) ==> r == fallback
  {
    if Truthy(s) then s.value else fallback
  }

  /** `String.prototype.startsWith` */
  predicate StartsWith(s: string, prefix: string) {
    |prefix| <= |s| && s[..|prefix|] == prefix
  }
}
