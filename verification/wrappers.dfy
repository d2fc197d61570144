/** Optional values and results shared by every module of the model.
    `Option` stands for a JavaScript value that may be `undefined`/`null`;
    `Result` stands for a call that either returns a value or throws an
    error carrying a message. */
module Wrappers {

  datatype Option<+T> = None | Some(value: T) {

    /** The value, or `default` when absent (JavaScript's `??`). */
    function GetOr(default: T): T {
      match this
      case Some(v) => v
      case None => default
    }
  }

  datatype Result<+T> = Ok(value: T) | Err(message: string) {

    function ToOption(): Option<T> {
      match this
      case Ok(v) => Some(v)
      case Err(_) => None
    }
  }

  /** Outcome of a call whose return value is ignored. */
  datatype Outcome = Pass | Fail(message: string)

  /** JavaScript's `s || fallback` on an optional string: an absent or empty
      string is falsy. */
  function OrElse(s: Option<string>, fallback: string): (r: string)
    ensures s.Some? && s.value != "" ==> r == s.value
    ensures (s.None? || s.value == "") ==> r == fallback
  {
    if s.Some? && s.value != "" then s.value else fallback
  }
}
