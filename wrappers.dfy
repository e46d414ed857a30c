/**
  Optional values (Go's nil pointers and nil slices, and the pointer fields of a
  partial update) and error returns (Go's `error`, by its message).
 */
module Wrappers {

  datatype Option<+T> = None | Some(value: T) {

    /** The value, or `default` when there is none. */
    function GetOr(default: T): T {
      match this
      case Some(v) => v
      case None => default
    }
  }

  datatype Result<+T> = Ok(value: T) | Err(error: string)

  /** The error half of a result, as Go's `err` variable. */
  function ErrorOf<T>(r: Result<T>): Option<string> {
    if r.Err? then Some(r.error) else None
  }
}
