/**
 * Small failure-compatible datatypes shared by every module of the model.
 *
 * `Option` stands for a JavaScript value that may be `null`/`undefined`;
 * `Result` for the outcome of a call into an upstream service, which either
 * yields a value or throws (a non-2xx status, a malformed reply, a runtime
 * `TypeError`), in which case the request handler answers with its generic
 * error.
 */
module Wrappers {

  datatype Option<T> = None | Some(value: T) {

    /** The value, or `default` when absent (JavaScript `x ?? default`). */
    function GetOr(default: T): T {
      match this
      case Some(v) => v
      case None => default
    }
  }

  datatype Result<T> = Ok(value: T) | Failed {

    predicate IsFailure() {
      Failed?
    }

    function PropagateFailure<U>(): Result<U>
      requires Failed?
    {
      Failed
    }

    function Extract(): T
      requires Ok?
    {
      value
    }
  }
}
