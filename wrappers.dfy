/** Optional values and success/failure results, used wherever the source
    has `undefined`/`null` or throws an error that a caller catches. */
module Wrappers {

  datatype Option<+T> = None | Some(value: T) {
    function GetOr(default: T): T {
      match this
      case Some(v) => v
      case None => default
    }
  }

  datatype Result<+R, +E> = Success(value: R) | Failure(error: E)

  /** A step that either passes or fails with a reason (a resolved or rejected promise). */
  datatype Outcome<+E> = Pass | Fail(error: E)

  /** JavaScript `o || d` on an optional string: `undefined` and `''` are both falsy. */
  function OrElse(o: Option<string>, d: string): string {
    if o.Some? && o.value != "" then o.value else d
  }

  /** JavaScript truthiness of an optional string. */
  predicate Truthy(o: Option<string>) {
    o.Some? && o.value != ""
  }
}
