/** Optional values and error results shared by every module of the model. */
module Wrappers {

  /** A value that may be absent: a `null` or `undefined` field of a document. */
  datatype Option<+T> = None | Some(value: T) {

    function GetOr(default: T): T {
      if Some? then value else default
    }

    /** JavaScript's `a || b` on two optional values whose present values are truthy. */
    function OrElse(other: Option<T>): Option<T> {
      if Some? then this else other
    }
  }

  /** The outcome of a request handler: a value, or the error handed to `next`
      (its message and, when the handler gives one, its HTTP status). */
  datatype Result<+T> = Ok(value: T) | Err(message: string, status: Option<int>)

  /** JavaScript truthiness of an optional string: absent and "" are both falsy. */
  predicate Present(s: Option<string>) {
    s.Some? && s.value != ""
  }
}
