/** Option and Result, the failure-carrying values every route of the model returns. */
module Wrappers {

  /** A value that may be absent: JavaScript's `undefined`/`null` for a field. */
  datatype Option<T> = None | Some(value: T)

  /** The outcome of a route: a response body, or an HTTP error. */
  datatype Result<T, E> = Ok(value: T) | Err(error: E)

  /** An optional string JavaScript treats as true: present and not empty. */
  predicate Truthy(x: Option<string>) {
    x.Some? && x.value != ""
  }
}
