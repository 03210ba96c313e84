/** Failure-compatible helper datatypes shared by the other modules. */
module Wrappers {

  /** An optional value: a request field that may be absent, a field stored as null. */
  datatype Option<+T> = None | Some(value: T)

  /** The outcome of a request check: a value, or the HTTP status it answers with. */
  datatype Result<+T> = Ok(value: T) | Fail(status: nat)
}
