/** The two result wrappers the model uses: a lookup that may find nothing, and a value or an error. */
module Wrappers {

  /** A value that may be missing: the answer of a `findOne` that matched nothing. */
  datatype Option<+T> = None | Some(value: T)

  /** A value or an error: what a Node-style callback receives as `(err, value)`. */
  datatype Result<+T, +E> = Success(value: T) | Failure(error: E)
}
