/** Option and Result types, and the errors the services raise. */
module Wrappers {

  datatype Option<+T> = None | Some(value: T)

  /** The error kinds surfaced to a caller: a lookup that matched no row, and a
      request value rejected by validation. */
  datatype Error = NotFound | ValidationFailed

  datatype Result<+T> = Ok(value: T) | Err(error: Error)

  /** The `{ deleted: true }` body returned by every `remove`. */
  datatype Deleted = Deleted(deleted: bool)
}
