/** Optional values, and results in place of Go's error returns. */
module Wrappers {
  datatype Option<+T> = None | Some(value: T)

  datatype Result<+T, +E> = Ok(value: T) | Err(error: E)

  /** ErrNotFound, ErrStateConflict, a violated key or check, and any failure to reach the database. */
  datatype StoreError = NotFound | StateConflict | ConstraintViolation | Unavailable
}
