/** Result types shared by the models: Python's `None` and Python's exceptions as values. */
module Prelude {
  datatype Option<+T> = None | Some(value: T)

  datatype Result<+T, +E> = Ok(value: T) | Err(error: E)

  /** Row identifiers (UUIDs in the database); callers of an insert supply a fresh one. */
  type Uuid = nat

  /** Points in time, in milliseconds. */
  type Time = int
}
