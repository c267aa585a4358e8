/** Result types and row identifiers shared by every component. */
module Wrappers {

  /** A present or absent value; models Python's `None` for optional fields. */
  datatype Option<+T> = None | Some(value: T)

  /** A returned value, or the error raised instead of it. */
  datatype Result<+T, +E> = Success(value: T) | Failure(error: E)

  /** Primary keys of the database rows. */
  type Uuid = nat
}
