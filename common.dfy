/** Failure-carrying wrappers shared by the loader, the mesh renderer and the textures. */
module Common {

  datatype Option<+T> = None | Some(value: T)

  /** The value of an operation that may throw in the original program. */
  datatype Result<+T, +E> = Success(value: T) | Failure(error: E)

  /** The result of an operation that returns nothing but may throw. */
  datatype Outcome<+E> = Pass | Fail(error: E)
}
