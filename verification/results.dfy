/** Optional values and success-or-error values shared by the other modules. */
module Results {

  /** A value that may be absent, as an optional TypeScript field or an `undefined` lookup. */
  datatype Option<T> = None | Some(value: T)

  /** The outcome of a lookup that either finds its value or reports why not. */
  datatype Result<T, E> = Success(value: T) | Failure(error: E)
}
