/** Optional values and failure-carrying results, standing in for the
    store's `null` returns and thrown errors. */
module Results {

  /** A value that may be absent (`T | null` in the store). */
  datatype Option<+T> = None | Some(value: T)

  /** The outcome of a store command: its value, or the error it throws. */
  datatype Result<+T, +E> = Ok(value: T) | Err(error: E)
}
