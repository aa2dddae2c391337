/** Small value wrappers shared by the modules of this project. */
module Options {

  /** A value that may be absent: JavaScript's `T | null`. */
  datatype Option<+T> = None | Some(value: T)

  /**
   * The way a remote request settles: it resolves with a payload, or it
   * rejects. The cause of a rejection is never inspected by the store, so
   * `Failure` carries nothing.
   */
  datatype Response<+T> = Success(payload: T) | Failure
}
