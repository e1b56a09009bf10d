/** Small value types shared by the three page components. */
module Common {

  /** A value that may be absent: JavaScript's `null` / `undefined`. */
  datatype Option<+T> = None | Some(value: T)

  /**
   * The outcome of one HTTP request as the page sees it: the promise
   * resolves with a body, or rejects with an error whose message is kept.
   */
  datatype Response<+T> = Success(body: T) | Failure(message: string)
}
