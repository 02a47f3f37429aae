/** Small value wrappers shared by the model: an optional slot and the outcome of an awaited request. */
module Wrappers {

  /** A state slot that JavaScript keeps as `null` or a value. */
  datatype Option<+T> = None | Some(value: T)

  /** The outcome of an awaited HTTP request: the decoded response body, or the message the
      client would show (`error.response?.data?.error || error.message`). */
  datatype Fetch<+T> = Ok(value: T) | Err(message: string)
}
