/** Optional values and call outcomes shared by the chat model. */
module Wrappers {

  /** A value that may be absent: stands for a JavaScript value that may be `null`. */
  datatype Option<+T> = None | Some(value: T)

  /** The result of an operation that either completes or throws with a message. */
  datatype Outcome<+E> = Pass | Fail(error: E)
}
