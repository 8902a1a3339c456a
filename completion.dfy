/** Small result types shared by the model. */
module Completion {

  /** A value that may be absent: JavaScript's `null` where the handler writes it. */
  datatype Option<+T> = None | Some(value: T)

  /**
   * How a call into a collaborator ends: it returns a value normally, or it
   * throws. The model never needs the thrown value, only that the handler's
   * `catch` block is entered.
   */
  datatype Completion<+T> = Normal(value: T) | Throw
}
