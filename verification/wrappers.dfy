/** Small value wrappers shared by the whole model. */
module Wrappers {

  /** Python's `None` or a value. */
  datatype Option<+T> = None | Some(value: T)

  /**
   * The outcome of a Python call that may raise: either the value it
   * returns, or the exception it raises, kept as `str(e)`.
   */
  datatype Outcome<+T> = Returns(value: T) | Raises(message: string)
}
