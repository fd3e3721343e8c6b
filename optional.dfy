/** Python's `None`-or-value results and raised `ValueError`s, as datatypes. */
module Optional {

  datatype Option<+T> = None | Some(value: T) {

    /** The value, or `default` when absent (Python's `x if x is not None else default`). */
    function GetOr(default: T): T {
      match this
      case Some(v) => v
      case None => default
    }
  }

  /** A value, or the message of the `ValueError` raised instead. */
  datatype Outcome<+T> = Success(value: T) | Failure(message: string)

  /**
   * A value, or the `AttributeError` raised instead: the type that lacks the
   * attribute, and the attribute's name.
   */
  datatype Attempt<+T> = Done(value: T) | NoAttribute(owner: string, attribute: string)
}
