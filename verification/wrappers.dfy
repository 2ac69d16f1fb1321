/** Option and outcome datatypes used across the model. */
module Wrappers {

  /** A value that may be missing; in the model `None` stands for JavaScript's
      `undefined` / an absent key / a `null` storage item. */
  datatype Option<+T> = None | Some(value: T) {

    /** The wrapped value, or `default` when there is none. */
    function GetOr(default: T): T {
      match this
      case Some(v) => v
      case None => default
    }
  }

  /** The outcome of an operation that returns nothing but may throw `error`. */
  datatype Outcome<+E> = Pass | Fail(error: E)
}
