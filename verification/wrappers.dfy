/** Optional values and outcomes used throughout the model: a missing
    spreadsheet cell is `None`, and a run that aborts is a `Failure`. */
module Wrappers {

  /** A cell that may be empty (pandas NaN). */
  datatype Option<+T> = None | Some(value: T) {

    /** The value, or `default` when the cell is empty (pandas `fillna`). */
    function GetOr(default: T): T {
      match this
      case Some(v) => v
      case None => default
    }
  }

  /** The outcome of a whole run: the computed value or the reason it aborted. */
  datatype Result<+R, +E> = Success(value: R) | Failure(error: E)

  /** The outcome of a self-check that carries no value. */
  datatype Outcome<+E> = Pass | Fail(error: E)
}
