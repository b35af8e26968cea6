/** Option and Result, used for the outcomes of lookups and for Python exceptions. */
module Wrappers {

  /** `Some(v)` when a lookup produced `v`; `None` when it produced nothing. */
  datatype Option<+T> = None | Some(value: T)

  /** `Success(v)` for a normal return; `Failure(e)` for a raised exception `e`. */
  datatype Result<+R, +E> = Success(value: R) | Failure(error: E)
}
