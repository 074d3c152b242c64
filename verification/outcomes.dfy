/** Failure-aware results for the operations that raise an exception or yield NaN in `calc.py`. */
module Outcomes {

  /** A value, or the error that stopped the computation. */
  datatype Result<+T, +E> = Ok(value: T) | Err(error: E)

  /** A value, or nothing (used where `np.mean` of an empty list gives NaN). */
  datatype Option<+T> = None | Some(value: T)
}
