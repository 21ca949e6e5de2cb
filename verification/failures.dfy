/** The two ways the program's core can stop without a value. */
module Failures {

  /** A location's series held no days. `summarize` then divides by
      `len(data)` == 0, and `compare_data` asks for `max` of an empty column. */
  datatype Error = EmptySeries

  /** A computed value, or the error that stopped the computation. */
  datatype Result<+T> = Ok(value: T) | Err(error: Error)
}
