/** Option and Result, the two wrappers the model uses. */
module Wrappers {

  /** A value that may be undefined (pandas' NaN, Python's None). */
  datatype Option<+T> = None | Some(value: T)

  /** The answer of a call into the brokerage or the market-data service:
      a value, or an exception raised by the call. */
  datatype Result<+T> = Ok(value: T) | Err
}
