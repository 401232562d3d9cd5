/** The optional values and evaluation results the tour modules pass around. */
module Outcomes {

  /** Either nothing, or one value. */
  datatype Option<T> = None | Some(value: T)

  /** Either a computed value or the error that stopped the computation. */
  datatype Result<T, E> = Ok(value: T) | Err(error: E)
}
