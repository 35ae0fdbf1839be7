/** Option and Result values shared by the modules of the model. */
module Outcomes {

  datatype Option<T> = None | Some(value: T)

  /** A return value or the exception the routine raises instead. */
  datatype Result<T, E> = Ok(value: T) | Err(error: E)
}
