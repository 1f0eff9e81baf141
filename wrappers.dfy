/** Option and result types shared by the gallery modules. */
module Wrappers {

  datatype Option<T> = None | Some(value: T)

  /** The outcome of a call into the object store: its value, or the exception it threw. */
  datatype Result<T> = Ok(value: T) | Failure

  function Min(a: nat, b: nat): (m: nat)
  {
    if a <= b then a else b
  }
}
