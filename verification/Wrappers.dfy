/** Small datatypes shared by the other modules. */
module Wrappers {
  datatype Option<+T> = None | Some(value: T)

  /** The outcome of calling user code that may throw. */
  datatype Outcome<+V, +X> = Returned(value: V) | Thrown(error: X)
}
