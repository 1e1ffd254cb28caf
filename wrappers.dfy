/** Small failure-compatible wrappers shared by the other modules. */
module Wrappers {

  /** A value that may be absent; `None` also stands for "this step threw". */
  datatype Option<+T> = None | Some(value: T)

  /** How a platform promise settles: fulfilled with a value, or rejected. */
  datatype Settled<+T> = Fulfilled(value: T) | Rejected
}
