/** Values that may be absent, shared by the driver and the CSI model. */
module Wrappers {
  datatype Option<T> = None | Some(value: T)
}
