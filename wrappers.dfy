/** The optional-value datatype used where the source reports "not found" or "could not open". */
module Wrappers {
  datatype Option<+T> = None | Some(value: T)
}
