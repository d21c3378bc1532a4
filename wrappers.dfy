/** The optional-value datatype used where the modelled code returns null. */
module Wrappers {
  datatype Option<+T> = None | Some(value: T)
}
