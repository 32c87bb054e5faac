/** The optional-value datatype used for absent dictionary keys and `None` results. */
module Wrappers {

  datatype Option<+T> = None | Some(value: T)
}
