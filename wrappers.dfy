/** The optional-value datatype used for PHP values that may be unset (`isset` is false). */
module Wrappers {

  datatype Option<+T> = None | Some(value: T)
}
