/** Python's "value or None", as an algebraic datatype. */
module Wrappers {

  datatype Option<+T> = None | Some(value: T)
}
