/** The optional value used where the calculator can produce no estimate. */
module Wrappers {

  datatype Option<+T> = None | Some(value: T)
}
