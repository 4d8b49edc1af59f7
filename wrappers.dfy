/** The optional value used where the page code has "nothing" as an outcome. */
module Wrappers {
  datatype Option<+T> = None | Some(value: T)
}
