/** An optional value: what a Java reference that may be null holds. */
module Wrappers {

  datatype Option<+T> = None | Some(value: T)
}
