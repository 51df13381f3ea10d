/** The usual Some/None datatype: a value the script may find null or undefined. */
module Wrappers {

  datatype Option<+T> = None | Some(value: T)
}
