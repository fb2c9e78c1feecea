/** The optional value that stands for what the source leaves nil or reports as missing. */
module Wrappers {
  datatype Option<+T> = None | Some(value: T)
}
