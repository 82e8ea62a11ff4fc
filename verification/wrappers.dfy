/** The Some/None datatype used wherever a lookup or a decoding can fail. */
module Wrappers {

  datatype Option<+T> = None | Some(value: T)
}
