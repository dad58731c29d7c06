/** The optional value used for parse and power results that may fail. */
module Wrappers {

  datatype Option<+T> = None | Some(value: T)
}
