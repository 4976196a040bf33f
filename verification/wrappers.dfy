/** The Some/None datatype used for the source's optional values (`T | undefined`). */
module Wrappers {

  datatype Option<+T> = None | Some(value: T)

}
