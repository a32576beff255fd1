/** The optional value used wherever the Swift code has an optional (`Int?`, `PowerSample?`). */
module Wrappers {

  datatype Option<+T> = None | Some(value: T)
}
