/** Option, used for the nullable (`T | null`) and optional (`T?`) fields of the system. */
module Wrappers {

  datatype Option<+T> = None | Some(value: T)

}
