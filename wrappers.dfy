/** The optional value that stands for JavaScript's `null` results
    (`localStorage.getItem` of a missing key, a hash with no view in it). */
module Wrappers {

  datatype Option<+T> = None | Some(value: T)
}
