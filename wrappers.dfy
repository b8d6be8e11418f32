/** Option stands in for a value that may be absent: a fetch that failed, a JSON `null`, an array element
    that is `undefined`. */
module Wrappers {

  datatype Option<+T> = None | Some(value: T)
}
