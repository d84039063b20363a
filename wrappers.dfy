/** The optional value used for Go's nil-able results and for the error half of a
    Go `(value, error)` return. */
module Wrappers {

  datatype Option<+T> = None | Some(value: T)

}
