/** A minimal optional-value datatype, used for values that JavaScript
    represents as "a string or undefined" (a request header, a response field
    that is omitted when absent). */
module Wrappers {

  datatype Option<+T> = None | Some(value: T)
}
