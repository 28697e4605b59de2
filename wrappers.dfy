/** Option, for the places where the JavaScript code yields a value or null/undefined. */
module Wrappers {

  datatype Option<+T> = None | Some(value: T)
}
