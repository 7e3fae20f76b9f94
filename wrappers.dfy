/** The optional value the generator's host queries may return (`null` in the source). */
module Wrappers {

  datatype Option<+T> = None | Some(value: T)
}
