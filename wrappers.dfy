/** The optional value used for nullable columns and absent responses. */
module Wrappers {

  datatype Option<+T> = None | Some(value: T)
}
