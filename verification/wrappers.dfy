/** The Option type used for the application's "null" results and error paths. */
module Wrappers {

  datatype Option<+T> = None | Some(value: T)
}
