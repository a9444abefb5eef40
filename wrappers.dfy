/** The Option type, used for C values that may be NULL and for lookups that may miss. */
module Wrappers {

  datatype Option<+T> = None | Some(value: T)

}
