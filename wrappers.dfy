/** Option, used for the C null pointer and for regular-expression matches
    that may fail. */
module Wrappers {

  datatype Option<+T> = None | Some(value: T)
}
