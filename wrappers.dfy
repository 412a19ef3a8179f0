/** Option: the outcome of a step that Python may abort with an exception. */
module Wrappers {

  datatype Option<+T> = None | Some(value: T)
}
