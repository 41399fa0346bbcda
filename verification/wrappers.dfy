/** A nullable value: a React ref's `current`, or an optional prop. */
module Wrappers {

  datatype Option<T> = None | Some(value: T)
}
