/** The optional value used for DOM fields a script may never assign and for
    JSON properties that may be absent. */
module Wrappers {
  datatype Option<+T> = None | Some(value: T)
}
