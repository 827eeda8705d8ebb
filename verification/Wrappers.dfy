// The Option type the other modules share for the source's nullable values.
module Wrappers {
  datatype Option<+T> = None | Some(value: T)
}
