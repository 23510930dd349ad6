/** An optional value, used where the source may raise instead of returning. */
module Wrappers {
  datatype Option<+T> = None | Some(value: T)
}
