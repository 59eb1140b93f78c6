/** An optional value: the source's `null` and SQL's NULL. */
module Prelude {
  datatype Option<+T> = None | Some(value: T)
}
