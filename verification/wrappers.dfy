/** JavaScript's `undefined`/`null` for a value that may be absent. */
module Wrappers {

  /** An optional value: `None` stands for a missing (undefined or null) argument. */
  datatype Option<+T> = None | Some(value: T)
}
