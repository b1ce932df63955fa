/** Nullable values: Python's `Optional[str]` and `None`. */
module Wrappers {

  datatype Option<+T> = None | Some(value: T)
}
