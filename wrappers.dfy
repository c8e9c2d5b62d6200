/** A small Option type: `None` stands for a Go zero value (a nil pointer, an unset link). */
module Wrappers {
  datatype Option<+T> = None | Some(value: T)
}
