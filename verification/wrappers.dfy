/** An optional value: stands for a JavaScript value that may be null,
    undefined or NaN. */
module Wrappers {
  datatype Option<+T> = None | Some(value: T)
}
