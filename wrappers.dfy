/** The optional-value datatype used wherever the Go code returns a `(value, found)` pair,
    a nil pointer, or a value-or-error pair whose error details do not matter. */
module Wrappers {

  datatype Option<+T> = None | Some(value: T)
}
