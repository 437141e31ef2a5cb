/** The optional-value datatype used for Python's `None` and for locals that may be unbound. */
module Wrappers {

  datatype Option<+T> = None | Some(value: T)
}
