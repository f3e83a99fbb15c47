/** The optional-value wrapper used throughout the model, standing for Python's `Optional[...]`. */
module Wrappers {
  datatype Option<+T> = None | Some(value: T)
}
