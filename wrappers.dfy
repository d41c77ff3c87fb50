/// Small helper datatypes shared by every module of the model.
module Wrappers {

  /// A value that may be absent (Python's `None`, TypeScript's `undefined`).
  datatype Option<+T> = None | Some(value: T)
}
