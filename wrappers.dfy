/** Small helper datatypes shared by the modules of the model. */
module Wrappers {

  /** A value that may be absent; `None` also stands for a Go `nil` map or slice. */
  datatype Option<+T> = None | Some(value: T)
}
