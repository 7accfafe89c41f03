/** Small failure-compatible wrapper shared by the modules of this model. */
module Wrappers {

  /** An optional value: SetFont's font name, which may be missing. */
  datatype Option<+T> = None | Some(value: T)
}
