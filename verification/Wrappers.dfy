/** Results shared by every module: optional values and service verdicts. */
module Wrappers {
  datatype Option<+T> = None | Some(value: T)
}
