/** Small value wrappers shared by the other modules. */
module Wrappers {

  /** `null` / `undefined` versus a present value. */
  datatype Option<+T> = None | Some(value: T)
}
