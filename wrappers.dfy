/** The absent-or-present value shared by the modules of this project. */
module Wrappers {

  /** `None` stands for JavaScript's `null`/`undefined` where the pages use it. */
  datatype Option<+T> = None | Some(value: T)
}
