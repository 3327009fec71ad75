/** The optional value used for the engine's nullable variables. */
module Wrappers {

  /** `None` stands for JavaScript's `null`. */
  datatype Option<T> = None | Some(value: T)
}
