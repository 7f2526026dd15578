/** Option for the source's nullable references and values, and Outcome for
    an expression that may throw instead of returning a value. */
module Wrappers {

  datatype Option<+T> = None | Some(value: T)

  /** `Thrown` stands for an exception escaping the expression. */
  datatype Outcome<+T> = Thrown | Returned(value: T)
}
