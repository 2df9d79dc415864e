// Small sum types shared by every component of the model.
module Wrappers {

  /** A value that may be absent (a C# null or a failed lookup). */
  datatype Option<T> = None | Some(value: T)

  /**
   * The outcome of a C# operation that either completes or throws; `Fail`
   * carries the exception message the source raises.
   */
  datatype Outcome = Pass | Fail(message: string)
}
