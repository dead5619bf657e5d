/** `Option`, and the outcome of a Java call that may throw. */
module Wrappers {

  datatype Option<+T> = None | Some(value: T)

  /** A Java call either completes or raises one of the exceptions the model names. */
  datatype JavaException = NullPointerException | IllegalArgumentException

  datatype Outcome = Completed | Thrown(error: JavaException)
}
