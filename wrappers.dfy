/** Failure-carrying values shared by the model's modules.
    A JVM exception that the modelled code itself raises is modelled as a
    returned failure; failures inside framework calls are not modelled. */
module Wrappers {

  datatype Option<+T> = None | Some(value: T)

  /** The exceptions the modelled Kotlin code can raise. */
  datatype Exception =
    | NullPointer        // dereferencing a missing child (`getChildAt` returned null)
    | IndexOutOfBounds   // list index or sub-list bound outside the list
    | IllegalArgument    // a sub-list whose start lies after its end
    | IllegalState       // a model class registered twice

  /** Outcome of an operation that returns nothing but may throw. */
  datatype Outcome = Pass | Fail(error: Exception)

  /** Outcome of an operation that returns a value but may throw. */
  datatype Result<+T> = Success(value: T) | Failure(error: Exception)
}
