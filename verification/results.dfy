/** Failure-carrying values shared by the modules of this model: a nullable
    value (`Option`), the outcome of a check that returns nothing (`Outcome`)
    and the outcome of a computation that returns a value (`Result`). */
module Results {

  /** A Kotlin nullable value: `None` stands for `null`. */
  datatype Option<+T> = None | Some(value: T)

  /** The outcome of a check such as Kotlin's `require`: it passes or it
      fails with an error value. */
  datatype Outcome<+E> = Pass | Fail(error: E)

  /** A value, or the error that was raised instead of returning one. */
  datatype Result<+T, +E> = Success(value: T) | Failure(error: E)
}
