/** Optional values, results and pass/fail outcomes: Python's `None`,
    raised exceptions and `try`/`except` become values of these types. */
module Wrappers {

  datatype Option<+T> = None | Some(value: T)

  /** The result of a call that may raise: `Err` carries the exception message. */
  datatype Result<+T> = Ok(value: T) | Err(error: string) {
    predicate IsFailure() {
      Err?
    }

    function PropagateFailure<U>(): Result<U>
      requires Err?
    {
      Err(error)
    }

    function Extract(): T
      requires Ok?
    {
      value
    }
  }

  /** The outcome of a call made only for its possible exception. */
  datatype Outcome = Pass | Fail(error: string)
}
