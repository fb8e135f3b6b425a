/** Failure-compatible wrappers standing in for Rust's `Option` and `Result`.
    `Outcome` carries the error's display text, which is all the monitor ever
    does with a `Box<dyn Error>` (it logs it or passes it on with `?`). */
module Results {

  datatype Option<+T> = None | Some(value: T)

  /** The result of one fallible step: a bus call, a property read, a build. */
  datatype Outcome<+T> = Ok(value: T) | Err(error: string) {

    predicate IsFailure() {
      Err?
    }

    /** Re-types a failure, as Rust's `?` converts the error into the caller's error type. */
    function PropagateFailure<U>(): Outcome<U>
      requires Err?
    {
      Err(error)
    }

    function Extract(): T
      requires Ok?
    {
      value
    }
  }
}
