/** A value that may be absent, and a call that may raise. */
module Options {
  datatype Option<+T> = None | Some(value: T)

  /** How a call that gives no value ends; `:-` passes an exception on to the caller. */
  datatype Outcome = Returned | Raised {
    predicate IsFailure() {
      Raised?
    }

    function PropagateFailure(): Outcome {
      this
    }
  }
}
