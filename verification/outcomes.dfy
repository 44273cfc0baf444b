/** Small result types shared by the model: Python's `None`-or-value, and a
    computation that either returns or raises an exception. */
module Outcomes {

  /** A Python value that may be `None`. */
  datatype Option<+T> = None | Some(value: T)

  /** The result of a Python call that may raise: either it returned a value
      or an exception escaped from it. */
  datatype Attempt<+T> = Returned(value: T) | Raised {
    predicate IsFailure() {
      Raised?
    }

    function PropagateFailure<U>(): Attempt<U>
      requires Raised?
    {
      Raised
    }

    function Extract(): T
      requires Returned?
    {
      value
    }

    /** `try: ... except Exception: return default`. */
    function Recover(default: T): T {
      match this
      case Returned(v) => v
      case Raised => default
    }
  }
}
