/** The ways an awaited step can end, shared by every imperative model in this project. */
module Outcomes {

  datatype Option<+T> = None | Some(value: T)

  /** `Done` is a normal return. `Raised` is an exception, which a handler of the
      caller may catch. `Crashed` is the loss of the process: no handler sees it
      and nothing but durable state survives it. */
  datatype Outcome<+T> = Done(value: T) | Raised | Crashed {

    predicate IsFailure() {
      !Done?
    }

    function PropagateFailure<U>(): Outcome<U>
      requires IsFailure()
    {
      if Raised? then Raised else Crashed
    }

    function Extract(): T
      requires Done?
    {
      value
    }
  }
}
