/** Optional values and the outcome of a JavaScript call that may throw. */
module Wrappers {

  /** A value that may be absent (`null` or `undefined` in the source). */
  datatype Option<+T> = None | Some(value: T)

  /** How a JavaScript call completes: it returns a value or it throws.
      Failure-compatible, so `:-` propagates a throw the way an exception
      unwinds to the nearest `catch`. */
  datatype Completion<+T> = Normal(value: T) | Throw(message: string) {

    predicate IsFailure() {
      Throw?
    }

    function PropagateFailure<U>(): Completion<U>
      requires Throw?
    {
      Throw(message)
    }

    function Extract(): T
      requires Normal?
    {
      value
    }
  }
}
