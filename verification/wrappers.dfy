/** Option, the outcome of a call to the remote table store, and the value a
    failed call throws. */
module Wrappers {

  datatype Option<+T> = None | Some(value: T) {
    function GetOr(default: T): T {
      match this
      case Some(v) => v
      case None => default
    }
  }

  /** What a rejected remote call throws. `isErrorInstance` records whether the
      thrown value is an `Error` object (so that its message is shown) or some
      other value (so that the hook's fixed fallback text is shown). */
  datatype Thrown = Thrown(isErrorInstance: bool, message: string)

  /** The answer of one remote call: the row(s) it returned, or what it threw. */
  datatype Remote<T> = Success(value: T) | Failure(err: Thrown)

  /** The result a hook's mutator hands back to its caller: the converted row,
      or the same value rethrown. */
  datatype Result<T> = Ok(value: T) | Err(err: Thrown)

  /** The error text a hook stores: `err instanceof Error ? err.message : fallback`. */
  function ErrorText(err: Thrown, fallback: string): (text: string)
    ensures err.isErrorInstance ==> text == err.message
    ensures !err.isErrorInstance ==> text == fallback
  {
    if err.isErrorInstance then err.message else fallback
  }
}
