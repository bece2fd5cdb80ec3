/** Failure-carrying values used where the bartender raises an exception. */
module Results {

  datatype Option<+T> = None | Some(value: T)

  datatype Result<+T, +E> = Success(value: T) | Failure(error: E)

  /** The two exceptions the controller can raise on a click. */
  datatype Error =
    | NothingToPour              // `pumpTimes[-1]` on an empty plan raises IndexError
    | UnknownPump(key: string)   // `pump_configuration[key]` raises KeyError

  /** Outcome of an operation that returns nothing when it succeeds. */
  datatype Outcome = Pass | Fail(error: Error)
}
