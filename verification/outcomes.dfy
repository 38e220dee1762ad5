/**
 * What a coordinator call reports to its caller. The source reports through a
 * Node-style callback `(err, value)` and marks a miss by a `keyNotFound` flag on
 * the error object; here the kinds of report form one closed datatype.
 */
module Outcomes {
  import opened Wrappers

  const SetConfigMessage := "local or remote must be specified when setting to cache"
  const GetConfigMessage := "local or remote must be specified when getting from cache"

  /** The `name` of the error object that reports a miss. */
  const MultiErrorName := "MultiError"

  datatype Outcome<T> =
    // err falsy, second argument `result`; a set's `Some(true)` marks a non-empty result
    | Ok(result: Option<T>)
    | ConfigError(message: string)               // no tier selected for set or get
    | KeyNotFound                                // err.keyNotFound is set, value undefined
    | BackendError(error: string, result: Option<T>)  // a tier's own error, passed on verbatim
  {
    /** The second callback argument; None stands for `undefined`. */
    function Value(): Option<T> {
      if Ok? || BackendError? then result else None
    }

    /** True when the callback's first argument is truthy. */
    predicate IsError() {
      !Ok?
    }

    /** The `name` property of the error object, where the behaviour fixes one. */
    function ErrorName(): Option<string> {
      if KeyNotFound? then Some(MultiErrorName) else None
    }
  }

  /**
   * How an outcome reaches the caller: through the callback when one was given;
   * otherwise a configuration error is thrown synchronously and anything else is
   * dropped (fire-and-forget).
   */
  datatype Delivery<T> = Delivered(outcome: Outcome<T>) | Thrown(message: string) | Dropped

  function Deliver<T>(o: Outcome<T>, withCallback: bool): (d: Delivery<T>)
    ensures withCallback ==> d == Delivered(o)
    ensures !withCallback ==> !d.Delivered?
    ensures d.Thrown? <==> !withCallback && o.ConfigError?
    ensures d.Thrown? ==> d.message == o.message
  {
    if withCallback then Delivered(o)
    else if o.ConfigError? then Thrown(o.message)
    else Dropped
  }
}
