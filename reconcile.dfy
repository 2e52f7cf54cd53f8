/** Values exchanged between the reconciler's steps: the errors a step can
    surface and the directive it hands back to its caller. */
module Reconcile {

  datatype Option<+T> = None | Some(value: T)

  /** The errors the adder can see or produce. `NoHost` is the soft
      condition raised while the route URL is still unset; `NotFound` and
      `AlreadyExists` are the store's own conditions; every other failure
      (a conflict, a cancelled context, a transport error) is `Other`. */
  datatype Error =
    | NoHost
    | NotFound
    | AlreadyExists
    | Other(reason: string)

  /** The directive a step returns: go on with the next step, stop this
      pass, or stop and have the pass redelivered with an error. */
  datatype Result =
    | Continue
    | Stop
    | RequeueWith(err: Error)
  {
    /** The error carried by the directive, if any (the `error` half of
        the source's `(Result, error)` pair). */
    function Err(): (e: Option<Error>)
      ensures e.Some? <==> RequeueWith?
      ensures RequeueWith? ==> e.value == err
    {
      if RequeueWith? then Some(err) else None
    }
  }
}
