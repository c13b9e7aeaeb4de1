/// Failure-carrying wrappers and the error values of the load balancer.
module Base {

  datatype Option<+T> = None | Some(value: T)

  datatype Result<+T, +E> = Success(value: T) | Failure(error: E)

  /** The errors the core returns to its callers. */
  datatype Error =
    | IndexOutOfRange               // registry: index outside the snapshot
    | BackendAlreadyExists          // registry: duplicate instance ID
    | InvalidAddress(reason: string) // backend: the address did not parse
    | BackendNotFound               // dispatcher: table answered an ID the registry lacks
    | NoBackendsAvailable           // dispatcher: failover exhausted
    | TableError(reason: string)    // dispatcher: the lookup table reported an error
    | Panic(message: string)        // an unrecovered run-time panic
}
