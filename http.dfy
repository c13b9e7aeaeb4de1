/// The slice of HTTP the dispatch core looks at: request header, path, client
/// address and retry count; responses reduced to their status and the backend
/// that served them.
module Http {
  import opened Base

  const StatusBadGateway := 502
  const StatusServiceUnavailable := 503

  /** An inbound request. `retries` is the retry count stored in the request
      context by the forwarding layer (absent on a fresh request). */
  datatype Request = Request(
    header: map<string, string>,
    path: string,
    remoteAddr: string,
    retries: Option<int>)

  /** What the forwarding layer made of one request: the upstream answered on
      attempt number `attempts`, or every attempt failed and the client got 502. */
  datatype ProxyResult = Delivered(attempts: nat) | BadGateway(attempts: nat)

  /** The answer of a dispatcher: forwarded to a backend, or an error status. */
  datatype Response = Forwarded(backendId: string, outcome: ProxyResult) | ErrorStatus(status: int)

  /** A transport connection, identified by an opaque handle and the client address. */
  datatype Conn = Conn(handle: nat, remoteAddr: string)

  /** The connection states the HTTP server reports to its state hook. */
  datatype ConnState = StateNew | StateActive | StateIdle | StateHijacked | StateClosed
}
