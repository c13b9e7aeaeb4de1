/// The backend entity: an instance ID, a parsed address, a liveness flag, and
/// the forwarding delegate with its bounded local retry policy
/// (internal/backend/backend.go).
module Backends {
  import opened Base
  import opened Http

  const AliveUp := true
  const AliveDown := false

  /** Number of local retries the forwarding delegate allows after the first attempt. */
  const MaxRetries := 3

  /** A parsed backend address (scheme, host and port). */
  datatype Url = Url(scheme: string, host: string)

  class Backend {
    const id: string
    const addr: Url
    var alive: bool

    constructor (id: string, addr: Url)
      ensures this.id == id && this.addr == addr && alive
    {
      this.id := id;
      this.addr := addr;
      alive := AliveUp;
    }

    method SetAlive(alive: bool)
      modifies this`alive
      ensures IsAlive() == alive
    {
      this.alive := alive;
    }

    function IsAlive(): bool
      reads this`alive
    {
      alive
    }

    /** Hands the request to this backend's forwarding delegate. */
    function Serve(req: Request, upstreamOk: int -> bool): (r: ProxyResult)
      ensures req.retries.None? ==> 1 <= r.attempts <= MaxRetries + 1
    {
      ServeHTTP(RetryFromContext(req.retries), upstreamOk)
    }
  }

  /** Builds a backend for `addr`; `parseUrl` stands for the URL parser. A new
      backend starts alive. */
  method NewDefaultBackend(id: string, addr: string, parseUrl: string -> Result<Url, string>)
    returns (r: Result<Backend, Error>)
    ensures parseUrl(addr).Failure? ==> r == Failure(InvalidAddress(parseUrl(addr).error))
    ensures parseUrl(addr).Success? ==>
      r.Success? && fresh(r.value) &&
      r.value.id == id && r.value.addr == parseUrl(addr).value && r.value.alive
  {
    var parsed := parseUrl(addr);
    if parsed.Failure? {
      return Failure(InvalidAddress(parsed.error));
    }
    var b := new Backend(id, parsed.value);
    return Success(b);
  }

  /** The retry count stored in a request's context; a request without one has made no retry. */
  function RetryFromContext(stored: Option<int>): (n: int)
    ensures stored.None? ==> n == 0
    ensures stored.Some? ==> n == stored.value
  {
    match stored
    case None => 0
    case Some(n) => n
  }

  /** What the delegate's error handler does after a failed attempt. */
  datatype ErrorAction = Retry(retries: int) | RespondBadGateway

  function ErrorHandler(retries: int): (a: ErrorAction)
    ensures a.Retry? <==> retries < MaxRetries
    ensures a.Retry? ==> a.retries == retries + 1
  {
    if retries < MaxRetries then Retry(retries + 1) else RespondBadGateway
  }

  /** The highest retry count at which a request arriving with `retries` is still attempted. */
  function LastAttempt(retries: int): int {
    if retries < MaxRetries then MaxRetries else retries
  }

  /**
   * One pass of the forwarding delegate for a request carrying retry count
   * `retries`. `upstreamOk(k)` is whether the attempt made at retry count `k`
   * reaches the upstream. On failure the error handler re-enters the delegate
   * with the count raised by one, until the count reaches MaxRetries.
   * The result is exactly "the first attempt that succeeds", or 502 after the
   * whole budget failed.
   */
  function ServeHTTP(retries: int, upstreamOk: int -> bool): (r: ProxyResult)
    decreases if retries < MaxRetries then MaxRetries - retries else 0
    ensures 1 <= r.attempts <= LastAttempt(retries) - retries + 1
    ensures r.Delivered? ==> upstreamOk(retries + r.attempts - 1)
    ensures forall k :: retries <= k < retries + r.attempts - 1 ==> !upstreamOk(k)
    ensures r.BadGateway? <==> forall k :: retries <= k <= LastAttempt(retries) ==> !upstreamOk(k)
    ensures r.BadGateway? ==> r.attempts == LastAttempt(retries) - retries + 1
  {
    if upstreamOk(retries) then
      Delivered(1)
    else
      match ErrorHandler(retries)
      case RespondBadGateway => BadGateway(1)
      case Retry(next) =>
        var rest := ServeHTTP(next, upstreamOk);
        if rest.Delivered? then Delivered(rest.attempts + 1) else BadGateway(rest.attempts + 1)
  }

  /** A fresh request whose every attempt fails is forwarded exactly four times
      (one attempt and three retries) and then answered with 502. */
  lemma FailingRequestIsAttemptedFourTimes(req: Request, upstreamOk: int -> bool)
    requires req.retries.None?
    requires forall k :: !upstreamOk(k)
    ensures ServeHTTP(RetryFromContext(req.retries), upstreamOk) == BadGateway(MaxRetries + 1)
  {
  }
}
