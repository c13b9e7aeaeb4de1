/// The earliest round-robin balancer: it owns its backend list and an index,
/// and on every request advances the index and serves the backend there
/// (internal/loadbalancer/round_robin_lb.go).
module LoadBalancer {
  import opened Base
  import opened Http
  import opened Backends
  import opened Cyclic

  class RoundRobinLB {
    var backends: seq<Backend>
    var index: int

    /** The index always names a backend once there is one. */
    ghost predicate Valid()
      reads this
    {
      0 <= index && (index < |backends| || index == 0)
    }

    constructor ()
      ensures Valid() && backends == [] && index == 0
    {
      backends := [];
      index := 0;
    }

    method AddBackend(b: Backend) returns (err: Option<Error>)
      requires Valid()
      modifies this
      ensures Valid()
      ensures backends == old(backends) + [b] && index == old(index) && err.None?
    {
      backends := backends + [b];
      return None;
    }

    /** With no backend the source panics; otherwise the index is advanced
        first and the backend at the new index serves the request. */
    method ServeProxy(req: Request, upstreamOk: int -> bool) returns (r: Result<Response, Error>)
      requires Valid()
      modifies this`index
      ensures Valid()
      ensures backends == [] ==> r == Failure(Panic("No backends")) && index == old(index)
      ensures backends != [] ==>
        index == Next(old(index), |backends|) &&
        r == Success(Forwarded(backends[index].id, backends[index].Serve(req, upstreamOk)))
    {
      if |backends| == 0 {
        return Failure(Panic("No backends"));
      }
      // the source logs the backend at the old index before advancing
      var announced := backends[index];
      index := (index + 1) % |backends|;
      var b := backends[index];
      return Success(Forwarded(b.id, b.Serve(req, upstreamOk)));
    }
  }
}
