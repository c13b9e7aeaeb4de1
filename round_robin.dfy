/// The registry-backed round-robin balancer: a bounded search from the stored
/// index for a live backend (internal/loadbalancer/round_robin/round_robin_lb.go).
module RoundRobin {
  import opened Base
  import opened Http
  import opened Backends
  import opened Registry
  import opened Cyclic

  class RoundRobinLB {
    const registry: BackendRegistry
    var index: int

    ghost predicate Valid()
      reads this
    {
      0 <= index
    }

    /** A new balancer starts at index 0 over the given registry. */
    constructor (registry: BackendRegistry)
      ensures Valid() && this.registry == registry && index == 0
    {
      this.registry := registry;
      index := 0;
    }

    /** Advances the stored index by one modulo the registry size and returns it.
        The callers only ask when the registry is non-empty. */
    method GetNextIndex() returns (i: int)
      requires Valid() && registry.Len() > 0
      modifies this`index
      ensures Valid()
      ensures i == Next(old(index), registry.Len()) && index == i
      ensures 0 <= i < registry.Len()
    {
      i := (index + 1) % registry.Len();
      index := i;
    }

    /** Tries at most `registry.Len()` successive indices and returns the first
        live backend met; none at all exactly when every backend is down. */
    method GetNextBackend() returns (r: Option<Backend>)
      requires Valid()
      modifies this`index
      ensures Valid()
      ensures registry.Len() == 0 ==> r.None? && index == old(index)
      ensures r.Some? ==> index < registry.Len() && r.value.alive && registry.backends[index] == r.value
      ensures r.None? <==> forall k :: 0 <= k < registry.Len() ==> !registry.backends[k].alive
      ensures registry.Len() > 0 ==>
        exists steps :: 1 <= steps <= registry.Len() &&
          index == Advanced(old(index), steps, registry.Len()) &&
          forall t :: 1 <= t < steps ==> !registry.backends[Advanced(old(index), t, registry.Len())].alive
    {
      var n := registry.Len();
      ghost var start := index;
      var i := 0;
      while i < registry.Len()
        invariant 0 <= i <= n && Valid()
        invariant i == 0 ==> index == start
        invariant 0 < i ==> index == Advanced(start, i, n)
        invariant forall t :: 1 <= t <= i ==> !registry.backends[Advanced(start, t, n)].alive
      {
        var next := GetNextIndex();
        if i > 0 {
          ModAddLeft(start + i, 1, n);
        }
        var found := registry.GetBackendByIndex(next);
        if found.Failure? {
          return None;
        }
        if found.value.IsAlive() {
          assert index == Advanced(start, i + 1, n);
          return Some(found.value);
        }
        i := i + 1;
      }
      if n > 0 {
        AllVisitedDead(registry.backends, start);
      }
      return None;
    }

    /** Answers 503 exactly when no live backend is found, and otherwise forwards. */
    method ServeProxy(req: Request, upstreamOk: int -> bool) returns (resp: Response)
      requires Valid()
      modifies this`index
      ensures Valid()
      ensures resp.ErrorStatus? <==> forall k :: 0 <= k < registry.Len() ==> !registry.backends[k].alive
      ensures resp.ErrorStatus? ==> resp.status == StatusServiceUnavailable
      ensures resp.Forwarded? ==>
        (index < registry.Len() &&
         var b := registry.backends[index];
         b.alive && resp == Forwarded(b.id, b.Serve(req, upstreamOk)))
      ensures registry.Len() == 0 ==> index == old(index)
      ensures registry.Len() > 0 ==>
        exists steps :: 1 <= steps <= registry.Len() &&
          index == Advanced(old(index), steps, registry.Len()) &&
          forall t :: 1 <= t < steps ==> !registry.backends[Advanced(old(index), t, registry.Len())].alive
    {
      var b := GetNextBackend();
      if b.Some? {
        return Forwarded(b.value.id, b.value.Serve(req, upstreamOk));
      }
      return ErrorStatus(StatusServiceUnavailable);
    }
  }

  /** If the `n` positions after `start` are all down, every backend is down. */
  lemma AllVisitedDead(s: seq<Backend>, start: int)
    requires 0 <= start && 0 < |s|
    requires forall t :: 1 <= t <= |s| ==> !s[Advanced(start, t, |s|)].alive
    ensures forall k :: 0 <= k < |s| ==> !s[k].alive
  {
    forall k | 0 <= k < |s| ensures !s[k].alive {
      var t := AdvancesCover(start, |s|, k);
    }
  }
}
