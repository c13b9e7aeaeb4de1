/// The health checker of the first revision: it owns a list of backends given
/// to it wholesale and on every pass sets each one's liveness flag to the
/// outcome of its probe, without emitting anything (internal/health/health_check.go).
module Health {
  import opened Backends

  /** Position `k` is the last occurrence of its backend in `s`: a later
      occurrence of the same object would overwrite its flag. */
  ghost predicate LastOccurrence(s: seq<Backend>, k: int)
    requires 0 <= k < |s|
  {
    forall j :: k < j < |s| ==> s[j] != s[k]
  }

  class Checker {
    var backends: seq<Backend>
    const interval: int

    /** A new checker tracks no backend. */
    constructor (interval: int)
      ensures backends == [] && this.interval == interval
    {
      backends := [];
      this.interval := interval;
    }

    /** Replaces the tracked list; it does not extend it. */
    method AddBackends(backends: seq<Backend>)
      modifies this
      ensures this.backends == backends
    {
      this.backends := backends;
    }

    /** One pass: `probes[i]` is the probe outcome of the `i`-th tracked
        backend. Every tracked backend ends with the flag of its last probe
        (its only probe when the list has no repetition); nothing else changes. */
    method CheckBackendLiveness(probes: seq<bool>)
      requires |probes| == |backends|
      modifies set b | b in backends
      ensures forall k :: 0 <= k < |backends| && LastOccurrence(backends, k) ==>
        backends[k].alive == probes[k]
      ensures (forall a, b :: 0 <= a < b < |backends| ==> backends[a] != backends[b]) ==>
        forall k :: 0 <= k < |backends| ==> backends[k].alive == probes[k]
    {
      var i := 0;
      while i < |backends|
        invariant 0 <= i <= |backends|
        invariant forall k :: 0 <= k < i && LastOccurrence(backends[..i], k) ==>
          backends[k].alive == probes[k]
      {
        var b := backends[i];
        if probes[i] {
          b.SetAlive(AliveUp);
        } else {
          b.SetAlive(AliveDown);
        }
        i := i + 1;
      }
      assert backends[..i] == backends;
    }
  }
}
