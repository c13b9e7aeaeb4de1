/// The health checker of the registry-backed revisions: one pass probes every
/// backend of the current registry snapshot in order, updates its liveness
/// flag and reports changes as membership events
/// (internal/backend/health/health_check.go). The TCP probe is an input: one
/// outcome per snapshot entry.
module BackendHealth {
  import opened Base
  import opened Backends
  import opened Registry
  import opened Register

  /** The event one probe outcome produces for a backend that was `wasAlive`:
      a backend coming back up is announced as added; a failed probe is always
      announced as removed, even for a backend already down; a backend that
      stays up produces nothing. */
  function Decide(id: string, wasAlive: bool, probeUp: bool): Option<BackendEvent> {
    if probeUp && !wasAlive then Some(Added(id))
    else if !probeUp then Some(Removed(id))
    else None
  }

  /** Each of the three outcomes, characterised in both directions. */
  lemma DecideOutcomes(id: string, wasAlive: bool, probeUp: bool)
    ensures Decide(id, wasAlive, probeUp).Some? ==> Decide(id, wasAlive, probeUp).value.actor == id
    ensures Decide(id, wasAlive, probeUp) == Some(Added(id)) <==> probeUp && !wasAlive
    ensures Decide(id, wasAlive, probeUp) == Some(Removed(id)) <==> !probeUp
    ensures Decide(id, wasAlive, probeUp).None? <==> probeUp && wasAlive
  {
  }

  function AsSeq(e: Option<BackendEvent>): seq<BackendEvent> {
    if e.Some? then [e.value] else []
  }

  /** The events a pass emits while visiting the first `upTo` backends of the
      snapshot, in snapshot order; the whole pass is `upTo == |ids|`. */
  function PassEvents(ids: seq<string>, wasAlive: seq<bool>, probes: seq<bool>, upTo: nat): seq<BackendEvent>
    requires |ids| == |wasAlive| == |probes| && upTo <= |ids|
  {
    if upTo == 0 then []
    else PassEvents(ids, wasAlive, probes, upTo - 1) + AsSeq(Decide(ids[upTo - 1], wasAlive[upTo - 1], probes[upTo - 1]))
  }

  /** Visiting position `i` appends the event decided there. */
  lemma PassEventsExtend(ids: seq<string>, wasAlive: seq<bool>, probes: seq<bool>, i: nat,
                         emitted: seq<BackendEvent>, decided: Option<BackendEvent>)
    requires |ids| == |wasAlive| == |probes| && i < |ids|
    requires emitted == PassEvents(ids, wasAlive, probes, i)
    requires decided == Decide(ids[i], wasAlive[i], probes[i])
    ensures emitted + AsSeq(decided) == PassEvents(ids, wasAlive, probes, i + 1)
  {
  }

  /** The events of `es` that carry instance ID `id`. */
  function EventsFor(es: seq<BackendEvent>, id: string): seq<BackendEvent> {
    if es == [] then []
    else (if es[0].actor == id then [es[0]] else []) + EventsFor(es[1..], id)
  }

  lemma {:induction false} EventsForAppend(a: seq<BackendEvent>, b: seq<BackendEvent>, id: string)
    ensures EventsFor(a + b, id) == EventsFor(a, id) + EventsFor(b, id)
  {
    if a == [] {
      assert a + b == b;
    } else {
      var head := if a[0].actor == id then [a[0]] else [];
      calc {
        EventsFor(a + b, id);
        { assert (a + b)[0] == a[0]; }
        head + EventsFor((a + b)[1..], id);
        { assert (a + b)[1..] == a[1..] + b; }
        head + EventsFor(a[1..] + b, id);
        { EventsForAppend(a[1..], b, id); }
        head + (EventsFor(a[1..], id) + EventsFor(b, id));
        (head + EventsFor(a[1..], id)) + EventsFor(b, id);
        EventsFor(a, id) + EventsFor(b, id);
      }
    }
  }

  /** The events about `id` that the decision for a backend carrying `owner` produces. */
  function Concerning(owner: string, wasAlive: bool, probeUp: bool, id: string): seq<BackendEvent> {
    if owner == id then AsSeq(Decide(owner, wasAlive, probeUp)) else []
  }

  lemma EventsForDecided(owner: string, wasAlive: bool, probeUp: bool, id: string)
    ensures EventsFor(AsSeq(Decide(owner, wasAlive, probeUp)), id) == Concerning(owner, wasAlive, probeUp, id)
  {
    var d := AsSeq(Decide(owner, wasAlive, probeUp));
    if d != [] {
      assert d[1..] == [];
    }
  }

  /** The events about `id` among those a pass emits while visiting the first
      `upTo` backends. */
  function PassEventsFor(ids: seq<string>, wasAlive: seq<bool>, probes: seq<bool>, upTo: nat, id: string): seq<BackendEvent>
    requires |ids| == |wasAlive| == |probes| && upTo <= |ids|
  {
    EventsFor(PassEvents(ids, wasAlive, probes, upTo), id)
  }

  /** Reference definition of the events a pass emits about `id` while
      visiting the first `upTo` backends: each visited backend contributes its
      decided event exactly when it carries `id`. */
  function OwnEvents(ids: seq<string>, wasAlive: seq<bool>, probes: seq<bool>, upTo: nat, id: string): seq<BackendEvent>
    requires |ids| == |wasAlive| == |probes| && upTo <= |ids|
  {
    if upTo == 0 then []
    else OwnEvents(ids, wasAlive, probes, upTo - 1, id) + Concerning(ids[upTo - 1], wasAlive[upTo - 1], probes[upTo - 1], id)
  }

  /** Visiting position `upTo - 1` adds to the events about `id` exactly what
      that backend's decision says about `id`. */
  lemma PassEventsStep(ids: seq<string>, wasAlive: seq<bool>, probes: seq<bool>, upTo: nat, id: string)
    requires |ids| == |wasAlive| == |probes| && 0 < upTo <= |ids|
    ensures PassEventsFor(ids, wasAlive, probes, upTo, id) ==
      PassEventsFor(ids, wasAlive, probes, upTo - 1, id) +
      Concerning(ids[upTo - 1], wasAlive[upTo - 1], probes[upTo - 1], id)
  {
    var prev := PassEvents(ids, wasAlive, probes, upTo - 1);
    var last := AsSeq(Decide(ids[upTo - 1], wasAlive[upTo - 1], probes[upTo - 1]));
    assert PassEvents(ids, wasAlive, probes, upTo) == prev + last;
    EventsForAppend(prev, last, id);
    EventsForDecided(ids[upTo - 1], wasAlive[upTo - 1], probes[upTo - 1], id);
  }

  /** If filtering the events of the first `upTo - 1` visits agrees with the
      reference definition, so does filtering those of the first `upTo`. */
  lemma PassEventsAboutStep(ids: seq<string>, wasAlive: seq<bool>, probes: seq<bool>, upTo: nat, id: string)
    requires |ids| == |wasAlive| == |probes| && 0 < upTo <= |ids|
    requires PassEventsFor(ids, wasAlive, probes, upTo - 1, id) == OwnEvents(ids, wasAlive, probes, upTo - 1, id)
    ensures PassEventsFor(ids, wasAlive, probes, upTo, id) == OwnEvents(ids, wasAlive, probes, upTo, id)
  {
    PassEventsStep(ids, wasAlive, probes, upTo, id);
  }

  /** Filtering the events of a pass by an ID gives its reference definition. */
  lemma {:induction false} PassEventsAbout(ids: seq<string>, wasAlive: seq<bool>, probes: seq<bool>, upTo: nat, id: string)
    requires |ids| == |wasAlive| == |probes| && upTo <= |ids|
    ensures PassEventsFor(ids, wasAlive, probes, upTo, id) == OwnEvents(ids, wasAlive, probes, upTo, id)
  {
    if upTo > 0 {
      PassEventsAbout(ids, wasAlive, probes, upTo - 1, id);
      PassEventsAboutStep(ids, wasAlive, probes, upTo, id);
    }
  }

  lemma {:induction false} OwnEventsAbsent(ids: seq<string>, wasAlive: seq<bool>, probes: seq<bool>, upTo: nat, id: string)
    requires |ids| == |wasAlive| == |probes| && upTo <= |ids|
    requires forall k :: 0 <= k < upTo ==> ids[k] != id
    ensures OwnEvents(ids, wasAlive, probes, upTo, id) == []
  {
    if upTo > 0 {
      OwnEventsAbsent(ids, wasAlive, probes, upTo - 1, id);
    }
  }

  /** The last visited backend, if no earlier one shares its ID, owns exactly
      the events its own probe decides. */
  lemma OwnEventsLast(ids: seq<string>, wasAlive: seq<bool>, probes: seq<bool>, upTo: nat)
    requires |ids| == |wasAlive| == |probes| && 0 < upTo <= |ids|
    requires forall k :: 0 <= k < upTo - 1 ==> ids[k] != ids[upTo - 1]
    ensures OwnEvents(ids, wasAlive, probes, upTo, ids[upTo - 1])
         == AsSeq(Decide(ids[upTo - 1], wasAlive[upTo - 1], probes[upTo - 1]))
  {
    OwnEventsAbsent(ids, wasAlive, probes, upTo - 1, ids[upTo - 1]);
  }

  /** Visiting a backend with another ID adds nothing to an ID's own events. */
  lemma OwnEventsSkip(ids: seq<string>, wasAlive: seq<bool>, probes: seq<bool>, upTo: nat, id: string)
    requires |ids| == |wasAlive| == |probes| && 0 < upTo <= |ids|
    requires ids[upTo - 1] != id
    ensures OwnEvents(ids, wasAlive, probes, upTo, id) == OwnEvents(ids, wasAlive, probes, upTo - 1, id)
  {
  }

  /** Visiting backends that all have other IDs adds nothing to an ID's own
      events. */
  lemma {:induction false} OwnEventsSkipRange(ids: seq<string>, wasAlive: seq<bool>, probes: seq<bool>, from: nat, upTo: nat, id: string)
    requires |ids| == |wasAlive| == |probes| && from <= upTo <= |ids|
    requires forall k :: from <= k < upTo ==> ids[k] != id
    ensures OwnEvents(ids, wasAlive, probes, upTo, id) == OwnEvents(ids, wasAlive, probes, from, id)
  {
    if from < upTo {
      OwnEventsSkip(ids, wasAlive, probes, upTo, id);
      OwnEventsSkipRange(ids, wasAlive, probes, from, upTo - 1, id);
    }
  }

  /** A backend whose ID no other visited backend shares owns exactly the
      events its own probe decides. */
  lemma OwnEventsUnique(ids: seq<string>, wasAlive: seq<bool>, probes: seq<bool>, upTo: nat, i: nat)
    requires |ids| == |wasAlive| == |probes| && i < upTo <= |ids|
    requires forall k :: 0 <= k < upTo && k != i ==> ids[k] != ids[i]
    ensures OwnEvents(ids, wasAlive, probes, upTo, ids[i]) == AsSeq(Decide(ids[i], wasAlive[i], probes[i]))
  {
    OwnEventsLast(ids, wasAlive, probes, i + 1);
    OwnEventsSkipRange(ids, wasAlive, probes, i + 1, upTo, ids[i]);
  }

  /** When no other visited backend shares its ID (as in a registry, whose IDs
      are distinct), the events a pass emits about the backend at position `i`
      are exactly the one its own probe decides: one added event when it comes
      back up, one removed event when its probe fails (even if it was already
      down), none when it stays up. */
  lemma PassEventsPerBackend(ids: seq<string>, wasAlive: seq<bool>, probes: seq<bool>, upTo: nat, i: nat)
    requires |ids| == |wasAlive| == |probes| && i < upTo <= |ids|
    requires forall k :: 0 <= k < upTo && k != i ==> ids[k] != ids[i]
    ensures EventsFor(PassEvents(ids, wasAlive, probes, upTo), ids[i]) == AsSeq(Decide(ids[i], wasAlive[i], probes[i]))
  {
    PassEventsAbout(ids, wasAlive, probes, upTo, ids[i]);
    OwnEventsUnique(ids, wasAlive, probes, upTo, i);
  }

  /** A pass emits nothing about an ID it has not visited. */
  lemma NoEventsForAbsent(ids: seq<string>, wasAlive: seq<bool>, probes: seq<bool>, upTo: nat, id: string)
    requires |ids| == |wasAlive| == |probes| && upTo <= |ids|
    requires forall k :: 0 <= k < upTo ==> ids[k] != id
    ensures EventsFor(PassEvents(ids, wasAlive, probes, upTo), id) == []
  {
    PassEventsAbout(ids, wasAlive, probes, upTo, id);
    OwnEventsAbsent(ids, wasAlive, probes, upTo, id);
  }

  class Checker {
    const registry: BackendRegistry
    const interval: int

    constructor (registry: BackendRegistry, interval: int)
      ensures this.registry == registry && this.interval == interval
    {
      this.registry := registry;
      this.interval := interval;
    }

    /** One health-check pass over the current snapshot. `probes[i]` is the
        outcome of the connection probe to the `i`-th backend's address; the
        returned events are what the pass sends on the event channel, and
        `wasAlive` records the flags the pass found. */
    method CheckBackendLiveness(probes: seq<bool>) returns (events: seq<BackendEvent>, ghost wasAlive: seq<bool>)
      requires registry.Valid()
      requires |probes| == |registry.backends|
      modifies registry.backends
      ensures |wasAlive| == |registry.backends|
      ensures forall i :: 0 <= i < |registry.backends| ==> wasAlive[i] == old(registry.backends[i].alive)
      ensures forall i :: 0 <= i < |registry.backends| ==> registry.backends[i].alive == probes[i]
      ensures events == PassEvents(Ids(registry.backends), wasAlive, probes, |registry.backends|)
    {
      var s := registry.GetBackends();
      assert forall a, b :: 0 <= a < b < |s| ==> s[a] != s[b];
      events, wasAlive := Pass(s, Ids(s), probes);
    }
  }

  /** The per-backend step of a pass: flips the flag to the probe outcome
      and returns the event to send, if any. */
  method UpdateLiveness(b: Backend, isAlive: bool) returns (e: Option<BackendEvent>)
    modifies b`alive
    ensures b.alive == isAlive
    ensures e == Decide(b.id, old(b.alive), isAlive)
  {
    if isAlive && !b.IsAlive() {
      b.SetAlive(AliveUp);
      e := Some(Added(b.id));
    } else if !isAlive {
      b.SetAlive(AliveDown);
      e := Some(Removed(b.id));
    } else {
      e := None;
    }
  }

  /** The loop of a pass over the snapshot `s`, whose IDs are `ids`. */
  method Pass(s: seq<Backend>, ghost ids: seq<string>, probes: seq<bool>) returns (events: seq<BackendEvent>, ghost wasAlive: seq<bool>)
    requires |probes| == |s| == |ids|
    requires forall k :: 0 <= k < |s| ==> s[k].id == ids[k]
    requires forall a, b :: 0 <= a < b < |s| ==> s[a] != s[b]
    modifies s
    ensures |wasAlive| == |s|
    ensures forall k :: 0 <= k < |s| ==> wasAlive[k] == old(s[k].alive)
    ensures forall k :: 0 <= k < |s| ==> s[k].alive == probes[k]
    ensures events == PassEvents(ids, wasAlive, probes, |s|)
  {
    wasAlive := seq(|s|, k requires 0 <= k < |s| reads s => s[k].alive);
    events := [];
    var i := 0;
    while i < |s|
      invariant 0 <= i <= |s|
      invariant forall k :: 0 <= k < i ==> s[k].alive == probes[k]
      invariant forall k :: i <= k < |s| ==> s[k].alive == wasAlive[k]
      invariant events == PassEvents(ids, wasAlive, probes, i)
    {
      var b := s[i];
      assert b.alive == wasAlive[i];
      var decided := UpdateLiveness(b, probes[i]);
      PassEventsExtend(ids, wasAlive, probes, i, events, decided);
      events := events + AsSeq(decided);
      i := i + 1;
    }
  }
}
