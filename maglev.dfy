/// The Maglev dispatcher (internal/loadbalancer/maglev/maglev_lb.go): it
/// extracts an affinity key from each request, asks the consistent-hash lookup
/// table for the owning backend, fails over around dead backends by evicting
/// them from the table, tracks long-lived WatchDocument streams, and on every
/// added-backend event closes the streams whose key the table now assigns to
/// another backend.
///
/// The lookup table's own algorithm is not part of this model. The table is
/// an abstract component: its state is the set of member IDs, and `Get`, `Add`
/// and `Remove` are fixed functions of that set (a `TableModel`), each of
/// which may report an error.
module Maglev {
  import opened Base
  import opened Http
  import opened Backends
  import opened Registry
  import opened Register

  const DefaultKey := "default"
  const WatchDocumentPath := "/yorkie.v1.YorkieService/WatchDocument"

  /** The behaviour of the lookup table as functions of its member set: the
      owner of a key (or an error message), and the error `Add`/`Remove` report, if any. */
  datatype TableModel = TableModel(
    lookup: (set<string>, string) -> Result<string, string>,
    addError: (set<string>, string) -> Option<string>,
    removeError: (set<string>, string) -> Option<string>)

  /** Members after `Add(id)`: a failed add leaves the table as it was. */
  function AfterAdd(model: TableModel, members: set<string>, id: string): set<string> {
    if model.addError(members, id).None? then members + {id} else members
  }

  /** Members after `Remove(id)`: a failed remove leaves the table as it was. */
  function AfterRemove(model: TableModel, members: set<string>, id: string): set<string> {
    if model.removeError(members, id).None? then members - {id} else members
  }

  function AsError(message: Option<string>): (e: Option<Error>)
    ensures e.None? <==> message.None?
  {
    if message.Some? then Some(TableError(message.value)) else None
  }

  class Table {
    const model: TableModel
    var members: set<string>

    constructor (model: TableModel, ids: set<string>)
      ensures this.model == model && members == ids
    {
      this.model := model;
      members := ids;
    }

    function Get(key: string): (r: Result<string, Error>)
      reads this
      ensures r.Success? <==> model.lookup(members, key).Success?
      ensures r.Success? ==> r.value == model.lookup(members, key).value
      ensures r.Failure? ==> r.error == TableError(model.lookup(members, key).error)
    {
      match model.lookup(members, key)
      case Success(id) => Success(id)
      case Failure(message) => Failure(TableError(message))
    }

    method Add(id: string) returns (err: Option<Error>)
      modifies this
      ensures members == AfterAdd(model, old(members), id)
      ensures err == AsError(model.addError(old(members), id))
    {
      err := AsError(model.addError(members, id));
      members := AfterAdd(model, members, id);
    }

    method Remove(id: string) returns (err: Option<Error>)
      modifies this
      ensures members == AfterRemove(model, old(members), id)
      ensures err == AsError(model.removeError(old(members), id))
    {
      err := AsError(model.removeError(members, id));
      members := AfterRemove(model, members, id);
    }
  }

  /** The process-wide map from client address to live connection, fed by the
      HTTP server's connection-state hook. */
  class ConnectionMap {
    var connections: map<string, Conn>

    constructor ()
      ensures connections == map[]
    {
      connections := map[];
    }

    method ConnStateEvent(conn: Conn, event: ConnState)
      modifies this
      ensures event == StateActive ==> connections == old(connections)[conn.remoteAddr := conn]
      ensures event == StateHijacked || event == StateClosed ==>
        connections == old(connections) - {conn.remoteAddr}
      ensures event !in {StateActive, StateHijacked, StateClosed} ==> connections == old(connections)
    {
      if event == StateActive {
        connections := connections[conn.remoteAddr := conn];
      } else if event == StateHijacked || event == StateClosed {
        connections := connections - {conn.remoteAddr};
      }
    }

    /** The connection registered for a request's client address; none (the
        source's nil) when there is no such entry. */
    function GetConn(req: Request): (c: Option<Conn>)
      reads this
      ensures c.Some? <==> req.remoteAddr in connections
      ensures c.Some? ==> c.value == connections[req.remoteAddr]
    {
      if req.remoteAddr in connections then Some(connections[req.remoteAddr]) else None
    }
  }

  /** A tracked long-lived stream: its connection, affinity key and pinned backend. */
  datatype Connection = Connection(conn: Option<Conn>, key: string, backendId: string)

  /** The affinity key: the configured header's value, or "default" when it is empty or absent. */
  function AffinityKey(header: map<string, string>, hashKey: string): (key: string)
    ensures key != ""
    ensures hashKey in header && header[hashKey] != "" ==> key == header[hashKey]
    ensures hashKey !in header || header[hashKey] == "" ==> key == DefaultKey
  {
    var value := if hashKey in header then header[hashKey] else "";
    if value == "" then DefaultKey else value
  }

  /** The outcome of failover for one key: the chosen backend or the error,
      the table's members afterwards, and how many table lookups were made. */
  datatype Choice = Choice(result: Result<Backend, Error>, members: set<string>, lookups: nat)

  function Shift(c: Choice, n: nat): Choice {
    c.(lookups := c.lookups + n)
  }

  /**
   * Failover over snapshot `s` with at most `fuel` lookups, starting from table
   * members `members`: look the key up; abort on a table error or an ID the
   * snapshot lacks; return the backend if it is alive; otherwise evict it from
   * the table (aborting if that fails) and look again.
   */
  ghost function Choose(model: TableModel, members: set<string>, key: string, s: seq<Backend>, fuel: nat): (c: Choice)
    reads set b | b in s
    ensures c.lookups <= fuel
    ensures fuel == 0 ==> c == Choice(Failure(NoBackendsAvailable), members, 0)
    ensures c.result.Success? ==> c.result.value in s && c.result.value.alive
    ensures c.result == Failure(NoBackendsAvailable) ==> c.lookups == fuel
    decreases fuel
  {
    if fuel == 0 then Choice(Failure(NoBackendsAvailable), members, 0)
    else match model.lookup(members, key)
      case Failure(message) => Choice(Failure(TableError(message)), members, 1)
      case Success(id) =>
        match FindById(s, id)
        case None => Choice(Failure(BackendNotFound), members, 1)
        case Some(i) =>
          if s[i].alive then Choice(Success(s[i]), members, 1)
          else match model.removeError(members, id)
            case Some(message) => Choice(Failure(TableError(message)), members, 1)
            case None => Shift(Choose(model, members - {id}, key, s, fuel - 1), 1)
  }

  /** Failover only ever evicts: the table's members afterwards are a subset
      of those before, and every evicted ID belongs to a backend of the
      snapshot that was found dead. */
  lemma {:induction false} FailoverEvictsOnlyDead(model: TableModel, members: set<string>, key: string, s: seq<Backend>, fuel: nat, id: string)
    ensures Choose(model, members, key, s, fuel).members <= members
    ensures id in members && id !in Choose(model, members, key, s, fuel).members ==>
      exists i :: 0 <= i < |s| && s[i].id == id && !s[i].alive
    decreases fuel
  {
    if fuel > 0 && model.lookup(members, key).Success? {
      var owner := model.lookup(members, key).value;
      var found := FindById(s, owner);
      if found.Some? && !s[found.value].alive && model.removeError(members, owner).None? {
        var rest := members - {owner};
        assert Choose(model, members, key, s, fuel) == Shift(Choose(model, rest, key, s, fuel - 1), 1);
        FailoverEvictsOnlyDead(model, rest, key, s, fuel - 1, id);
        if id == owner {
          assert s[found.value].id == id;
        }
      }
    }
  }

  /**
   * Failover succeeds whenever the table behaves as a consistent hash over its
   * members (a non-empty table answers one of its members, and eviction does
   * not fail), every member is registered, and some member is alive under an
   * ID no other backend of the snapshot carries (as in a registry, whose IDs
   * are distinct): it never needs more lookups than there are members.
   */
  lemma {:induction false} FailoverReachesLiveMember(
    model: TableModel, members: set<string>, key: string, s: seq<Backend>, fuel: nat, live: nat)
    requires forall m :: m != {} ==> model.lookup(m, key).Success? && model.lookup(m, key).value in m
    requires forall m, id :: model.removeError(m, id).None?
    requires forall id :: id in members ==> FindById(s, id).Some?
    requires live < |s| && s[live].alive && s[live].id in members
    requires forall k :: 0 <= k < |s| && k != live ==> s[k].id != s[live].id
    requires |members| <= fuel
    ensures Choose(model, members, key, s, fuel).result.Success?
    ensures Choose(model, members, key, s, fuel).lookups <= |members|
    decreases fuel
  {
    var id, i := FailoverStep(model, members, key, s, fuel, live);
    var c := Choose(model, members, key, s, fuel);
    if s[i].alive {
      assert c == Choice(Success(s[i]), members, 1);
      assert |members| >= 1 by { assert id in members; }
    } else {
      var rest := members - {id};
      assert |rest| == |members| - 1;
      FailoverReachesLiveMember(model, rest, key, s, fuel - 1, live);
      var after := Choose(model, rest, key, s, fuel - 1);
      assert c == Shift(after, 1);
      assert c.result == after.result && c.lookups == after.lookups + 1;
    }
  }

  /** One round of failover under the assumptions above: the table answers a
      member `id` registered at position `i`; a live backend there is the
      choice, and a dead one is evicted, never taking the live member with it. */
  lemma FailoverStep(
    model: TableModel, members: set<string>, key: string, s: seq<Backend>, fuel: nat, live: nat)
    returns (id: string, i: nat)
    requires forall m :: m != {} ==> model.lookup(m, key).Success? && model.lookup(m, key).value in m
    requires forall m, id :: model.removeError(m, id).None?
    requires forall id :: id in members ==> FindById(s, id).Some?
    requires live < |s| && s[live].alive && s[live].id in members
    requires forall k :: 0 <= k < |s| && k != live ==> s[k].id != s[live].id
    requires |members| <= fuel
    ensures id in members && i < |s| && s[i].id == id && 1 <= fuel
    ensures s[i].alive ==> Choose(model, members, key, s, fuel) == Choice(Success(s[i]), members, 1)
    ensures !s[i].alive ==>
      id != s[live].id &&
      Choose(model, members, key, s, fuel) == Shift(Choose(model, members - {id}, key, s, fuel - 1), 1)
  {
    assert s[live].id in members;
    var answer := model.lookup(members, key);
    assert answer.Success? && answer.value in members;
    id := answer.value;
    i := FindById(s, id).value;
    if !s[i].alive {
      assert i != live;
      assert model.removeError(members, id).None?;
    }
  }

  /** Members after handling one event: an added event adds, a removed event
      removes, any other event type is ignored. */
  function ApplyEvent(model: TableModel, members: set<string>, e: BackendEvent): set<string> {
    if e.eventType == BackendAddedEvent then AfterAdd(model, members, e.actor)
    else if e.eventType == BackendRemovedEvent then AfterRemove(model, members, e.actor)
    else members
  }

  function ApplyEvents(model: TableModel, members: set<string>, es: seq<BackendEvent>): set<string>
    decreases |es|
  {
    if es == [] then members else ApplyEvents(model, ApplyEvent(model, members, es[0]), es[1..])
  }

  /** Handling one more event after a sequence is applying it to the members
      that sequence leaves. */
  lemma {:induction false} ApplyEventsAppend(model: TableModel, members: set<string>, es: seq<BackendEvent>, e: BackendEvent)
    ensures ApplyEvents(model, members, es + [e]) == ApplyEvent(model, ApplyEvents(model, members, es), e)
    decreases |es|
  {
    if es == [] {
      assert (es + [e])[1..] == [];
    } else {
      assert (es + [e])[1..] == es[1..] + [e];
      ApplyEventsAppend(model, ApplyEvent(model, members, es[0]), es[1..], e);
    }
  }

  /** A tracked stream is split-brained under a member set when the table with
      those members answers its key with a backend other than the one the
      stream is pinned to; a lookup error does not count. */
  predicate SplitBrainedIn(model: TableModel, members: set<string>, c: Connection) {
    model.lookup(members, c.key).Success? && model.lookup(members, c.key).value != c.backendId
  }

  /** The positions, in ascending order, of the split-brained streams among
      the first `upTo` tracked ones. */
  function SplitBrainedPositions(model: TableModel, members: set<string>, conns: seq<Connection>, upTo: nat): seq<nat>
    requires upTo <= |conns|
  {
    if upTo == 0 then []
    else
      SplitBrainedPositions(model, members, conns, upTo - 1) +
      (if SplitBrainedIn(model, members, conns[upTo - 1]) then [upTo - 1] else [])
  }

  /** `SplitBrainedPositions` lists every split-brained stream, only those,
      and each once in ascending order. */
  lemma {:induction false} SplitBrainedPositionsExact(model: TableModel, members: set<string>, conns: seq<Connection>, upTo: nat)
    requires upTo <= |conns|
    ensures var r := SplitBrainedPositions(model, members, conns, upTo);
      (forall k :: 0 <= k < |r| ==> r[k] < upTo && SplitBrainedIn(model, members, conns[r[k]])) &&
      (forall i :: 0 <= i < upTo && SplitBrainedIn(model, members, conns[i]) ==> i in r) &&
      (forall a, b :: 0 <= a < b < |r| ==> r[a] < r[b])
  {
    if upTo > 0 {
      SplitBrainedPositionsExact(model, members, conns, upTo - 1);
    }
  }

  /** What handling the `k`-th event closes: for an added event, the streams
      split-brained under the members the events up to it leave; nothing for
      any other event. */
  function ClosedBy(model: TableModel, start: set<string>, events: seq<BackendEvent>, k: nat, conns: seq<Connection>): seq<nat>
    requires k < |events|
  {
    if events[k].eventType == BackendAddedEvent then
      SplitBrainedPositions(model, ApplyEvents(model, start, events[..k + 1]), conns, |conns|)
    else []
  }

  /** Event handling only ever admits into the table IDs that some added event
      announced; since the registry is updated before its event is sent, the
      table stays within the registry. */
  lemma {:induction false} OnlyAnnouncedIdsJoin(model: TableModel, members: set<string>, es: seq<BackendEvent>, id: string)
    requires id in ApplyEvents(model, members, es) && id !in members
    ensures exists k :: 0 <= k < |es| && es[k] == Added(id)
    decreases |es|
  {
    var next := ApplyEvent(model, members, es[0]);
    if id in next {
      assert es[0] == Added(id);
    } else {
      OnlyAnnouncedIdsJoin(model, next, es[1..], id);
      var k :| 0 <= k < |es[1..]| && es[1..][k] == Added(id);
      assert es[k + 1] == Added(id);
    }
  }

  class MaglevLB {
    const registry: BackendRegistry
    const connections: ConnectionMap
    const hashKey: string
    const table: Table
    var streamConnections: seq<Connection>

    /** A new dispatcher has an empty registry, an empty table and no tracked streams. */
    constructor (hashKey: string, model: TableModel, connections: ConnectionMap)
      ensures fresh(registry) && registry.Valid() && registry.backends == []
      ensures fresh(table) && table.model == model && table.members == {}
      ensures this.hashKey == hashKey && this.connections == connections
      ensures streamConnections == []
    {
      this.hashKey := hashKey;
      this.connections := connections;
      table := new Table(model, {});
      registry := new BackendRegistry();
      streamConnections := [];
    }

    /** The stream record a request leaves behind: one for a WatchDocument
        request, none for any other path. */
    function Tracked(req: Request, key: string, backendId: string): (r: seq<Connection>)
      reads connections
      ensures req.path == WatchDocumentPath <==> |r| == 1
      ensures |r| == 1 ==> r[0] == Connection(connections.GetConn(req), key, backendId)
      ensures req.path != WatchDocumentPath ==> r == []
    {
      if req.path == WatchDocumentPath then [Connection(connections.GetConn(req), key, backendId)] else []
    }

    /** Picks a backend for the request's key; on failure answers 503 and
        forwards nothing, otherwise records a stream if it is one and forwards. */
    method ServeProxy(req: Request, upstreamOk: int -> bool) returns (resp: Response)
      modifies this`streamConnections, table
      ensures var key := AffinityKey(req.header, hashKey);
        var c := Choose(table.model, old(table.members), key, registry.backends, registry.Len());
        table.members == c.members &&
        (c.result.Failure? ==>
          resp == ErrorStatus(StatusServiceUnavailable) && streamConnections == old(streamConnections)) &&
        (c.result.Success? ==>
          resp == Forwarded(c.result.value.id, c.result.value.Serve(req, upstreamOk)) &&
          streamConnections == old(streamConnections) + Tracked(req, key, c.result.value.id))
    {
      var key := if hashKey in req.header then req.header[hashKey] else "";
      if key == "" {
        key := DefaultKey;
      }
      ghost var lookups;
      var b;
      b, lookups := ChooseBackend(key);
      if b.Failure? {
        return ErrorStatus(StatusServiceUnavailable);
      }
      GetWatchConnection(req, key, b.value.id);
      return Forwarded(b.value.id, b.value.Serve(req, upstreamOk));
    }

    /** Failover for `key`, bounded by the registry size; `lookups` counts the
        table lookups made. */
    method ChooseBackend(key: string) returns (r: Result<Backend, Error>, ghost lookups: nat)
      modifies table
      ensures var c := Choose(table.model, old(table.members), key, registry.backends, registry.Len());
        r == c.result && table.members == c.members && lookups == c.lookups
    {
      ghost var s := registry.backends;
      ghost var n := registry.Len();
      ghost var goal := Choose(table.model, table.members, key, s, n);
      var i := 0;
      lookups := 0;
      while i < registry.Len()
        invariant 0 <= i <= n && lookups == i
        invariant goal == Shift(Choose(table.model, table.members, key, s, n - i), i)
      {
        var owner := table.Get(key);
        lookups := lookups + 1;
        if owner.Failure? {
          return Failure(owner.error), lookups;
        }
        var found := registry.GetBackendByID(owner.value);
        FindByIdFindsRegistered(s, owner.value);
        if found.None? {
          return Failure(BackendNotFound), lookups;
        }
        var b := found.value;
        if b.IsAlive() {
          return Success(b), lookups;
        }
        var err := table.Remove(owner.value);
        if err.Some? {
          return Failure(err.value), lookups;
        }
        i := i + 1;
      }
      return Failure(NoBackendsAvailable), lookups;
    }

    /** Records a WatchDocument request as a stream pinned to `backendId`. */
    method GetWatchConnection(req: Request, key: string, backendId: string)
      modifies this`streamConnections
      ensures streamConnections == old(streamConnections) + Tracked(req, key, backendId)
    {
      if req.path == WatchDocumentPath {
        var conn := connections.GetConn(req);
        streamConnections := streamConnections + [Connection(conn, key, backendId)];
      }
    }

    /** Reconciliation: returns, in order, the positions of the tracked streams
        to close, which are exactly the split-brained ones; a lookup error skips
        the stream. The tracked list itself is left as it is. */
    method CloseSplitBrainedConnection() returns (closed: seq<nat>)
      ensures closed == SplitBrainedPositions(table.model, table.members, streamConnections, |streamConnections|)
      ensures forall k :: 0 <= k < |closed| ==>
        closed[k] < |streamConnections| && SplitBrainedIn(table.model, table.members, streamConnections[closed[k]])
      ensures forall i :: 0 <= i < |streamConnections| && SplitBrainedIn(table.model, table.members, streamConnections[i]) ==> i in closed
      ensures forall a, b :: 0 <= a < b < |closed| ==> closed[a] < closed[b]
    {
      closed := [];
      var i := 0;
      while i < |streamConnections|
        invariant 0 <= i <= |streamConnections|
        invariant closed == SplitBrainedPositions(table.model, table.members, streamConnections, i)
      {
        var c := streamConnections[i];
        var owner := table.Get(c.key);
        if owner.Success? && owner.value != c.backendId {
          closed := closed + [i];
        }
        i := i + 1;
      }
      SplitBrainedPositionsExact(table.model, table.members, streamConnections, i);
    }

    /** Handles one membership event: an added backend joins the table and is
        followed by reconciliation; a removed one leaves the table; errors from
        the table are only logged. */
    method HandleEvent(e: BackendEvent) returns (closed: seq<nat>)
      modifies table
      ensures table.members == ApplyEvent(table.model, old(table.members), e)
      ensures e.eventType != BackendAddedEvent ==> closed == []
      ensures e.eventType == BackendAddedEvent ==>
        closed == SplitBrainedPositions(table.model, table.members, streamConnections, |streamConnections|)
      ensures e.eventType == BackendAddedEvent ==>
        (forall k :: 0 <= k < |closed| ==>
          closed[k] < |streamConnections| && SplitBrainedIn(table.model, table.members, streamConnections[closed[k]])) &&
        (forall i :: 0 <= i < |streamConnections| && SplitBrainedIn(table.model, table.members, streamConnections[i]) ==> i in closed)
      ensures (e.eventType == BackendAddedEvent ==> e.actor in Ids(registry.backends)) &&
              (forall id :: id in old(table.members) ==> id in Ids(registry.backends)) ==>
              forall id :: id in table.members ==> id in Ids(registry.backends)
    {
      closed := [];
      if e.eventType == BackendAddedEvent {
        var err := table.Add(e.actor);
        closed := CloseSplitBrainedConnection();
      } else if e.eventType == BackendRemovedEvent {
        var err := table.Remove(e.actor);
      }
    }

    /** The event loop over a finite prefix of the event channel: every event
        is handled in order, whatever errors the table reports. */
    method WatchBackendEvent(events: seq<BackendEvent>) returns (closed: seq<seq<nat>>)
      modifies table
      ensures table.members == ApplyEvents(table.model, old(table.members), events)
      ensures |closed| == |events|
      ensures forall k :: 0 <= k < |events| && events[k].eventType != BackendAddedEvent ==> closed[k] == []
      ensures forall k :: 0 <= k < |events| && events[k].eventType == BackendAddedEvent ==>
        closed[k] == SplitBrainedPositions(table.model, ApplyEvents(table.model, old(table.members), events[..k + 1]),
          streamConnections, |streamConnections|)
    {
      closed := [];
      var i := 0;
      while i < |events|
        invariant 0 <= i <= |events| && |closed| == i
        invariant table.members == ApplyEvents(table.model, old(table.members), events[..i])
        invariant forall k :: 0 <= k < i ==>
          closed[k] == ClosedBy(table.model, old(table.members), events, k, streamConnections)
      {
        assert events[..i + 1] == events[..i] + [events[i]];
        ApplyEventsAppend(table.model, old(table.members), events[..i], events[i]);
        var c := HandleEvent(events[i]);
        closed := closed + [c];
        i := i + 1;
      }
      assert events[..i] == events;
    }
  }
}
