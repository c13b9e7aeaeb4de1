# plumber / l7 load balancer — a verified model of its dispatch core

This project models, in Dafny, the sequential logic of the `l7` (plumber)
layer-7 load balancer:

- **the backend entity**: an instance ID and a parsed address, fixed at
  creation; a liveness flag that starts up; and the forwarding delegate's
  retry policy. On a proxy error a request whose retry count is below 3 is
  re-sent with the count raised by one, otherwise it is answered 502.
- **the backend registry**: a snapshot list of backends with distinct instance
  IDs. Add is rejected for a known ID, remove filters by ID, and lookups go by
  ID and by bounds-checked index.
- **the Maglev dispatcher**:
  - It takes the affinity key from a configured header, with `"default"` as
    the fallback.
  - It fails over: it looks the key up in a consistent-hash table, evicts dead
    owners from the table and looks again, at most once per registered backend.
  - It answers 503 when failover fails.
  - It records WatchDocument streams.
  - It keeps the map from client address to connection.
  - It handles membership events. An added backend joins the table and starts
    split-brain reconciliation, which closes every tracked stream whose key the
    table now gives to another backend. A removed backend leaves the table.
- **the two round-robin balancers**:
  - The earlier one owns a list and advances its index on every request.
  - The registry-backed one searches at most one full round from the stored
    index for a live backend, and answers 503 when there is none.
- **the two health checkers**:
  - The earlier one sets the liveness flag of each backend it was handed.
  - The registry-backed one also emits membership events. A backend coming
    back up is announced as added. A failed probe is always announced as
    removed, even for a backend already down.

Objects the source updates in place are Dafny classes:
- the backend's flag;
- the registry's snapshot;
- the balancers' index, backend list and stream list;
- the lookup table's members;
- the connection map.

Each loop is a method proved against a specification function, and the
properties are proved about those functions as lemmas:
- the registry's ID scan and filter against `FindById` and `Without`;
- Maglev failover against `Choose`;
- Maglev reconciliation against `SplitBrainedPositions`;
- the Maglev event loop against `ApplyEvents` and `ClosedBy`;
- the registry-backed health pass against `PassEvents`;
- the registry-backed round-robin search against `Advanced`.

The earlier health checker's loop is proved against a quantified statement
of the flags it leaves.

The consistent-hash table is not part of this model. It is an abstract
component (`Maglev.TableModel`): its state is a set of member IDs, and its
lookup, add and remove results are arbitrary functions of that set, any of
which may fail. Beyond treating the table as functions of its member set, the
model assumes only that a successful add or remove changes the set by exactly
that ID and that a failed one leaves the members as they were.

Module by module:

| module | file | source |
|---|---|---|
| `Base` | `base.dfy` | `Option`, `Result` and the error values |
| `Http` | `http.dfy` | requests, responses, connections and connection states, as data |
| `Backends` | `backend.dfy` | `internal/backend/backend.go` |
| `Registry` | `registry.dfy` | `internal/backend/registry/registry.go` |
| `Register` | `register.dfy` | the membership event (`internal/backend/register/register.go`) |
| `Cyclic` | `cyclic.dfy` | the modular index advance both round-robin balancers share |
| `LoadBalancer` | `round_robin_v1.dfy` | `internal/loadbalancer/round_robin_lb.go` |
| `RoundRobin` | `round_robin.dfy` | `internal/loadbalancer/round_robin/round_robin_lb.go` |
| `Maglev` | `maglev.dfy` | `internal/loadbalancer/maglev/maglev_lb.go` |
| `BackendHealth` | `backend_health.dfy` | `internal/backend/health/health_check.go` |
| `Health` | `health.dfy` | `internal/health/health_check.go` |

## Model

| member | source | states |
|---|---|---|
| Backends.Backend.constructor | internal/backend/backend.go:47-54 | a backend keeps the given ID and address and starts alive |
| Backends.NewDefaultBackend | internal/backend/backend.go:26-55 | an unparsable address fails with the parser's error; otherwise a fresh backend with that ID and the parsed address, alive |
| Backends.Backend.SetAlive | internal/backend/backend.go:61-73 | afterwards `IsAlive()` is the value set; only the liveness flag may change |
| Backends.RetryFromContext | internal/backend/backend.go:75-82 | a request without a stored count has made 0 retries; otherwise the stored count |
| Backends.ErrorHandler | internal/backend/backend.go:33-45 | a failed attempt is retried iff the count is below 3, with the count raised by one; otherwise the answer is 502 |
| Backends.ServeHTTP | internal/backend/backend.go:33-45 | the delegate makes at most `LastAttempt(retries) - retries + 1` attempts (four for a fresh request); it delivers at the first attempt that reaches the upstream after all earlier attempts failed; it answers 502 iff every attempt up to count 3 fails, and then only after all of them |
| Backends.Backend.IsAlive | internal/backend/backend.go:67-73 | reads the liveness flag; `SetAlive` and the constructor state what it returns afterwards |
| Backends.FailingRequestIsAttemptedFourTimes | internal/backend/backend.go:33-45 | a fresh request whose every attempt fails is answered 502 after four attempts |
| Backends.Backend.Serve | internal/backend/backend.go:57-59 | a fresh request is forwarded at least once and at most four times (one attempt plus three retries) |
| Registry.BackendRegistry.constructor | internal/backend/registry/registry.go:19-26 | a new registry is empty, `Len() == 0`, and its invariant holds |
| Registry.BackendRegistry.GetBackends | internal/backend/registry/registry.go:28-30 | the current snapshot; while the registry is valid its IDs are distinct |
| Registry.BackendRegistry.Len | internal/backend/registry/registry.go:77-79 | the length of the snapshot `GetBackends` returns |
| Registry.FindById | internal/backend/registry/registry.go:32-40 | a position found is within the snapshot and carries the ID |
| Registry.FindByIdFindsRegistered | internal/backend/registry/registry.go:32-40 | the scan finds an ID iff some backend of the snapshot carries it |
| Registry.FindByIdIsFirst | internal/backend/registry/registry.go:32-40 | no position before the one found carries the ID |
| Registry.FirstMatch | internal/backend/registry/registry.go:32-40 | the first position carrying an ID is the one the scan finds |
| Registry.BackendRegistry.GetBackendByID | internal/backend/registry/registry.go:32-40 | nothing is found iff no backend has the ID; otherwise the result is the first backend that has it |
| Registry.BackendRegistry.GetBackendByIndex | internal/backend/registry/registry.go:42-49 | fails with `IndexOutOfRange` iff `index < 0` or `index >= Len()`; otherwise the backend at that position |
| Registry.BackendRegistry.AddBackend | internal/backend/registry/registry.go:51-64 | a known ID gives `BackendAlreadyExists` and an unchanged snapshot; a bad address gives the parse error and an unchanged snapshot; otherwise exactly one fresh, live backend with that ID is appended, earlier entries stay in place and `Len` grows by one; IDs stay distinct |
| Registry.Without | internal/backend/registry/registry.go:66-75 | the filtered snapshot holds exactly the entries of the old one whose ID differs |
| Registry.WithoutKeepsOrder | internal/backend/registry/registry.go:66-75 | filtering distributes over concatenation, so survivors keep their relative order |
| Registry.WithoutKeepsDistinct | internal/backend/registry/registry.go:66-75 | filtering keeps IDs distinct |
| Registry.WithoutAbsentIsIdentity | internal/backend/registry/registry.go:66-75 | filtering out an absent ID changes nothing |
| Registry.BackendRegistry.RemoveBackendByID | internal/backend/registry/registry.go:66-75 | the new snapshot is the old one filtered by the ID; removing an absent ID leaves it unchanged; IDs stay distinct |
| Cyclic.Next | internal/loadbalancer/round_robin/round_robin_lb.go:96-101 | the advanced index lies in `[0, n)` |
| Cyclic.Rounds | internal/loadbalancer/round_robin_lb.go:34-35 | `k` successive advances give `k` indices, all in `[0, n)` |
| Cyclic.RoundsAt | internal/loadbalancer/round_robin_lb.go:34-35 | the `j`-th advance from `i` lands on `(i + j + 1) mod n` |
| Cyclic.RoundsVisitEachOnce | internal/loadbalancer/round_robin_lb.go:34-35 | `n` consecutive advances visit each of the `n` positions exactly once |
| Cyclic.RoundsReach | internal/loadbalancer/round_robin_lb.go:34-35 | every position appears among `n` consecutive advances |
| Cyclic.AdvancesCover | internal/loadbalancer/round_robin/round_robin_lb.go:80-93 | from any start, every position is reached after between 1 and `n` advances |
| LoadBalancer.RoundRobinLB.constructor | internal/loadbalancer/round_robin_lb.go:15-20 | starts with no backends and index 0 |
| LoadBalancer.RoundRobinLB.AddBackend | internal/loadbalancer/round_robin_lb.go:22-25 | appends the backend at the end, returns no error, leaves the index unchanged |
| LoadBalancer.RoundRobinLB.ServeProxy | internal/loadbalancer/round_robin_lb.go:27-36 | an empty list panics with "No backends" and leaves the index; otherwise the index advances by one modulo the length and the backend at the new index serves the request |
| RoundRobin.RoundRobinLB.constructor | internal/loadbalancer/round_robin/round_robin_lb.go:57-64 | a new balancer starts at index 0 over the given registry |
| RoundRobin.RoundRobinLB.GetNextIndex | internal/loadbalancer/round_robin/round_robin_lb.go:96-101 | the stored and returned index is the old one plus one modulo `Len()`, so it stays in `[0, Len())` |
| RoundRobin.RoundRobinLB.GetNextBackend | internal/loadbalancer/round_robin/round_robin_lb.go:79-94 | an empty registry leaves the index alone; nothing is found iff every backend is down; a result is alive and sits at the new index; the index moved `steps <= Len()` times, and every position passed before it was down |
| RoundRobin.AllVisitedDead | internal/loadbalancer/round_robin/round_robin_lb.go:80-93 | if the `n` positions after the start are all down, every backend is down |
| RoundRobin.RoundRobinLB.ServeProxy | internal/loadbalancer/round_robin/round_robin_lb.go:69-77 | answers 503 iff every backend is down; otherwise the live backend at the new index serves the request |
| Maglev.AffinityKey | internal/loadbalancer/maglev/maglev_lb.go:99-102 | the key is the configured header's value, or `"default"` when that is absent or empty; it is never empty |
| Maglev.Table.constructor | internal/loadbalancer/maglev/maglev_lb.go:48 | a table holds exactly the given members under the given behaviour |
| Maglev.Table.Get | internal/loadbalancer/maglev/maglev_lb.go:118-121 | succeeds iff the table's lookup does, with the same owner; a failure becomes a table error carrying the lookup's message |
| Maglev.Table.Add | internal/loadbalancer/maglev/maglev_lb.go:163-166 | the ID joins the members unless the table reports an error, which is returned |
| Maglev.Table.Remove | internal/loadbalancer/maglev/maglev_lb.go:132-135 | the ID leaves the members unless the table reports an error, which is returned |
| Maglev.ConnectionMap.constructor | internal/loadbalancer/maglev/maglev_lb.go:24 | the connection map starts empty |
| Maglev.ConnectionMap.ConnStateEvent | internal/loadbalancer/maglev/maglev_lb.go:193-199 | an active connection is stored under its remote address; a hijacked or closed one is deleted; any other state changes nothing |
| Maglev.ConnectionMap.GetConn | internal/loadbalancer/maglev/maglev_lb.go:201-203 | the connection stored under the request's remote address, and none iff there is no entry |
| Maglev.Choose | internal/loadbalancer/maglev/maglev_lb.go:116-139 | failover makes at most `fuel` lookups; with no fuel (an empty registry) it fails without touching the table; a chosen backend is in the snapshot and alive; "no backends available" only after the whole budget |
| Maglev.FailoverStep | internal/loadbalancer/maglev/maglev_lb.go:118-135 | one round answers a registered member; a live one is chosen, and a dead one, never the live member, is evicted before the next lookup |
| Maglev.FailoverEvictsOnlyDead | internal/loadbalancer/maglev/maglev_lb.go:128-135 | failover only shrinks the table, and only evicts IDs of backends found dead |
| Maglev.FailoverReachesLiveMember | internal/loadbalancer/maglev/maglev_lb.go:116-139 | when the table answers members, eviction does not fail, members are registered and one member is alive, failover succeeds within as many lookups as there are members |
| Maglev.MaglevLB.constructor | internal/loadbalancer/maglev/maglev_lb.go:47-75 | a new dispatcher has a fresh empty registry, a fresh empty table and no tracked streams |
| Maglev.MaglevLB.Tracked | internal/loadbalancer/maglev/maglev_lb.go:141-150 | a request leaves exactly one stream record iff its path is the WatchDocument path, holding its connection, key and backend |
| Maglev.MaglevLB.ChooseBackend | internal/loadbalancer/maglev/maglev_lb.go:116-139 | the loop's result, the table's members afterwards and the lookups made are exactly those of `Choose` with the registry size as budget |
| Maglev.MaglevLB.ServeProxy | internal/loadbalancer/maglev/maglev_lb.go:97-114 | a failed choice answers 503, forwards nothing and records nothing; otherwise the chosen backend serves the request and the stream is recorded if it is one |
| Maglev.MaglevLB.GetWatchConnection | internal/loadbalancer/maglev/maglev_lb.go:141-150 | appends exactly the record `Tracked` describes and nothing else |
| Maglev.SplitBrainedPositionsExact | internal/loadbalancer/maglev/maglev_lb.go:178-191 | the positions listed are exactly the split-brained streams, each once, in ascending order |
| Maglev.MaglevLB.CloseSplitBrainedConnection | internal/loadbalancer/maglev/maglev_lb.go:178-191 | closes, in order, exactly the tracked streams whose key the table now gives to another backend; lookup errors skip a stream; the tracked list is not changed |
| Maglev.MaglevLB.HandleEvent | internal/loadbalancer/maglev/maglev_lb.go:161-172 | an added event adds to the table and then closes exactly the streams split-brained under the new members; a removed event only removes; other events change nothing; if every member and every added ID is registered, every member stays registered |
| Maglev.OnlyAnnouncedIdsJoin | internal/loadbalancer/maglev/maglev_lb.go:161-172 | an ID joins the table only if some added event announced it |
| Maglev.ApplyEventsAppend | internal/loadbalancer/maglev/maglev_lb.go:156-176 | handling one more event applies it to the members the earlier events left |
| Maglev.MaglevLB.WatchBackendEvent | internal/loadbalancer/maglev/maglev_lb.go:156-176 | every event is handled in order whatever the table reports; the members end as the events applied in turn; other events close nothing, and the `k`-th event, if an added one, closes exactly the streams split-brained under the members the first `k + 1` events leave |
| BackendHealth.Decide | internal/backend/health/health_check.go:49-61 | the event one probe produces; its outcomes are stated by `DecideOutcomes` |
| BackendHealth.DecideOutcomes | internal/backend/health/health_check.go:49-61 | added iff the probe is up and the backend was down; removed iff the probe is down; nothing iff up and already alive; an event carries the backend's ID |
| BackendHealth.UpdateLiveness | internal/backend/health/health_check.go:49-61 | the flag becomes the probe outcome and the event returned is the one decided from the old flag |
| BackendHealth.NoEventsForAbsent | internal/backend/health/health_check.go:47-62 | a pass emits nothing about an ID it has not visited |
| BackendHealth.PassEventsStep | internal/backend/health/health_check.go:47-62 | visiting one more backend adds to an ID's events exactly the event decided for that backend if it carries the ID, and nothing otherwise |
| BackendHealth.PassEventsAbout | internal/backend/health/health_check.go:47-62 | the events a pass emits about an ID are those its visits to backends carrying that ID decide, in visiting order |
| BackendHealth.OwnEventsAbsent | internal/backend/health/health_check.go:47-62 | visits to backends with other IDs decide nothing about an ID |
| BackendHealth.OwnEventsLast | internal/backend/health/health_check.go:47-62 | the last visited backend, if no earlier one shares its ID, owns exactly the event its probe decides |
| BackendHealth.OwnEventsSkipRange | internal/backend/health/health_check.go:47-62 | visiting a run of backends with other IDs adds nothing to an ID's events |
| BackendHealth.OwnEventsUnique | internal/backend/health/health_check.go:47-62 | a backend whose ID no other visited backend shares owns exactly the event its probe decides |
| BackendHealth.PassEventsPerBackend | internal/backend/health/health_check.go:47-62 | with distinct IDs, the events about each backend are exactly the one its own probe decides |
| BackendHealth.Pass | internal/backend/health/health_check.go:47-62 | visits the snapshot once, in order; every flag becomes its probe outcome and the events are `PassEvents` of the old flags |
| BackendHealth.Checker.constructor | internal/backend/health/health_check.go:22-29 | the checker keeps the registry and the interval it is given |
| BackendHealth.Checker.CheckBackendLiveness | internal/backend/health/health_check.go:46-64 | over the registry snapshot, every backend's flag becomes its probe outcome, the old flags are recorded, and the events sent are those of the pass, in snapshot order |
| Health.Checker.constructor | internal/health/health_check.go:18-23 | starts with no tracked backends and the given interval |
| Health.Checker.AddBackends | internal/health/health_check.go:29-31 | replaces the tracked list rather than extending it |
| Health.Checker.CheckBackendLiveness | internal/health/health_check.go:44-54 | every tracked backend ends with the flag of its last probe, which is exactly its probe when the list has no repeats; only the tracked backends' flags may change |

## Left out

- Concurrency is not modelled: the atomic snapshot swaps, the read-write mutexes, the atomic index increment, goroutines, channels and tickers. Every operation is one sequential call. The health checkers' `Run`/`healthCheck` ticker loops and the Maglev event goroutine are therefore not modelled. The event channel is a finite input sequence for `WatchBackendEvent`, and an output sequence for the health pass.
- The TCP probe (`checkTCPConnection`, with its dial timeout) is not modelled. Each pass takes the probe outcomes as a parameter, one per visited backend.
- URL parsing is not modelled. `url.Parse` is a function-valued parameter, `parseUrl`.
- Forwarding through the reverse proxy is not modelled. Whether the attempt made at each retry count reaches the upstream is a function-valued parameter, `upstreamOk`. The 100 ms back-off and the response bodies are left out.
- Logging is left out.
- The consistent-hash table's algorithm (`NewMaglev`, its permutation and fill, its disruption bounds) is not part of this model; see above. A failed `Add`/`Remove` is assumed to leave the members unchanged.
- Maglev.FailoverReachesLiveMember: holds only under the stated assumptions on the abstract table. A non-empty table must answer one of its members, and eviction must not fail. This is because the table's algorithm is not modelled.
- Closing a connection (`conn.Close()`) is modelled as returning the positions of the streams to close. A tracked stream whose connection was never registered holds no connection, and closing it would dereference nil in the source. That panic is not modelled.
- `Header.Get` canonicalises the header name. The model looks up the configured name verbatim.
- The construction of the dispatchers is not modelled: selecting and starting the Docker or Kubernetes register, `Initialize`/`Observe`, starting the health checker, and the error `NewMaglev` may return. Neither is the registry update that precedes each membership event. `HandleEvent` and `OnlyAnnouncedIdsJoin` state it as a hypothesis instead.
- RoundRobin.RoundRobinLB.GetNextBackend: the `GetBackendByIndex` failure branch is kept, but it cannot occur in a sequential model: the index is always within the registry. Under concurrent removal it could occur.
- BackendHealth.Checker.CheckBackendLiveness: requires the registry's invariant of distinct IDs, which every registry operation keeps; the model needs the snapshot's backends to be distinct objects.
- Backends.Backend.Serve: states only the attempt bound for a fresh request; the full outcome is the contract of `ServeHTTP`, which it returns.
- Integer width is not modelled. The round-robin index is an unbounded non-negative integer, and the `int64` wrap-around of the source's atomic counter is not modelled.
- The command line, the HTTP server wiring and the discovery adapters are not part of this model.

In three places the code does something a reader might not expect, and the
model follows it:
- the registry-backed health checker emits membership events;
- a removed event neither reconciles streams nor drops stream records;
- tracked streams are never pruned.
