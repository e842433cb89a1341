# PortTrack domain store, modelled in Dafny

PortTrack is a monitored HTTP service for a port. It serves ships, staff and an operations log
from memory and keeps Prometheus counters and a gauge up to date as requests arrive. This
project models the in-memory domain store of `app.js` and the metrics it updates, as one
sequential state machine:

- **State**: the `ships` and `staff` arrays and the append-only `operations` log. Beside them sit
  the counters `http_requests_total`, `porttrack_operations_total`,
  `porttrack_critical_operations_failed_total` and `porttrack_auth_failures_total`, and the
  gauge `porttrack_active_ships_total`. These are the fields of `PortService.PortStore`.
  A counter is a map from a label tuple to a count; a tuple never incremented reads 0.
- **Read-only handlers** are functions in module `Port` over the store's collections: ship
  list and lookup, staff list, port status, cargo tracking, recent operations, the berthing
  guards and the login decision. They are built from `JsArray.Filter` and `JsArray.Slice`,
  which model `Array.prototype.filter` and `slice(start)`.
- **State-changing handlers** are methods of `PortStore`: `Berth`, `Login`, `UpdateMetrics`,
  and `RecordRequest` (the metrics middleware's per-request increment). Each method's
  `ensures` states the whole new state in terms of the old one.
- **Injected randomness**: `Math.random()` becomes a boolean oracle parameter (`injectFailure`,
  `randomFails`). Clock readings and the `OP…` operation id become opaque string parameters.
- **Query and body values** are `Option<string>`. `None` stands for `undefined`, and JavaScript
  truthiness is `Port.Truthy`: present and not empty.

The service's documented intent and its code disagree in four places; the model follows the code:

- An operation record is documented as carrying an outcome, and failed operations as
  appending records too. In `app.js:380-388` a record has no outcome, and only a successful berthing
  appends one.
- The vessel-status gauges are documented as fully recomputed, so that they cannot drift. In
  `app.js:235-237` only the statuses some ship currently holds are set. A label whose status
  no ship holds any more keeps its old level. `PortService.GaugeRecomputed` states this, and
  `Scenarios.SeedBerthing` shows the `approaching` label stuck at 1 after the only
  approaching ship docks.
- Every docked or loading vessel is documented as holding a berth, and every other vessel none.
  The code never checks this. The model proves the seed data satisfies it and berthing keeps
  it: `BerthsConsistent` is part of `PortStore.Valid()`.
- Every request is documented as measured. In the code, `express.json()` (`app.js:135`) runs
  before the metrics middleware (`app.js:164-181`). A request whose JSON body fails to parse
  goes straight to the error middleware (`app.js:599-607`) and gets a 500 "Internal server
  error" without ever being counted. `PortStore.RecordRequest` models the increment for the
  requests that do reach the metrics middleware.

## Model

| member | source | states |
|---|---|---|
| `JsArray.Filter` | app.js:305-309 | the result is no longer than the input and every element of it is an input element satisfying the predicate |
| `JsArray.FilterMembership` | app.js:305 | an element is in the filtered list exactly when it is in the input and satisfies the predicate |
| `JsArray.FilterConcat` | app.js:305 | filtering distributes over concatenation, so it keeps the original order |
| `JsArray.FilterKeepsAll` | app.js:302 | a filter every element passes returns the whole list |
| `JsArray.FilterFuse` | app.js:304-310 | two chained filters select the same list, in the same order, as one conjunctive filter |
| `JsArray.FilterDisjointOrCount` | app.js:282 | filtering by the "or" of two conditions no element meets together selects as many elements as the two filters together |
| `JsArray.FilterComplementCount` | app.js:285 | a filter and the filter by its negation select as many elements between them as the input holds |
| `JsArray.FilterUpdateCount` | app.js:282 | replacing one element changes the number of survivors only by what changed at that position |
| `JsArray.Slice` | app.js:442 | `slice(start)` returns a suffix of the input; its length is `min(-start, n)` for a negative start and `n - min(start, n)` otherwise |
| `Port.ListShips` | app.js:299-310 | every listed ship is a ship of the store meeting each truthy `status`/`type` filter, and the list is no longer than the store's |
| `Port.ListShipsConjunctive` | app.js:301-310 | the listed ships are exactly the ships meeting every truthy `status`/`type` filter, in original order; with no truthy filter the whole list comes back |
| `Port.FindShip` | app.js:331 | a lookup finds a ship exactly when some ship has the id; the ship found has the id and no earlier ship has it |
| `Port.FindShipAfterUpdate` | app.js:372-375 | replacing a ship by one with the same id leaves every lookup's answer unchanged |
| `Port.ShipDetails` | app.js:329-344 | 404 "Ship not found" exactly when no ship has the id; otherwise the first ship of the store with that id, as `find` returns it |
| `Port.BerthGate` | app.js:348-370 | unknown id gives 404 whatever the draw; a known id with a falsy berth number gives 400 whatever the draw; otherwise 500 exactly when the draw says fail; success names the first ship with the id |
| `Port.Docked` | app.js:372-375 | the berthed ship keeps its id, has status "docked", the given berth number and arrival time now, and differs from the old ship in no other field |
| `Port.BerthRecord` | app.js:372-386 | the record carries the given id and timestamp, type "berth", the ship's id, the berth number and the status the ship had before berthing |
| `Port.ReberthingSettles` | app.js:372-385 | berthing an already berthed ship at the same berth ends in the same ship state as berthing once; its new record shows previous status "docked" |
| `Port.DockingKeepsBerthsConsistent` | app.js:372-374 | berthing at a non-empty berth number keeps "holds a berth exactly while docked or loading" true of every ship |
| `Port.ListStaff` | app.js:406-421 | every listed staff member is one of the store's and meets each truthy `role`/`shift` filter and, when `active` is present, has `active == (param == "true")`; the list is no longer than the store's |
| `Port.ListStaffConjunctive` | app.js:408-421 | the listed staff are exactly those meeting every truthy `role`/`shift` filter and, when `active` is present at all, having `active == (param == "true")`, in original order |
| `Port.ActiveFlagQuirk` | app.js:419-421 | any `active` value other than "true" (including "", "false", "yes") acts as "false" and keeps exactly the inactive staff meeting the other filters |
| `Port.StatusReport` | app.js:281-285 | active ships is the number of docked ships plus the number of loading ships, the same tallies the gauge is set from; active staff is the staff count less the inactive members; active ships plus available berths is always 24; both counts are bounded by the collection sizes and are 0 exactly when no ship is docked or loading, respectively no staff member is active |
| `Port.DockingOccupancy` | app.js:282-284 | berthing raises the active-ship count by one when the ship was not docked or loading, and leaves it unchanged otherwise |
| `Port.CountSnoc` | app.js:230-233 | one more ship adds one to the tally of its own status and nothing to any other |
| `Port.CountPositive` | app.js:230-233 | a status is tallied at least once exactly when some ship holds it |
| `Port.CargoTracking` | app.js:461-478 | 404 exactly when no ship has the id; otherwise the view shows the first ship with the id: its id, name, cargo, status and coordinates, as location its berth number when truthy and "At sea" otherwise (never empty), and the given update time |
| `Port.CargoLocationFollowsStatus` | app.js:475 | when status and berth agree, the location is the berth number of a docked or loading ship and "At sea" for any other |
| `Port.DockedShipIsAtBerth` | app.js:463-475 | after a ship is berthed at B, tracking it shows it docked with location B |
| `Port.RecentOperations` | app.js:442 | the window is the suffix of the log of length `min(50, n)`, in insertion order |
| `Port.RecentWindowSlides` | app.js:442 | appending a record puts it last in the window and drops the oldest record once the window holds 50 |
| `Port.LoginDecision` | app.js:543-557 | missing credentials always fail with reason missing_credentials; present credentials fail, with reason invalid_credentials, exactly when the draw says fail; every failure is the same 401 "Authentication failed" reply; success is 200 with token "mock-jwt-token" |
| `Telemetry.Inc` | app.js:175-177 | incrementing a counter under a label tuple adds one to that tuple and leaves every other tuple's count as it was |
| `Telemetry.SetEach` | app.js:235-237 | every label of the tally is set to its count; a label the tally lacks keeps its old level |
| `Telemetry.DecimalString` | app.js:176 | `toString()` of a status code is a non-empty string of decimal digits with no leading zero |
| `Telemetry.DecimalRoundTrip` | app.js:176 | the decimal rendering of a status code reads back as that code |
| `Telemetry.DecimalInjective` | app.js:176 | distinct status codes give distinct `status_code` labels |
| `Telemetry.RouteLabel` | app.js:169 | the route label is the matched route template when there is one and the raw path otherwise |
| `Telemetry.RequestLabels` | app.js:169-177 | the request counter's tuple is (method, route template or else raw path, status code in decimal digits without leading zero) |
| `Telemetry.RequestLabelsDistinguish` | app.js:169-177 | two requests share a counter tuple exactly when their method, route label and status code agree |
| `PortService.ShipsByStatus` | app.js:230-233 | the reduce yields an entry exactly for each status some ship holds, and its value is the number of ships with that status |
| `PortService.PortStore.constructor` | app.js:184-240 | the store starts with the seed ships and staff, an empty log and untouched counters; the gauge holds exactly the seed's status counts; the invariant holds |
| `PortService.PortStore.UpdateMetrics` | app.js:228-238 | afterwards every status some ship holds reads its current count; a status no ship holds keeps its previous level or stays absent |
| `PortService.PortStore.Berth` | app.js:346-403 | 404/400 change nothing; an injected failure adds one to `critical_operations_failed{berth}` and changes nothing else; success docks the first ship with the id at the berth and sets its arrival to now, leaving all other ships unchanged; it recomputes the gauge, adds one to `operations_total{berth,success}` and appends exactly one record with the previous status, whatever that status was; the invariant is kept |
| `PortService.PortStore.Login` | app.js:543-558 | the reply is the login decision; `auth_failures_total{login}` rises by one exactly on failure |
| `PortService.PortStore.RecordRequest` | app.js:164-178 | every request that reaches the metrics middleware adds one to `http_requests_total` under its (method, route, status code) tuple and to no other tuple |
| `Scenarios.SeedDockedListing` | app.test.js:46-54 | on the seed, `?status=docked` lists exactly one ship, and it is docked |
| `Scenarios.SeedUnknownShip` | app.test.js:77-81 | on the seed, details and cargo tracking of NONEXISTENT are both 404 |
| `Scenarios.SeedBerthing` | app.test.js:189-200 | on the seed, berthing SHIP002 at C-15 with no failure succeeds: docked at C-15, previous status approaching, one record; the gauge then reads docked 2 and a stale approaching 1 |
| `Scenarios.SeedActiveQuirk` | app.js:419-421 | on the seed, `?active=yes` lists only the one inactive staff member |

## Left out

- Express routing and middleware chaining, helmet, cors, morgan, JSON body parsing, `app.listen`
  and the SIGTERM/SIGINT shutdown: framework and process concerns, not domain behaviour.
- Logging to winston and Fluentd, including the log events' payloads (such as the logged
  `username || 'missing'`): I/O to external sinks. Only the login failure reason is kept,
  because it is the one fact that tells the two kinds of login failure apart.
- prom-client registry rendering, default metrics and the `/metrics` content type: a foreign
  library. Counters and the gauge are kept only as maps.
- The request-duration histogram: a floating-point seconds value bucketed by float bounds.
- The catch-all 500 "Internal server error" branches of each handler: no operation of the
  model can throw, so these branches cannot be reached in the model.
- The error middleware (`app.js:599-607`) and the requests that end there: one whose JSON body
  fails to parse is answered 500 "Internal server error" before the metrics middleware runs,
  so it is not counted in `http_requests_total`. Body parsing is not modelled.
- `/`, `/health`, `/api/v1/routes` and the constant parts of `/api/v1/status` (api name,
  version, services, weather): constant payloads.
- The `total` and `timestamp` fields of the list replies: `total` is the list's length and the
  timestamp is a clock reading.
- The commented-out status-drift simulator: it is not active code.
- Request values that are not strings: a JSON body may carry a number as `berthNumber` or
  `username`, and a repeated query key arrives as an array. The model takes every such value
  as an optional string.
- Object identity: the berthing handler mutates the found ship object in place and returns
  that same object. The model replaces the ship at its index in the sequence; no other holder
  of the object exists within a request.
- Uniqueness of operation ids: an id is taken as a given value, and the model does not claim
  ids are distinct.
- Concurrency: requests are handled one at a time, so the store is a sequential state machine.
