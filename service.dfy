/**
 * The in-memory store of the port service as one sequential state machine: the seeded ships
 * and staff, the append-only operations log, and the counters and gauge the handlers update.
 * Each handler that changes state is a method of `PortStore`; the failure draws are boolean
 * parameters and the clock readings and the operation id are opaque string parameters.
 */
module PortService {
  import opened Wrappers
  import opened JsArray
  import opened Port
  import Telemetry

  const BERTH_LABELS: Telemetry.Labels := ["berth"]
  const BERTH_SUCCESS_LABELS: Telemetry.Labels := ["berth", "success"]
  const LOGIN_LABELS: Telemetry.Labels := ["login"]

  /** The three ships the service starts with. */
  const SEED_SHIPS: seq<Ship> := [
    Ship("SHIP001", "Atlantic Voyager", "container", "docked",
         Some("2024-01-15T08:30:00Z"), None, Some("A-12"), "John Smith",
         [("containers", Number(245)), ("weight", Number(4500))],
         Coordinates(40.7128, -74.0060)),
    Ship("SHIP002", "Pacific Explorer", "tanker", "approaching",
         None, Some("2024-01-15T14:00:00Z"), None, "Maria Garcia",
         [("type", Text("crude_oil")), ("volume", Number(85000))],
         Coordinates(40.7000, -74.0200)),
    Ship("SHIP003", "Mediterranean Star", "bulk_carrier", "loading",
         None, None, Some("B-08"), "Ahmed Hassan",
         [("type", Text("grain")), ("weight", Number(12000))],
         Coordinates(40.7150, -74.0080))
  ]

  /** The four staff members the service starts with. */
  const SEED_STAFF: seq<StaffMember> := [
    StaffMember("STAFF001", "Carlos Rodriguez", "port_manager", "day", true, "Control Tower"),
    StaffMember("STAFF002", "Lisa Chen", "crane_operator", "day", true, "Berth A-12"),
    StaffMember("STAFF003", "Mohammed Ali", "security_guard", "night", false, "Gate 1"),
    StaffMember("STAFF004", "Anna Kowalski", "customs_officer", "day", true, "Customs Office")
  ]

  /**
   * The `reduce` of `updateMetrics`: for every status some ship holds, the number of ships
   * holding it, and no entry for any other status.
   */
  method ShipsByStatus(ships: seq<Ship>) returns (tally: map<string, nat>)
    ensures forall status :: status in tally <==> HeldStatus(ships, status)
    ensures forall status :: status in tally ==> tally[status] == CountWithStatus(ships, status)
  {
    tally := map[];
    var i := 0;
    while i < |ships|
      invariant 0 <= i <= |ships|
      invariant forall status :: status in tally <==> HeldStatus(ships[..i], status)
      invariant forall status :: status in tally ==> tally[status] == CountWithStatus(ships[..i], status)
    {
      var s := ships[i];
      assert ships[..i + 1] == ships[..i] + [s];
      TallyStep(ships[..i], s);
      CountPositive(ships[..i], s.status);
      tally := tally[s.status := (if s.status in tally then tally[s.status] else 0) + 1];
      i := i + 1;
    }
    assert ships[..|ships|] == ships;
  }

  /**
   * What recomputing the gauge leaves: every status a ship holds reads its current count,
   * and a status no ship holds keeps the level it had (present or absent), never reset to 0.
   */
  ghost predicate GaugeRecomputed(before: Telemetry.Gauge, after: Telemetry.Gauge, ships: seq<Ship>) {
    && (forall status :: HeldStatus(ships, status) ==> status in after && after[status] == CountWithStatus(ships, status))
    && (forall status :: !HeldStatus(ships, status) ==> (status in after <==> status in before))
    && (forall status :: !HeldStatus(ships, status) && status in before ==> after[status] == before[status])
  }

  /** The reply of the berthing handler. */
  datatype BerthReply = Berthed(message: string, ship: Ship, operation: Operation) | BerthRefused(error: Error)

  class PortStore {
    var ships: seq<Ship>
    var staff: seq<StaffMember>
    var operations: seq<Operation>
    /** `http_requests_total{method, route, status_code}` */
    var requestsTotal: Telemetry.Counter
    /** `porttrack_operations_total{operation_type, status}` */
    var operationsTotal: Telemetry.Counter
    /** `porttrack_critical_operations_failed_total{operation_type}` */
    var criticalFailed: Telemetry.Counter
    /** `porttrack_auth_failures_total{type}` */
    var authFailures: Telemetry.Counter
    /** `porttrack_active_ships_total{status}` */
    var activeShips: Telemetry.Gauge

    /**
     * The store's invariant: status and berth agree for every ship, and the gauge reads the
     * current count of every status some ship holds.
     */
    ghost predicate Valid()
      reads this
    {
      && BerthsConsistent(ships)
      && (forall status :: HeldStatus(ships, status) ==> status in activeShips && activeShips[status] == CountWithStatus(ships, status))
    }

    /** Process start: the seed collections, an empty log, untouched counters, one `updateMetrics`. */
    constructor ()
      ensures Valid()
      ensures ships == SEED_SHIPS && staff == SEED_STAFF && operations == []
      ensures requestsTotal == map[] && operationsTotal == map[] && criticalFailed == map[] && authFailures == map[]
      ensures GaugeRecomputed(map[], activeShips, ships)
    {
      ships := SEED_SHIPS;
      staff := SEED_STAFF;
      operations := [];
      requestsTotal := map[];
      operationsTotal := map[];
      criticalFailed := map[];
      authFailures := map[];
      activeShips := map[];
      new;
      UpdateMetrics();
    }

    /** `updateMetrics`: tally the ships by status and set the gauge for each status found. */
    method UpdateMetrics()
      modifies this`activeShips
      ensures GaugeRecomputed(old(activeShips), activeShips, ships)
    {
      var tally := ShipsByStatus(ships);
      activeShips := Telemetry.SetEach(activeShips, tally);
    }

    /**
     * POST /api/v1/ships/:id/berth. Unknown ship (404) and falsy berth number (400) change
     * nothing. An injected failure (500) counts one critical failure and changes nothing else.
     * Otherwise the first ship with that id is docked at the berth, arriving at `now`, the gauge
     * is recomputed, one success is counted and exactly one record is appended to the log,
     * whatever the ship's previous status was.
     */
    method Berth(id: string, berthNumber: Option<string>, injectFailure: bool, now: string, opId: string, stamp: string)
      returns (reply: BerthReply)
      requires Valid()
      modifies this`ships, this`operations, this`operationsTotal, this`criticalFailed, this`activeShips
      ensures Valid()
      ensures var gate := BerthGate(old(ships), id, berthNumber, injectFailure);
              gate.Err? ==>
                && reply == BerthRefused(gate.error)
                && ships == old(ships) && operations == old(operations)
                && operationsTotal == old(operationsTotal) && activeShips == old(activeShips)
                && criticalFailed == (if gate.error == BERTHING_FAILED then Telemetry.Inc(old(criticalFailed), BERTH_LABELS)
                                      else old(criticalFailed))
      ensures var gate := BerthGate(old(ships), id, berthNumber, injectFailure);
              gate.Ok? ==>
                var i := gate.value;
                var berthed := Docked(old(ships)[i], berthNumber.value, now);
                var record := BerthRecord(opId, stamp, old(ships)[i], berthNumber.value);
                && ships == old(ships)[i := berthed]
                && operations == old(operations) + [record]
                && operationsTotal == Telemetry.Inc(old(operationsTotal), BERTH_SUCCESS_LABELS)
                && criticalFailed == old(criticalFailed)
                && GaugeRecomputed(old(activeShips), activeShips, ships)
                && reply == Berthed("Ship berthed successfully", berthed, record)
    {
      var gate := BerthGate(ships, id, berthNumber, injectFailure);
      match gate
      case Err(e) =>
        if e == BERTHING_FAILED {
          criticalFailed := Telemetry.Inc(criticalFailed, BERTH_LABELS);
        }
        reply := BerthRefused(e);
      case Ok(i) =>
        var previous := ships[i];
        var berthed := Docked(previous, berthNumber.value, now);
        DockingKeepsBerthsConsistent(ships, i, berthNumber.value, now);
        ships := ships[i := berthed];
        UpdateMetrics();
        operationsTotal := Telemetry.Inc(operationsTotal, BERTH_SUCCESS_LABELS);
        var record := BerthRecord(opId, stamp, previous, berthNumber.value);
        operations := operations + [record];
        reply := Berthed("Ship berthed successfully", berthed, record);
    }

    /** POST /api/v1/auth/login: every failure, whatever its reason, counts one auth failure. */
    method Login(username: Option<string>, password: Option<string>, randomFails: bool)
      returns (outcome: LoginOutcome)
      modifies this`authFailures
      ensures outcome == LoginDecision(username, password, randomFails)
      ensures authFailures == if outcome.failure.Some? then Telemetry.Inc(old(authFailures), LOGIN_LABELS)
                              else old(authFailures)
    {
      outcome := LoginDecision(username, password, randomFails);
      if outcome.status == 401 {
        authFailures := Telemetry.Inc(authFailures, LOGIN_LABELS);
      }
    }

    /**
     * The metrics middleware's `finish` listener, for every request that reaches the metrics
     * middleware, whatever its route or outcome: one more request under (method, route template
     * or raw path, status code).
     */
    method RecordRequest(httpMethod: string, routePath: Option<string>, path: string, statusCode: nat)
      modifies this`requestsTotal
      ensures requestsTotal == Telemetry.Inc(old(requestsTotal), Telemetry.RequestLabels(httpMethod, routePath, path, statusCode))
    {
      requestsTotal := Telemetry.Inc(requestsTotal, Telemetry.RequestLabels(httpMethod, routePath, path, statusCode));
    }
  }
}
