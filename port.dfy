/**
 * The port's domain entities and the read-only handlers over them: ship listing and lookup,
 * the berthing guards, staff listing, the port-status aggregates, the cargo-tracking view,
 * the recent-operations window and the simulated login decision. Every handler is a function
 * of the store's collections and the request's parameters; Express plumbing, logging and the
 * response timestamp's clock are outside the model (a timestamp is passed in when one is shown).
 */
module Port {
  import opened Wrappers
  import opened JsArray

  // ---------------------------------------------------------------- entities

  datatype Coordinates = Coordinates(lat: real, lng: real)

  /** One value of a ship's free-form cargo descriptor. */
  datatype CargoValue = Number(n: int) | Text(s: string)

  /** A cargo descriptor: its fields in declaration order. */
  type Cargo = seq<(string, CargoValue)>

  datatype Ship = Ship(
    id: string,
    name: string,
    shipType: string,
    status: string,
    arrivalTime: Option<string>,
    estimatedArrival: Option<string>,
    berthNumber: Option<string>,
    captain: string,
    cargo: Cargo,
    location: Coordinates)

  datatype StaffMember = StaffMember(
    id: string,
    name: string,
    role: string,
    shift: string,
    active: bool,
    location: string)

  datatype BerthDetails = BerthDetails(berthNumber: string, previousStatus: string)

  /** An entry of the append-only operations log. */
  datatype Operation = Operation(
    id: string,
    opType: string,
    shipId: string,
    timestamp: string,
    details: BerthDetails)

  /** An error reply: its HTTP status and the `error` string of its body. */
  datatype Error = Error(status: nat, message: string)

  datatype Result<+T> = Ok(value: T) | Err(error: Error)

  const SHIP_NOT_FOUND := Error(404, "Ship not found")
  const BERTH_NUMBER_REQUIRED := Error(400, "Berth number is required")
  const BERTHING_FAILED := Error(500, "Berthing operation failed")

  /** JavaScript truthiness of an optional request string: present and not empty. */
  predicate Truthy(p: Option<string>) {
    p.Some? && p.value != ""
  }

  /** `if (param) list = list.filter(p)`: one optional narrowing step of a list handler. */
  function Narrow<T>(s: seq<T>, supplied: bool, p: T -> bool): seq<T> {
    if supplied then Filter(s, p) else s
  }

  /** A narrowing step is a filter by "not supplied, or satisfies `p`". */
  lemma NarrowIsFilter<T>(s: seq<T>, supplied: bool, p: T -> bool, g: T -> bool)
    requires forall x :: g(x) == (!supplied || p(x))
    ensures Narrow(s, supplied, p) == Filter(s, g)
  {
    if supplied {
      FilterCongruent(s, p, g);
    } else {
      FilterKeepsAll(s, g);
    }
  }

  /** Two narrowing steps in a row are one filter by the conjunction of their conditions. */
  lemma NarrowTwice<T>(s: seq<T>, a: bool, p: T -> bool, b: bool, q: T -> bool, g: T -> bool)
    requires forall x :: g(x) == ((!a || p(x)) && (!b || q(x)))
    ensures Narrow(Narrow(s, a, p), b, q) == Filter(s, g)
  {
    var pa := (x: T) => !a || p(x);
    var qb := (x: T) => !b || q(x);
    NarrowIsFilter(s, a, p, pa);
    NarrowIsFilter(Filter(s, pa), b, q, qb);
    FilterFuse(s, pa, qb, g);
  }

  /** Three narrowing steps in a row are one filter by the conjunction of their conditions. */
  lemma NarrowThrice<T>(s: seq<T>, a: bool, p: T -> bool, b: bool, q: T -> bool, c: bool, u: T -> bool, g: T -> bool)
    requires forall x :: g(x) == ((!a || p(x)) && (!b || q(x)) && (!c || u(x)))
    ensures Narrow(Narrow(Narrow(s, a, p), b, q), c, u) == Filter(s, g)
  {
    var ab := (x: T) => (!a || p(x)) && (!b || q(x));
    var uc := (x: T) => !c || u(x);
    NarrowTwice(s, a, p, b, q, ab);
    NarrowIsFilter(Filter(s, ab), c, u, uc);
    FilterFuse(s, ab, uc, g);
  }

  // ---------------------------------------------------------------- ships

  function HasStatus(status: string): Ship -> bool { (s: Ship) => s.status == status }

  function HasType(shipType: string): Ship -> bool { (s: Ship) => s.shipType == shipType }

  /** GET /api/v1/ships?status=&type=: narrow by status, then by type, each only when truthy. */
  function ListShips(ships: seq<Ship>, status: Option<string>, shipType: Option<string>): (r: seq<Ship>)
    ensures |r| <= |ships|
    ensures forall k :: 0 <= k < |r| ==> r[k] in ships && ShipMatches(r[k], status, shipType)
  {
    var byStatus := Narrow(ships, Truthy(status), HasStatus(status.GetOr("")));
    Narrow(byStatus, Truthy(shipType), HasType(shipType.GetOr("")))
  }

  /** A ship meets every filter that was supplied with a truthy value. */
  predicate ShipMatches(s: Ship, status: Option<string>, shipType: Option<string>) {
    && (Truthy(status) ==> s.status == status.value)
    && (Truthy(shipType) ==> s.shipType == shipType.value)
  }

  function ShipQuery(status: Option<string>, shipType: Option<string>): Ship -> bool {
    (s: Ship) => ShipMatches(s, status, shipType)
  }

  /**
   * The listed ships are exactly the ships meeting every truthy filter, in their original
   * order; with no truthy filter the whole list comes back.
   */
  lemma ListShipsConjunctive(ships: seq<Ship>, status: Option<string>, shipType: Option<string>)
    ensures ListShips(ships, status, shipType) == Filter(ships, ShipQuery(status, shipType))
    ensures forall s :: s in ListShips(ships, status, shipType) <==> s in ships && ShipMatches(s, status, shipType)
    ensures !Truthy(status) && !Truthy(shipType) ==> ListShips(ships, status, shipType) == ships
  {
    NarrowTwice(ships, Truthy(status), HasStatus(status.GetOr("")), Truthy(shipType), HasType(shipType.GetOr("")),
                ShipQuery(status, shipType));
    forall s
      ensures s in ListShips(ships, status, shipType) <==> s in ships && ShipMatches(s, status, shipType)
    {
      FilterMembership(ships, ShipQuery(status, shipType), s);
    }
    if !Truthy(status) && !Truthy(shipType) {
      FilterKeepsAll(ships, ShipQuery(status, shipType));
    }
  }

  /** Some ship carries the identifier `id`. */
  predicate Known(ships: seq<Ship>, id: string) {
    exists k :: 0 <= k < |ships| && ships[k].id == id
  }

  /** `ships.find(s => s.id === id)`, as the index of the first ship with that identifier. */
  function FindShip(ships: seq<Ship>, id: string): (r: Option<nat>)
    ensures r.Some? <==> Known(ships, id)
    ensures r.Some? ==> r.value < |ships| && ships[r.value].id == id
    ensures r.Some? ==> forall k :: 0 <= k < r.value ==> ships[k].id != id
  {
    if ships == [] then None
    else if ships[0].id == id then Some(0)
    else
      match FindShip(ships[1..], id)
      case None => None
      case Some(k) => Some(k + 1)
  }

  /** Replacing a ship by one with the same identifier does not change what any lookup finds. */
  lemma FindShipAfterUpdate(ships: seq<Ship>, i: nat, s: Ship, id: string)
    requires i < |ships| && s.id == ships[i].id
    ensures FindShip(ships[i := s], id) == FindShip(ships, id)
  {
    var before, after := FindShip(ships, id), FindShip(ships[i := s], id);
    assert forall k :: 0 <= k < |ships| ==> ships[i := s][k].id == ships[k].id;
  }

  /** `k` is the position of the first ship with identifier `id`, the one `find` returns. */
  predicate FirstWithId(ships: seq<Ship>, id: string, k: int) {
    0 <= k < |ships| && ships[k].id == id && forall j :: 0 <= j < k ==> ships[j].id != id
  }

  /** GET /api/v1/ships/:id: the first ship with that identifier, or 404. */
  function ShipDetails(ships: seq<Ship>, id: string): (r: Result<Ship>)
    ensures r.Err? <==> !Known(ships, id)
    ensures r.Err? ==> r.error == SHIP_NOT_FOUND
    ensures r.Ok? ==> r.value in ships && r.value.id == id
    ensures r.Ok? ==> exists k :: FirstWithId(ships, id, k) && ships[k] == r.value
  {
    match FindShip(ships, id)
    case None => Err(SHIP_NOT_FOUND)
    case Some(k) => Ok(ships[k])
  }

  // ---------------------------------------------------------------- berthing

  /**
   * The checks of POST /api/v1/ships/:id/berth, in the handler's order: an unknown ship is 404,
   * then a falsy berth number is 400, and only then is the failure draw consulted (500). On
   * success the index of the ship to berth is returned.
   */
  function BerthGate(ships: seq<Ship>, id: string, berthNumber: Option<string>, injectFailure: bool): (r: Result<nat>)
    ensures !Known(ships, id) ==> r == Err(SHIP_NOT_FOUND)
    ensures Known(ships, id) && !Truthy(berthNumber) ==> r == Err(BERTH_NUMBER_REQUIRED)
    ensures Known(ships, id) && Truthy(berthNumber) ==> (r.Err? <==> injectFailure)
    ensures Known(ships, id) && Truthy(berthNumber) && injectFailure ==> r == Err(BERTHING_FAILED)
    ensures r.Ok? ==> Truthy(berthNumber) && r.value < |ships| && ships[r.value].id == id
    ensures r.Ok? ==> forall k :: 0 <= k < r.value ==> ships[k].id != id
  {
    match FindShip(ships, id)
    case None => Err(SHIP_NOT_FOUND)
    case Some(k) =>
      if !Truthy(berthNumber) then Err(BERTH_NUMBER_REQUIRED)
      else if injectFailure then Err(BERTHING_FAILED)
      else Ok(k)
  }

  /** The berthing mutation of one ship: docked at `berthNumber`, arrived at `now`. */
  function Docked(s: Ship, berthNumber: string, now: string): (r: Ship)
    ensures r.id == s.id && r.status == "docked" && r.berthNumber == Some(berthNumber) && r.arrivalTime == Some(now)
    ensures r.(status := s.status, berthNumber := s.berthNumber, arrivalTime := s.arrivalTime) == s
  {
    s.(status := "docked", berthNumber := Some(berthNumber), arrivalTime := Some(now))
  }

  /** The operation record of berthing `s` (as it was before the mutation). */
  function BerthRecord(opId: string, stamp: string, s: Ship, berthNumber: string): (r: Operation)
    ensures r.id == opId && r.opType == "berth" && r.shipId == s.id && r.timestamp == stamp
    ensures r.details.berthNumber == berthNumber && r.details.previousStatus == s.status
  {
    Operation(opId, "berth", s.id, stamp, BerthDetails(berthNumber, s.status))
  }

  /** Berthing twice at the same berth leaves the same ship state as berthing once, later. */
  lemma ReberthingSettles(s: Ship, berthNumber: string, first: string, second: string, opId: string, stamp: string)
    ensures Docked(Docked(s, berthNumber, first), berthNumber, second) == Docked(s, berthNumber, second)
    ensures BerthRecord(opId, stamp, Docked(s, berthNumber, first), berthNumber).details == BerthDetails(berthNumber, "docked")
  {
  }

  /** A ship occupies a berth while docked or loading. */
  predicate Occupying(s: Ship) {
    s.status == "docked" || s.status == "loading"
  }

  /** Status and berth agree: a ship holds a truthy berth number exactly while it occupies a berth. */
  predicate BerthsConsistent(ships: seq<Ship>) {
    forall k :: 0 <= k < |ships| ==> (Occupying(ships[k]) <==> Truthy(ships[k].berthNumber))
  }

  /** Berthing at a non-empty berth number keeps status and berth consistent. */
  lemma DockingKeepsBerthsConsistent(ships: seq<Ship>, i: nat, berthNumber: string, now: string)
    requires BerthsConsistent(ships) && i < |ships| && berthNumber != ""
    ensures BerthsConsistent(ships[i := Docked(ships[i], berthNumber, now)])
  {
  }

  // ---------------------------------------------------------------- staff

  function HasRole(role: string): StaffMember -> bool { (m: StaffMember) => m.role == role }

  function OnShift(shift: string): StaffMember -> bool { (m: StaffMember) => m.shift == shift }

  function IsActive(active: bool): StaffMember -> bool { (m: StaffMember) => m.active == active }

  /** The `active` query value as the handler reads it: only the literal "true" means true. */
  function ActiveFlag(p: string): bool {
    p == "true"
  }

  /**
   * GET /api/v1/staff?role=&shift=&active=: narrow by role and by shift when truthy, and by the
   * active flag whenever `active` is present at all, even as "".
   */
  function ListStaff(staff: seq<StaffMember>, role: Option<string>, shift: Option<string>, active: Option<string>): (r: seq<StaffMember>)
    ensures |r| <= |staff|
    ensures forall k :: 0 <= k < |r| ==> r[k] in staff && StaffMatches(r[k], role, shift, active)
  {
    var byRole := Narrow(staff, Truthy(role), HasRole(role.GetOr("")));
    var byShift := Narrow(byRole, Truthy(shift), OnShift(shift.GetOr("")));
    Narrow(byShift, active.Some?, IsActive(ActiveFlag(active.GetOr(""))))
  }

  predicate StaffMatches(m: StaffMember, role: Option<string>, shift: Option<string>, active: Option<string>) {
    && (Truthy(role) ==> m.role == role.value)
    && (Truthy(shift) ==> m.shift == shift.value)
    && (active.Some? ==> m.active == ActiveFlag(active.value))
  }

  function StaffQuery(role: Option<string>, shift: Option<string>, active: Option<string>): StaffMember -> bool {
    (m: StaffMember) => StaffMatches(m, role, shift, active)
  }

  /** The listed staff are exactly those meeting every supplied filter, in their original order. */
  lemma ListStaffConjunctive(staff: seq<StaffMember>, role: Option<string>, shift: Option<string>, active: Option<string>)
    ensures ListStaff(staff, role, shift, active) == Filter(staff, StaffQuery(role, shift, active))
    ensures forall m :: m in ListStaff(staff, role, shift, active) <==> m in staff && StaffMatches(m, role, shift, active)
    ensures !Truthy(role) && !Truthy(shift) && active.None? ==> ListStaff(staff, role, shift, active) == staff
  {
    NarrowThrice(staff, Truthy(role), HasRole(role.GetOr("")), Truthy(shift), OnShift(shift.GetOr("")),
                 active.Some?, IsActive(ActiveFlag(active.GetOr(""))), StaffQuery(role, shift, active));
    forall m
      ensures m in ListStaff(staff, role, shift, active) <==> m in staff && StaffMatches(m, role, shift, active)
    {
      FilterMembership(staff, StaffQuery(role, shift, active), m);
    }
    if !Truthy(role) && !Truthy(shift) && active.None? {
      FilterKeepsAll(staff, StaffQuery(role, shift, active));
    }
  }

  /**
   * Any `active` value other than the literal "true" ("false", "yes", "" alike) behaves as
   * "false": it keeps exactly the inactive staff that meet the other filters.
   */
  lemma ActiveFlagQuirk(staff: seq<StaffMember>, role: Option<string>, shift: Option<string>, v: string)
    requires v != "true"
    ensures ListStaff(staff, role, shift, Some(v)) == ListStaff(staff, role, shift, Some("false"))
    ensures forall m :: m in ListStaff(staff, role, shift, Some(v)) <==>
      m in staff && !m.active && StaffMatches(m, role, shift, None)
  {
    ListStaffConjunctive(staff, role, shift, Some(v));
  }

  // ---------------------------------------------------------------- port status

  const TOTAL_BERTHS := 24

  datatype PortStatus = PortStatus(activeShips: nat, totalBerths: nat, availableBerths: int, activeStaff: nat)

  function OccupyingShip(): Ship -> bool { (s: Ship) => Occupying(s) }

  /** GET /api/v1/status, its `port_status` counts, computed afresh from the collections. */
  function StatusReport(ships: seq<Ship>, staff: seq<StaffMember>): (r: PortStatus)
    ensures r.totalBerths == TOTAL_BERTHS && r.activeShips + r.availableBerths == TOTAL_BERTHS
    ensures r.activeShips <= |ships| && r.activeStaff <= |staff|
    ensures r.activeShips == 0 <==> forall k :: 0 <= k < |ships| ==> !Occupying(ships[k])
    ensures r.activeStaff == 0 <==> forall k :: 0 <= k < |staff| ==> !staff[k].active
    ensures r.activeShips == CountWithStatus(ships, "docked") + CountWithStatus(ships, "loading")
    ensures r.activeStaff == |staff| - |Filter(staff, IsActive(false))|
  {
    FilterDisjointOrCount(ships, HasStatus("docked"), HasStatus("loading"), OccupyingShip());
    FilterComplementCount(staff, IsActive(true), IsActive(false));
    FilterEmpty(ships, OccupyingShip());
    FilterEmpty(staff, IsActive(true));
    var occupying := |Filter(ships, OccupyingShip())|;
    PortStatus(occupying, TOTAL_BERTHS, TOTAL_BERTHS - occupying, |Filter(staff, IsActive(true))|)
  }

  /**
   * Berthing a ship raises the active-ship count by one when it was not occupying a berth and
   * leaves it as it was otherwise; available berths move the opposite way.
   */
  lemma DockingOccupancy(ships: seq<Ship>, staff: seq<StaffMember>, i: nat, berthNumber: string, now: string)
    requires i < |ships|
    ensures StatusReport(ships[i := Docked(ships[i], berthNumber, now)], staff).activeShips ==
            StatusReport(ships, staff).activeShips + (if Occupying(ships[i]) then 0 else 1)
  {
    FilterUpdateCount(ships, i, Docked(ships[i], berthNumber, now), OccupyingShip());
  }

  // ---------------------------------------------------------------- ship status tallies

  /** Some ship currently has status `status`. */
  predicate HeldStatus(ships: seq<Ship>, status: string) {
    exists k :: 0 <= k < |ships| && ships[k].status == status
  }

  /** The number of ships with status `status`. */
  function CountWithStatus(ships: seq<Ship>, status: string): nat {
    |Filter(ships, HasStatus(status))|
  }

  /** Counting ships one more at a time: the tally of the reduce step. */
  lemma CountSnoc(ships: seq<Ship>, s: Ship, status: string)
    ensures CountWithStatus(ships + [s], status) == CountWithStatus(ships, status) + (if s.status == status then 1 else 0)
  {
    FilterConcat(ships, [s], HasStatus(status));
    FilterSingleton(s, HasStatus(status));
  }

  /** A status is counted at least once exactly when some ship holds it. */
  lemma CountPositive(ships: seq<Ship>, status: string)
    ensures CountWithStatus(ships, status) > 0 <==> HeldStatus(ships, status)
  {
    FilterEmpty(ships, HasStatus(status));
  }

  /** One reduce step for every status at once: what counting one more ship does to each tally. */
  lemma TallyStep(ships: seq<Ship>, s: Ship)
    ensures forall status :: HeldStatus(ships + [s], status) <==> HeldStatus(ships, status) || s.status == status
    ensures forall status :: CountWithStatus(ships + [s], status) ==
                             CountWithStatus(ships, status) + (if s.status == status then 1 else 0)
  {
    forall status
      ensures CountWithStatus(ships + [s], status) ==
              CountWithStatus(ships, status) + (if s.status == status then 1 else 0)
    {
      CountSnoc(ships, s, status);
    }
    forall status
      ensures HeldStatus(ships + [s], status) <==> HeldStatus(ships, status) || s.status == status
    {
      if HeldStatus(ships + [s], status) && s.status != status {
        var k :| 0 <= k < |ships + [s]| && (ships + [s])[k].status == status;
        assert k < |ships| && ships[k].status == status;
      }
      if HeldStatus(ships, status) {
        var k :| 0 <= k < |ships| && ships[k].status == status;
        assert (ships + [s])[k].status == status;
      }
      if s.status == status {
        assert (ships + [s])[|ships|].status == status;
      }
    }
  }

  // ---------------------------------------------------------------- cargo tracking

  const AT_SEA := "At sea"

  datatype CargoView = CargoView(
    shipId: string,
    shipName: string,
    cargo: Cargo,
    status: string,
    location: string,
    coordinates: Coordinates,
    lastUpdate: string)

  /**
   * The view shows ship `s`: its name, cargo, status and coordinates, and as location its berth
   * number when that is truthy and "At sea" otherwise (`berthNumber || 'At sea'`).
   */
  predicate Shows(view: CargoView, s: Ship) {
    && view.shipName == s.name && view.cargo == s.cargo
    && view.status == s.status && view.coordinates == s.location
    && (Truthy(s.berthNumber) ==> view.location == s.berthNumber.value)
    && (!Truthy(s.berthNumber) ==> view.location == AT_SEA)
  }

  /** GET /api/v1/cargo/tracking/:shipId: the cargo view of the first ship with that id, or 404. */
  function CargoTracking(ships: seq<Ship>, id: string, now: string): (r: Result<CargoView>)
    ensures r.Err? <==> !Known(ships, id)
    ensures r.Err? ==> r.error == SHIP_NOT_FOUND
    ensures r.Ok? ==> r.value.shipId == id && r.value.location != "" && r.value.lastUpdate == now
    ensures r.Ok? ==> exists k :: FirstWithId(ships, id, k) && Shows(r.value, ships[k])
  {
    match FindShip(ships, id)
    case None => Err(SHIP_NOT_FOUND)
    case Some(k) =>
      var s := ships[k];
      Ok(CargoView(s.id, s.name, s.cargo, s.status,
                   if Truthy(s.berthNumber) then s.berthNumber.value else AT_SEA,
                   s.location, now))
  }

  /**
   * When status and berth are consistent, the cargo view's location is the berth number of a
   * ship occupying a berth and "At sea" for any other ship.
   */
  lemma CargoLocationFollowsStatus(ships: seq<Ship>, id: string, now: string)
    requires BerthsConsistent(ships) && Known(ships, id)
    ensures var s := ships[FindShip(ships, id).value];
            var view := CargoTracking(ships, id, now).value;
            && (Occupying(s) ==> view.location == s.berthNumber.value)
            && (!Occupying(s) ==> view.location == AT_SEA)
  {
  }

  /**
   * After the ship a lookup of `id` finds is berthed at `berthNumber`, tracking `id` shows that
   * ship docked there.
   */
  lemma DockedShipIsAtBerth(ships: seq<Ship>, id: string, i: nat, berthNumber: string, now: string, later: string)
    requires i < |ships| && ships[i].id == id && berthNumber != ""
    requires forall k :: 0 <= k < i ==> ships[k].id != id
    ensures CargoTracking(ships[i := Docked(ships[i], berthNumber, now)], id, later) ==
            Ok(CargoView(id, ships[i].name, ships[i].cargo, "docked", berthNumber, ships[i].location, later))
  {
    FindShipAfterUpdate(ships, i, Docked(ships[i], berthNumber, now), id);
  }

  // ---------------------------------------------------------------- operations window

  const RECENT_WINDOW := 50

  /** GET /api/v1/operations: `operations.slice(-50)`. */
  function RecentOperations(operations: seq<Operation>): (r: seq<Operation>)
    ensures |r| == Min(RECENT_WINDOW, |operations|)
    ensures r == operations[|operations| - |r|..]
  {
    Slice(operations, -RECENT_WINDOW)
  }

  /**
   * Appending one record slides the window: the new record comes last, and the oldest one
   * drops out once the window is full.
   */
  lemma RecentWindowSlides(operations: seq<Operation>, op: Operation)
    ensures RecentOperations(operations + [op]) ==
            (if |operations| >= RECENT_WINDOW then RecentOperations(operations)[1..] else RecentOperations(operations)) + [op]
  {
  }

  // ---------------------------------------------------------------- login

  const MOCK_TOKEN := "mock-jwt-token"

  datatype FailureReason = MissingCredentials | InvalidCredentials

  datatype LoginBody = Authenticated(message: string, token: string) | Refused(error: string)

  /** The reply of POST /api/v1/auth/login and, on failure, the reason its log event carries. */
  datatype LoginOutcome = LoginOutcome(status: nat, body: LoginBody, failure: Option<FailureReason>)

  /**
   * `Math.random() < 0.15 || !username || !password`, with the draw given as `randomFails`:
   * missing credentials always fail, present ones fail exactly when the draw says so, and both
   * kinds of failure give the same 401 reply.
   */
  function LoginDecision(username: Option<string>, password: Option<string>, randomFails: bool): (r: LoginOutcome)
    ensures !Truthy(username) || !Truthy(password) ==> r.failure == Some(MissingCredentials)
    ensures Truthy(username) && Truthy(password) ==> (r.failure.Some? <==> randomFails)
    ensures Truthy(username) && Truthy(password) && randomFails ==> r.failure == Some(InvalidCredentials)
    ensures r.failure.Some? <==> r.status == 401
    ensures r.failure.Some? ==> r.body == Refused("Authentication failed")
    ensures r.failure.None? ==> r.status == 200 && r.body.Authenticated? && r.body.token == MOCK_TOKEN
  {
    var missing := !Truthy(username) || !Truthy(password);
    if randomFails || missing then
      LoginOutcome(401, Refused("Authentication failed"),
                   Some(if missing then MissingCredentials else InvalidCredentials))
    else
      LoginOutcome(200, Authenticated("Authentication successful", MOCK_TOKEN), None)
  }
}
