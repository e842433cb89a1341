/** The seed-data scenarios of the service's test suite, stated over the model. */
module Scenarios {
  import opened Wrappers
  import opened JsArray
  import opened Port
  import opened PortService

  /** GET /api/v1/ships?status=docked on the seed: exactly one ship, and it is docked. */
  lemma SeedDockedListing()
    ensures |ListShips(SEED_SHIPS, Some("docked"), None)| == 1
    ensures ListShips(SEED_SHIPS, Some("docked"), None)[0].status == "docked"
  {
  }

  /** GET /api/v1/ships/NONEXISTENT and the cargo view of it on the seed: both 404. */
  lemma SeedUnknownShip(now: string)
    ensures ShipDetails(SEED_SHIPS, "NONEXISTENT") == Err(SHIP_NOT_FOUND)
    ensures CargoTracking(SEED_SHIPS, "NONEXISTENT", now) == Err(SHIP_NOT_FOUND)
  {
  }

  /** The seed ships after SHIP002 is docked at C-15. */
  function SeedAfterBerthing(now: string): seq<Ship> {
    SEED_SHIPS[1 := Docked(SEED_SHIPS[1], "C-15", now)]
  }

  /** On the seed, the guards of berthing SHIP002 at C-15 pass and select the second ship. */
  lemma SeedBerthingGate()
    ensures BerthGate(SEED_SHIPS, "SHIP002", Some("C-15"), false) == Ok(1)
  {
    assert FindShip(SEED_SHIPS, "SHIP002") == Some(1);
  }

  /** After that berthing, two ships are docked and none is approaching any more. */
  lemma SeedAfterBerthingTally(now: string)
    ensures HeldStatus(SeedAfterBerthing(now), "docked")
    ensures CountWithStatus(SeedAfterBerthing(now), "docked") == 2
    ensures !HeldStatus(SeedAfterBerthing(now), "approaching")
  {
    var after := SeedAfterBerthing(now);
    var docked := HasStatus("docked");
    assert after[0].status == "docked";
    assert after == [after[0], after[1]] + [after[2]];
    assert [after[0], after[1]] == [after[0]] + [after[1]];
    FilterConcat([after[0], after[1]], [after[2]], docked);
    FilterConcat([after[0]], [after[1]], docked);
    FilterSingleton(after[0], docked);
    FilterSingleton(after[1], docked);
    FilterSingleton(after[2], docked);
  }

  /** On the seed, one ship is approaching. */
  lemma SeedApproaching()
    ensures HeldStatus(SEED_SHIPS, "approaching")
    ensures CountWithStatus(SEED_SHIPS, "approaching") == 1
  {
    assert SEED_SHIPS[1].status == "approaching";
    assert SEED_SHIPS[1..][1..] == [SEED_SHIPS[2]];
    FilterSingleton(SEED_SHIPS[2], HasStatus("approaching"));
  }

  /**
   * Berthing SHIP002 at C-15 with no injected failure, from the seed: it succeeds, the ship
   * is docked at C-15, the record says it was approaching, and the gauge now reads two docked
   * ships while its "approaching" label keeps its stale level of one.
   */
  method SeedBerthing(now: string, opId: string, stamp: string)
    returns (reply: BerthReply, docked: int, approaching: int, logged: nat)
    ensures reply.Berthed?
    ensures reply.ship.status == "docked" && reply.ship.berthNumber == Some("C-15")
    ensures reply.operation.details == BerthDetails("C-15", "approaching")
    ensures docked == 2 && approaching == 1 && logged == 1
  {
    var store := new PortStore();
    SeedApproaching();
    SeedBerthingGate();
    SeedAfterBerthingTally(now);
    reply := store.Berth("SHIP002", Some("C-15"), false, now, opId, stamp);
    assert store.ships == SeedAfterBerthing(now);
    docked := store.activeShips["docked"];
    approaching := store.activeShips["approaching"];
    logged := |store.operations|;
  }

  /** GET /api/v1/staff?active=yes on the seed: only the one inactive member, STAFF003. */
  lemma SeedActiveQuirk()
    ensures ListStaff(SEED_STAFF, None, None, Some("yes")) == [SEED_STAFF[2]]
  {
    var inactive := IsActive(false);
    assert SEED_STAFF[1..][1..][1..] == [SEED_STAFF[3]];
    FilterSingleton(SEED_STAFF[3], inactive);
  }
}
