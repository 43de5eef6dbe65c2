/** The rider's booking writer: builds the initial ride document from the
    form data and inserts it into the "rides" collection under a new id. */
module RideService {
  import opened Rides
  import opened Store
  import opened DriverService

  const UserNotLoggedIn := "User not logged in"
  const UnknownRideType := "unknown"

  datatype SaveResult = Saved(id: RideId) | SaveFailed(error: string)

  /** The document written for user `uid`. A location is an object, hence
      truthy whenever present, so `x || null` keeps it as it is. */
  function NewRideDocument(uid: Uid, input: Booking): (doc: Ride)
    // the lifecycle starts pending and unassigned
    ensures doc.status == Some(Pending)
    ensures doc.driverId == None && doc.driverName == None && doc.assignedAt == None
    ensures doc.vehicle == None
    ensures doc.userId == Some(uid)
    ensures doc.createdAt == Some(ServerTimestamp)
    // defaulting of the copied fields
    ensures doc.rideType == Some(if Truthy(input.rideType) then input.rideType.value else UnknownRideType)
    ensures doc.pickup == input.pickup && doc.drop == input.drop && doc.airport == input.airport
    ensures doc.dates.pickupDate.None? <==> !Truthy(input.date)
    ensures doc.dates.pickupDate.Some? ==> doc.dates.pickupDate == input.date
    ensures doc.dates.returnDate.None? <==> !Truthy(input.returnDate)
    ensures doc.dates.returnDate.Some? ==> doc.dates.returnDate == input.returnDate
    ensures doc.time.None? <==> !Truthy(input.time)
    ensures doc.time.Some? ==> doc.time == input.time
    ensures doc.fare.None? <==> !TruthyNumber(input.fare)
    ensures doc.fare.Some? ==> doc.fare == input.fare
    ensures doc.estimatedKm.None? <==> !TruthyNumber(input.estimatedKm)
    ensures doc.estimatedKm.Some? ==> doc.estimatedKm == input.estimatedKm
    ensures doc.meta.notes == if Truthy(input.notes) then input.notes.value else ""
  {
    Ride(
      userId := Some(uid),
      rideType := Some(StringOr(input.rideType, UnknownRideType)),
      pickup := input.pickup,
      drop := input.drop,
      airport := input.airport,
      dates := Dates(StringOrNull(input.date), StringOrNull(input.returnDate)),
      time := StringOrNull(input.time),
      estimatedKm := NumberOrNull(input.estimatedKm),
      fare := NumberOrNull(input.fare),
      status := Some(Pending),
      driverId := None,
      driverName := None,
      vehicle := None,
      assignedAt := None,
      createdAt := Some(ServerTimestamp),
      meta := Meta(StringOr(input.notes, "")))
  }

  /** saveRideToFirestore: `autoId` is the id the store generates for the
      new document, which it guarantees to be unused. */
  method SaveRideToFirestore(db: Database, user: Option<Uid>, input: Booking, autoId: RideId)
    returns (r: SaveResult)
    requires autoId !in db.rides
    modifies db
    ensures user.None? ==> r == SaveFailed(UserNotLoggedIn) && db.rides == old(db.rides)
    ensures user.Some? ==>
              r == Saved(autoId)
              && db.rides == old(db.rides)[autoId := NewRideDocument(user.value, input)]
    ensures db.users == old(db.users)
  {
    if user.None? {
      return SaveFailed(UserNotLoggedIn);
    }
    var doc := NewRideDocument(user.value, input);
    db.rides := db.rides[autoId := doc];
    r := Saved(autoId);
  }

  /** Saving adds exactly one ride, leaves the others as they were and keeps
      the invariants I1 and I2. */
  lemma SaveKeepsStore(rides: map<RideId, Ride>, uid: Uid, input: Booking, id: RideId)
    requires id !in rides
    ensures var saved := rides[id := NewRideDocument(uid, input)];
            && saved.Keys == rides.Keys + {id}
            && |saved| == |rides| + 1
            && (forall other | other in rides :: saved[other] == rides[other])
            && (SingleActive(rides) ==> SingleActive(saved))
            && (AllConsistent(rides) ==> AllConsistent(saved))
  {
    var doc := NewRideDocument(uid, input);
    var saved := rides[id := doc];
    assert !IsActive(doc) && Consistent(doc);
    assert saved.Keys == rides.Keys + {id};
    if SingleActive(rides) {
      forall a, b | a in saved && b in saved && IsActive(saved[a]) && IsActive(saved[b])
                    && saved[a].driverId == saved[b].driverId
        ensures a == b
      {
        assert a != id && b != id;
      }
    }
  }

  /** A new ride is in the state the claim expects: any signed-in driver
      with a profile and no active ride can claim it. */
  lemma NewRideClaimable(rides: map<RideId, Ride>, users: map<Uid, Profile>, uid: Uid,
                         input: Booking, id: RideId, driver: Option<Uid>)
    requires id !in rides
    ensures var saved := rides[id := NewRideDocument(uid, input)];
            ClaimResult(saved, users, driver, id) == Success
            <==> SignedIn(driver) && driver.value in users && !HasActiveRide(rides, driver.value)
  {
    var saved := rides[id := NewRideDocument(uid, input)];
    if SignedIn(driver) && HasActiveRide(saved, driver.value) {
      var other :| other in saved && ActiveFor(saved[other], driver.value);
      assert other != id && other in rides;
    }
    if SignedIn(driver) && HasActiveRide(rides, driver.value) {
      var other :| other in rides && ActiveFor(rides[other], driver.value);
      assert other in saved && saved[other] == rides[other];
    }
  }
}
