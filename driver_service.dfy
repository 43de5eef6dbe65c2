/** The driver's ride protocol: claim a pending ride, advance its status,
    release it. Each operation reads the current principal, reads the ride,
    runs its checks in a fixed order (the first failing check names the
    error) and then makes one conditional update of the ride document.

    `...Result` gives an operation's outcome and `...Effect` the rides
    collection after it, both as functions of the state before; the methods
    perform the operations on a `Database` and are proved against them. */
module DriverService {
  import opened Rides
  import opened Store

  const NotLoggedIn := "Not logged in"
  const RideNotFound := "Ride not found"
  const ProfileMissing := "Driver profile missing"
  const AlreadyTaken := "Ride already taken"
  const NotAvailable := "Ride not available"
  const HasActive := "You already have an active ride"
  const NotYourRide := "Not your ride"
  const UnknownDriver := "Unknown Driver"

  /** `auth.currentUser?.uid` is truthy. */
  predicate SignedIn(user: Option<Uid>) {
    Truthy(user)
  }

  // ---------------------------------------------------------------------
  // Claim

  /** The ride after a successful claim by `uid` whose profile is `p`. */
  function ClaimedRide(r: Ride, p: Profile, uid: Uid): (c: Ride)
    ensures c.driverId == Some(uid) && c.status == Some(Assigned)
    ensures c.driverName == Some(StringOr(p.displayName, UnknownDriver))
    ensures c.vehicle == p.vehicle
    ensures c.assignedAt == Some(ServerTimestamp)
    // no other field changes
    ensures c.(driverId := r.driverId, status := r.status, driverName := r.driverName,
               vehicle := r.vehicle, assignedAt := r.assignedAt) == r
  {
    // `driver.vehicle || null`: a vehicle object is always truthy
    r.(driverId := Some(uid),
       driverName := Some(StringOr(p.displayName, UnknownDriver)),
       vehicle := p.vehicle,
       status := Some(Assigned),
       assignedAt := Some(ServerTimestamp))
  }

  /** The outcome of `claimRideTransaction(rideId)` for principal `user`. */
  function ClaimResult(rides: map<RideId, Ride>, users: map<Uid, Profile>,
                       user: Option<Uid>, rideId: RideId): (r: Outcome)
    ensures r == Failure(NotLoggedIn) <==> !SignedIn(user)
    ensures r == Failure(RideNotFound) <==> SignedIn(user) && rideId !in rides
    ensures r == Failure(ProfileMissing) <==>
              SignedIn(user) && rideId in rides && user.value !in users
    ensures r == Failure(AlreadyTaken) <==>
              SignedIn(user) && rideId in rides && user.value in users
              && Truthy(rides[rideId].driverId)
    ensures r == Failure(NotAvailable) <==>
              SignedIn(user) && rideId in rides && user.value in users
              && !Truthy(rides[rideId].driverId) && rides[rideId].status != Some(Pending)
    ensures r == Failure(HasActive) <==>
              SignedIn(user) && rideId in rides && user.value in users
              && !Truthy(rides[rideId].driverId) && rides[rideId].status == Some(Pending)
              && HasActiveRide(rides, user.value)
    ensures r.Success? <==>
              SignedIn(user) && rideId in rides && user.value in users
              && !Truthy(rides[rideId].driverId) && rides[rideId].status == Some(Pending)
              && !HasActiveRide(rides, user.value)
  {
    if !SignedIn(user) then Failure(NotLoggedIn)
    else if rideId !in rides then Failure(RideNotFound)
    else if user.value !in users then Failure(ProfileMissing)
    else if Truthy(rides[rideId].driverId) then Failure(AlreadyTaken)
    else if rides[rideId].status != Some(Pending) then Failure(NotAvailable)
    else if HasActiveRide(rides, user.value) then Failure(HasActive)
    else Success
  }

  /** The rides collection after `claimRideTransaction(rideId)`. */
  function ClaimEffect(rides: map<RideId, Ride>, users: map<Uid, Profile>,
                       user: Option<Uid>, rideId: RideId): (e: map<RideId, Ride>)
    ensures e.Keys == rides.Keys
    ensures forall id | id in rides && id != rideId :: e[id] == rides[id]
    ensures ClaimResult(rides, users, user, rideId).Failure? ==> e == rides
    ensures ClaimResult(rides, users, user, rideId).Success? ==>
              e[rideId] == ClaimedRide(rides[rideId], users[user.value], user.value)
  {
    if ClaimResult(rides, users, user, rideId).Success? then
      rides[rideId := ClaimedRide(rides[rideId], users[user.value], user.value)]
    else
      rides
  }

  /** claimRideTransaction: the driver signed in as `user` claims ride `rideId`.
      The active-ride query is answered from the same state as the other reads. */
  method ClaimRideTransaction(db: Database, user: Option<Uid>, rideId: RideId)
    returns (r: Outcome)
    modifies db
    ensures r == ClaimResult(old(db.rides), old(db.users), user, rideId)
    ensures db.rides == ClaimEffect(old(db.rides), old(db.users), user, rideId)
    ensures db.users == old(db.users)
  {
    if !SignedIn(user) {
      return Failure(NotLoggedIn);
    }
    var uid := user.value;
    if rideId !in db.rides {
      return Failure(RideNotFound);
    }
    if uid !in db.users {
      return Failure(ProfileMissing);
    }
    var ride := db.rides[rideId];
    var driver := db.users[uid];
    if Truthy(ride.driverId) {
      return Failure(AlreadyTaken);
    }
    if ride.status != Some(Pending) {
      return Failure(NotAvailable);
    }
    var active := HasActiveRide(db.rides, uid);
    if active {
      return Failure(HasActive);
    }
    db.rides := db.rides[rideId := ClaimedRide(ride, driver, uid)];
    r := Success;
  }

  // ---------------------------------------------------------------------
  // Update status and release: the same two checks

  /** The outcome of the ownership-checked operations
      `updateRideStatus(rideId, _)` and `releaseRide(rideId)`. */
  function OwnerResult(rides: map<RideId, Ride>, user: Option<Uid>, rideId: RideId): (r: Outcome)
    ensures r == Failure(NotLoggedIn) <==> !SignedIn(user)
    ensures r == Failure(RideNotFound) <==> SignedIn(user) && rideId !in rides
    ensures r == Failure(NotYourRide) <==>
              SignedIn(user) && rideId in rides && rides[rideId].driverId != user
    ensures r.Success? <==> SignedIn(user) && rideId in rides && rides[rideId].driverId == user
  {
    if !SignedIn(user) then Failure(NotLoggedIn)
    else if rideId !in rides then Failure(RideNotFound)
    else if rides[rideId].driverId != user then Failure(NotYourRide)
    else Success
  }

  /** The rides collection after `updateRideStatus(rideId, newStatus)`. */
  function UpdateEffect(rides: map<RideId, Ride>, user: Option<Uid>, rideId: RideId,
                        newStatus: string): (e: map<RideId, Ride>)
    ensures e.Keys == rides.Keys
    ensures forall id | id in rides && id != rideId :: e[id] == rides[id]
    ensures OwnerResult(rides, user, rideId).Failure? ==> e == rides
    ensures OwnerResult(rides, user, rideId).Success? ==>
              e[rideId].status == Some(newStatus)
              && e[rideId].(status := rides[rideId].status) == rides[rideId]
  {
    if OwnerResult(rides, user, rideId).Success? then
      rides[rideId := rides[rideId].(status := Some(newStatus))]
    else
      rides
  }

  /** updateRideStatus: the owner sets the ride's status to `newStatus`,
      whatever the current status is. */
  method UpdateRideStatus(db: Database, user: Option<Uid>, rideId: RideId, newStatus: string)
    returns (r: Outcome)
    modifies db
    ensures r == OwnerResult(old(db.rides), user, rideId)
    ensures db.rides == UpdateEffect(old(db.rides), user, rideId, newStatus)
    ensures db.users == old(db.users)
  {
    if !SignedIn(user) {
      return Failure(NotLoggedIn);
    }
    if rideId !in db.rides {
      return Failure(RideNotFound);
    }
    var ride := db.rides[rideId];
    if ride.driverId != user {
      return Failure(NotYourRide);
    }
    db.rides := db.rides[rideId := ride.(status := Some(newStatus))];
    r := Success;
  }

  /** The rides collection after `releaseRide(rideId)`. */
  function ReleaseEffect(rides: map<RideId, Ride>, user: Option<Uid>, rideId: RideId)
    : (e: map<RideId, Ride>)
    ensures e.Keys == rides.Keys
    ensures forall id | id in rides && id != rideId :: e[id] == rides[id]
    ensures OwnerResult(rides, user, rideId).Failure? ==> e == rides
    ensures OwnerResult(rides, user, rideId).Success? ==>
              e[rideId].driverId == None && e[rideId].status == Some(Pending)
              // driverName, vehicle, assignedAt and the rest are kept
              && e[rideId].(driverId := rides[rideId].driverId, status := rides[rideId].status)
                 == rides[rideId]
  {
    if OwnerResult(rides, user, rideId).Success? then
      rides[rideId := rides[rideId].(driverId := None, status := Some(Pending))]
    else
      rides
  }

  /** releaseRide: the owner hands the ride back to the pending pool, from
      any status. */
  method ReleaseRide(db: Database, user: Option<Uid>, rideId: RideId) returns (r: Outcome)
    modifies db
    ensures r == OwnerResult(old(db.rides), user, rideId)
    ensures db.rides == ReleaseEffect(old(db.rides), user, rideId)
    ensures db.users == old(db.users)
  {
    if !SignedIn(user) {
      return Failure(NotLoggedIn);
    }
    if rideId !in db.rides {
      return Failure(RideNotFound);
    }
    var ride := db.rides[rideId];
    if ride.driverId != user {
      return Failure(NotYourRide);
    }
    db.rides := db.rides[rideId := ride.(driverId := None, status := Some(Pending))];
    r := Success;
  }

  // ---------------------------------------------------------------------
  // Invariants

  lemma ClaimPreservesSingleActive(rides: map<RideId, Ride>, users: map<Uid, Profile>,
                                   user: Option<Uid>, rideId: RideId)
    requires SingleActive(rides)
    ensures SingleActive(ClaimEffect(rides, users, user, rideId))
  {
    var e := ClaimEffect(rides, users, user, rideId);
    if ClaimResult(rides, users, user, rideId).Success? {
      var uid := user.value;
      forall a, b | a in e && b in e && IsActive(e[a]) && IsActive(e[b])
                    && e[a].driverId == e[b].driverId
        ensures a == b
      {
        if a != rideId && b != rideId {
          assert IsActive(rides[a]) && IsActive(rides[b]);
        }
      }
    }
  }

  lemma ClaimPreservesConsistent(rides: map<RideId, Ride>, users: map<Uid, Profile>,
                                 user: Option<Uid>, rideId: RideId)
    requires AllConsistent(rides)
    ensures AllConsistent(ClaimEffect(rides, users, user, rideId))
  {
  }

  lemma ReleasePreservesSingleActive(rides: map<RideId, Ride>, user: Option<Uid>, rideId: RideId)
    requires SingleActive(rides)
    ensures SingleActive(ReleaseEffect(rides, user, rideId))
  {
  }

  lemma ReleasePreservesConsistent(rides: map<RideId, Ride>, user: Option<Uid>, rideId: RideId)
    requires AllConsistent(rides)
    ensures AllConsistent(ReleaseEffect(rides, user, rideId))
  {
  }

  /** Setting a status keeps I2 when it does not make a ride active that
      was not active before: in particular the dashboard's Start
      (assigned -> in_progress) and Complete (in_progress -> completed). */
  lemma UpdatePreservesSingleActive(rides: map<RideId, Ride>, user: Option<Uid>, rideId: RideId,
                                    newStatus: string)
    requires SingleActive(rides)
    requires !ActiveStatus(Some(newStatus)) || (rideId in rides && ActiveStatus(rides[rideId].status))
    ensures SingleActive(UpdateEffect(rides, user, rideId, newStatus))
  {
    var e := UpdateEffect(rides, user, rideId, newStatus);
    forall a, b | a in e && b in e && IsActive(e[a]) && IsActive(e[b])
                  && e[a].driverId == e[b].driverId
      ensures a == b
    {
      assert IsActive(rides[a]) && IsActive(rides[b]);
    }
  }

  /** Setting a status keeps I1 when the new status is one a held ride may have. */
  lemma UpdatePreservesConsistent(rides: map<RideId, Ride>, user: Option<Uid>, rideId: RideId,
                                  newStatus: string)
    requires AllConsistent(rides)
    requires newStatus in {Assigned, InProgress, Completed, Canceled}
    ensures AllConsistent(UpdateEffect(rides, user, rideId, newStatus))
  {
  }

  /** A ride with only the given status and driver set. */
  function Held(status: string, driver: Option<Uid>): Ride {
    Ride(None, None, None, None, None, Dates(None, None), None, None, None,
         Some(status), driver, None, None, None, None, Meta(""))
  }

  /** updateRideStatus does not check that the new status follows the old
      one: a driver who holds a ride can turn a completed ride of theirs back
      into an assigned one, and then holds two rides (I2 broken). */
  lemma UpdateCanBreakSingleActive()
    ensures var rides := map["r1" := Held(Completed, Some("A")), "r2" := Held(Assigned, Some("A"))];
            && SingleActive(rides)
            && OwnerResult(rides, Some("A"), "r1") == Success
            && !SingleActive(UpdateEffect(rides, Some("A"), "r1", Assigned))
  {
    var rides := map["r1" := Held(Completed, Some("A")), "r2" := Held(Assigned, Some("A"))];
    var e := UpdateEffect(rides, Some("A"), "r1", Assigned);
    assert IsActive(e["r1"]) && IsActive(e["r2"]) && e["r1"].driverId == e["r2"].driverId;
  }

  /** ... and can set "pending" on a ride it still holds (I1 broken). */
  lemma UpdateCanBreakConsistent()
    ensures var rides := map["r1" := Held(Assigned, Some("A"))];
            && AllConsistent(rides)
            && OwnerResult(rides, Some("A"), "r1") == Success
            && !AllConsistent(UpdateEffect(rides, Some("A"), "r1", Pending))
  {
    var rides := map["r1" := Held(Assigned, Some("A"))];
    assert !Consistent(UpdateEffect(rides, Some("A"), "r1", Pending)["r1"]);
  }

  // ---------------------------------------------------------------------
  // Sequences of operations

  /** Once a ride is claimed, every further claim of it fails; a signed-in
      driver with a profile is told the ride is already taken. */
  lemma SecondClaimFails(rides: map<RideId, Ride>, users: map<Uid, Profile>,
                         first: Option<Uid>, second: Option<Uid>, rideId: RideId)
    requires ClaimResult(rides, users, first, rideId) == Success
    ensures ClaimResult(ClaimEffect(rides, users, first, rideId), users, second, rideId).Failure?
    ensures SignedIn(second) && second.value in users ==>
              ClaimResult(ClaimEffect(rides, users, first, rideId), users, second, rideId)
              == Failure(AlreadyTaken)
  {
  }

  /** Claim, release by the same driver, claim by another driver: the second
      claim succeeds when its driver has a profile and no active ride, and
      leaves the ride exactly as if that driver had claimed it first (the
      metadata the release left behind is overwritten). */
  lemma ClaimReleaseClaim(rides: map<RideId, Ride>, users: map<Uid, Profile>,
                          a: Option<Uid>, b: Option<Uid>, rideId: RideId)
    requires ClaimResult(rides, users, a, rideId) == Success
    requires SignedIn(b) && b.value in users && !HasActiveRide(rides, b.value)
    ensures var s1 := ClaimEffect(rides, users, a, rideId);
            && OwnerResult(s1, a, rideId) == Success
            && var s2 := ReleaseEffect(s1, a, rideId);
            && ClaimResult(s2, users, b, rideId) == Success
            && ClaimEffect(s2, users, b, rideId) == ClaimEffect(rides, users, b, rideId)
  {
    var s1 := ClaimEffect(rides, users, a, rideId);
    var s2 := ReleaseEffect(s1, a, rideId);
    assert s2[rideId].status == Some(Pending);
    assert ClaimResult(rides, users, b, rideId) == Success;
    var c := ClaimedRide(rides[rideId], users[b.value], b.value);
    assert ClaimedRide(s2[rideId], users[b.value], b.value) == c;
  }

  /** A ride's full life with three drivers: A claims R; B's claim is refused; A starts
      the ride; C may not complete it; A completes it. */
  lemma Scenario(rides: map<RideId, Ride>, users: map<Uid, Profile>, rideId: RideId,
                 a: Uid, b: Uid, c: Uid)
    requires rideId in rides && rides[rideId].status == Some(Pending)
    requires rides[rideId].driverId == None
    requires a != "" && b != "" && c != "" && a != c
    requires a in users && b in users && c in users
    requires !HasActiveRide(rides, a)
    ensures ClaimResult(rides, users, Some(a), rideId) == Success
    ensures var s1 := ClaimEffect(rides, users, Some(a), rideId);
            && s1[rideId].status == Some(Assigned) && s1[rideId].driverId == Some(a)
            && ClaimResult(s1, users, Some(b), rideId) == Failure(AlreadyTaken)
            && OwnerResult(s1, Some(a), rideId) == Success
            && var s2 := UpdateEffect(s1, Some(a), rideId, InProgress);
            && OwnerResult(s2, Some(c), rideId) == Failure(NotYourRide)
            && OwnerResult(s2, Some(a), rideId) == Success
            && UpdateEffect(s2, Some(a), rideId, Completed)[rideId].status == Some(Completed)
  {
  }
}
