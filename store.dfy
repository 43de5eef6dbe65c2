/** The shared document store: the "rides" and "users" collections behind
    the client's global `db` handle, and the store-wide invariants the ride
    protocol is meant to keep. */
module Store {
  import opened Rides

  /** The document store. Every protocol operation is one atomic step on it. */
  class Database {
    var rides: map<RideId, Ride>
    var users: map<Uid, Profile>
  }

  /** The ride counts against driver `uid` in the active-ride query:
      `driverId == uid` and `status in ["assigned", "in_progress"]`. */
  predicate ActiveFor(r: Ride, uid: Uid) {
    r.driverId == Some(uid) && ActiveStatus(r.status)
  }

  /** The active-ride query returns a document. */
  predicate HasActiveRide(rides: map<RideId, Ride>, uid: Uid) {
    exists id | id in rides :: ActiveFor(rides[id], uid)
  }

  /** Invariant I2 (single active ride): no driver holds two assigned or
      in-progress rides at once. */
  predicate SingleActive(rides: map<RideId, Ride>) {
    forall a, b | a in rides && b in rides && IsActive(rides[a]) && IsActive(rides[b])
                  && rides[a].driverId == rides[b].driverId :: a == b
  }

  /** Invariant I1 (`Consistent`) for every ride in the store. */
  predicate AllConsistent(rides: map<RideId, Ride>) {
    forall id | id in rides :: Consistent(rides[id])
  }
}
