/** The driver dashboard: the rides a driver sees (the unclaimed pending
    pool and their own rides), sorted by status priority, with a status
    badge and the action buttons that call the ride protocol. */
module DriverDashboard {
  import opened Rides
  import opened Store
  import opened PrioritySort
  import opened DriverService

  /** pending -> assigned -> in progress -> completed; anything else last. */
  const DriverPriority: Priority :=
    map[Pending := 1, Assigned := 2, InProgress := 3, Completed := 4]

  /** A ride is in the pool (pending and unclaimed) or is the driver's own. */
  predicate Visible(r: Ride, uid: Uid) {
    (r.status == Some(Pending) && !Truthy(r.driverId)) || r.driverId == Some(uid)
  }

  function VisibleTo(uid: Uid): Doc -> bool {
    (d: Doc) => Visible(d.ride, uid)
  }

  datatype DashboardState = DashboardState(rides: seq<Doc>, loading: bool)

  /** The dashboard's state once the store has delivered `snapshot`, all
      rides newest first. Without a signed-in driver nothing is subscribed
      and the dashboard stays empty and loading. */
  function Dashboard(user: Option<Uid>, snapshot: seq<Doc>): DashboardState {
    if !Truthy(user) then DashboardState([], true)
    else DashboardState(SortByPriority(DriverPriority, Select(snapshot, VisibleTo(user.value))), false)
  }

  lemma DashboardList(user: Option<Uid>, snapshot: seq<Doc>)
    ensures !Truthy(user) ==> Dashboard(user, snapshot) == DashboardState([], true)
    ensures Truthy(user) ==>
              var st := Dashboard(user, snapshot);
              && !st.loading
              && multiset(st.rides) == multiset(Select(snapshot, VisibleTo(user.value)))
              && (forall d :: d in st.rides <==> d in snapshot && Visible(d.ride, user.value))
              && Ordered(DriverPriority, st.rides)
              && (forall k :: WithRank(DriverPriority, st.rides, k)
                               == Select(WithRank(DriverPriority, snapshot, k), VisibleTo(user.value)))
  {
    if Truthy(user) {
      SortedSelection(DriverPriority, snapshot, VisibleTo(user.value));
    }
  }

  /** `getStatusBadge`. */
  function StatusBadge(status: Option<string>): Badge {
    match LowerStatus(status)
    case Some("pending") => Badge("badge status-badge pending", "⏳ Pending")
    case Some("assigned") => Badge("badge status-badge assigned", "🧭 Assigned")
    case Some("in_progress") => Badge("badge status-badge progress", "🚗 In Progress")
    case Some("completed") => Badge("badge status-badge completed", "✅ Completed")
    case _ => UnknownBadge
  }

  /** The badge names a status exactly when the sort gives it a priority. */
  lemma BadgeKnownIffRanked(status: Option<string>)
    ensures StatusBadge(status) != UnknownBadge <==> Rank(DriverPriority, status) != Unranked
  {
  }

  // The action buttons of a ride card, for the signed-in driver `uid`.

  predicate ShowAccept(r: Ride) {
    r.status == Some(Pending)
  }

  predicate ShowStart(r: Ride, uid: Uid) {
    r.driverId == Some(uid) && r.status == Some(Assigned)
  }

  predicate ShowComplete(r: Ride, uid: Uid) {
    r.driverId == Some(uid) && r.status == Some(InProgress)
  }

  predicate ShowRelease(r: Ride, uid: Uid) {
    r.driverId == Some(uid)
  }

  /** Accept on a card of the dashboard: the claim succeeds unless the ride
      is the driver's own (Accept does not look at `driverId`) or the driver
      already holds a ride. */
  lemma AcceptOutcome(rides: map<RideId, Ride>, users: map<Uid, Profile>, uid: Uid, id: RideId)
    requires uid != "" && uid in users && id in rides
    requires Visible(rides[id], uid) && ShowAccept(rides[id])
    ensures ClaimResult(rides, users, Some(uid), id)
            == if rides[id].driverId == Some(uid) then Failure(AlreadyTaken)
               else if HasActiveRide(rides, uid) then Failure(HasActive)
               else Success
  {
  }

  /** Start calls `updateRideStatus(id, "in_progress")`: shown only where it
      succeeds, takes a forward step, and keeps I1 and I2. */
  lemma StartButtonSound(rides: map<RideId, Ride>, uid: Uid, id: RideId)
    requires uid != "" && id in rides && ShowStart(rides[id], uid)
    ensures OwnerResult(rides, Some(uid), id) == Success
    ensures Forward(rides[id].status, Some(InProgress))
    ensures SingleActive(rides) ==> SingleActive(UpdateEffect(rides, Some(uid), id, InProgress))
    ensures AllConsistent(rides) ==> AllConsistent(UpdateEffect(rides, Some(uid), id, InProgress))
  {
    if SingleActive(rides) {
      UpdatePreservesSingleActive(rides, Some(uid), id, InProgress);
    }
    if AllConsistent(rides) {
      UpdatePreservesConsistent(rides, Some(uid), id, InProgress);
    }
  }

  /** Complete calls `updateRideStatus(id, "completed")`: shown only where it
      succeeds, takes a forward step, and keeps I1 and I2. */
  lemma CompleteButtonSound(rides: map<RideId, Ride>, uid: Uid, id: RideId)
    requires uid != "" && id in rides && ShowComplete(rides[id], uid)
    ensures OwnerResult(rides, Some(uid), id) == Success
    ensures Forward(rides[id].status, Some(Completed))
    ensures SingleActive(rides) ==> SingleActive(UpdateEffect(rides, Some(uid), id, Completed))
    ensures AllConsistent(rides) ==> AllConsistent(UpdateEffect(rides, Some(uid), id, Completed))
  {
    if SingleActive(rides) {
      UpdatePreservesSingleActive(rides, Some(uid), id, Completed);
    }
    if AllConsistent(rides) {
      UpdatePreservesConsistent(rides, Some(uid), id, Completed);
    }
  }

  /** Release is shown exactly on the rides whose release succeeds, and
      only on visible ones. */
  lemma ReleaseButtonIffOwner(rides: map<RideId, Ride>, uid: Uid, id: RideId)
    requires uid != "" && id in rides
    ensures ShowRelease(rides[id], uid) <==> OwnerResult(rides, Some(uid), id) == Success
    ensures ShowRelease(rides[id], uid) ==> Visible(rides[id], uid)
  {
  }
}
