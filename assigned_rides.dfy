/** The driver's "My Assigned Rides" list: the rides whose `driverId` is the
    driver, newest first from the store, sorted by status priority. */
module AssignedRides {
  import opened Rides
  import opened PrioritySort

  /** in progress -> assigned -> pending -> completed -> canceled; anything else last. */
  const AssignedPriority: Priority :=
    map[InProgress := 1, Assigned := 2, Pending := 3, Completed := 4, Canceled := 5]

  /** The query's `where("driverId", "==", uid)`. */
  function HeldBy(uid: Uid): Doc -> bool {
    (d: Doc) => d.ride.driverId == Some(uid)
  }

  /** The list once the store has delivered `snapshot`, all rides newest
      first. Without a signed-in driver nothing is subscribed. */
  function AssignedList(user: Option<Uid>, snapshot: seq<Doc>): seq<Doc> {
    if !Truthy(user) then [] else SortByPriority(AssignedPriority, Select(snapshot, HeldBy(user.value)))
  }

  lemma AssignedListSorted(user: Option<Uid>, snapshot: seq<Doc>)
    ensures !Truthy(user) ==> AssignedList(user, snapshot) == []
    ensures Truthy(user) ==>
              var rides := AssignedList(user, snapshot);
              && multiset(rides) == multiset(Select(snapshot, HeldBy(user.value)))
              && (forall d :: d in rides <==> d in snapshot && d.ride.driverId == user)
              && Ordered(AssignedPriority, rides)
              && (forall k :: WithRank(AssignedPriority, rides, k)
                               == Select(WithRank(AssignedPriority, snapshot, k), HeldBy(user.value)))
  {
    if Truthy(user) {
      SortedSelection(AssignedPriority, snapshot, HeldBy(user.value));
    }
  }

  /** `getStatusBadge`; it has no case for "pending". */
  function StatusBadge(status: Option<string>): Badge {
    match LowerStatus(status)
    case Some("assigned") => Badge("badge status-badge assigned", "🧭 Assigned")
    case Some("in_progress") => Badge("badge status-badge progress", "🚗 In Progress")
    case Some("completed") => Badge("badge status-badge completed", "✅ Completed")
    case Some("canceled") => Badge("badge status-badge canceled", "❌ Canceled")
    case _ => UnknownBadge
  }

  /** The badge names a status exactly when the sort gives it a priority,
      except for pending rides, which the sort ranks third and the badge
      calls unknown. */
  lemma BadgeKnownIffRankedButPending(status: Option<string>)
    ensures StatusBadge(status) != UnknownBadge <==>
              Rank(AssignedPriority, status) != Unranked && LowerStatus(status) != Some(Pending)
    ensures LowerStatus(status) == Some(Pending) ==>
              StatusBadge(status) == UnknownBadge && Rank(AssignedPriority, status) == 3
  {
  }
}
