/** The rider's "My Rides" list: the rider's own bookings, fetched once and
    sorted by status priority, each with a badge style. */
module MyRides {
  import opened Rides
  import opened PrioritySort

  /** pending -> in progress -> assigned -> completed -> canceled; anything else last. */
  const RiderPriority: Priority :=
    map[Pending := 1, InProgress := 2, Assigned := 3, Completed := 4, Canceled := 5]

  /** The query's `where("userId", "==", user.uid)`. */
  function BookedBy(uid: Uid): Doc -> bool {
    (d: Doc) => d.ride.userId == Some(uid)
  }

  datatype MyRidesState = MyRidesState(rides: seq<Doc>, loading: bool)

  /** The list once the one-off fetch returned `snapshot`, the collection in
      the store's order. Without a current user loading stops with no rides. */
  function FetchRides(user: Option<Uid>, snapshot: seq<Doc>): MyRidesState {
    if user.None? then MyRidesState([], false)
    else MyRidesState(SortByPriority(RiderPriority, Select(snapshot, BookedBy(user.value))), false)
  }

  lemma FetchRidesSorted(user: Option<Uid>, snapshot: seq<Doc>)
    ensures user.None? ==> FetchRides(user, snapshot) == MyRidesState([], false)
    ensures user.Some? ==>
              var st := FetchRides(user, snapshot);
              && !st.loading
              && multiset(st.rides) == multiset(Select(snapshot, BookedBy(user.value)))
              && (forall d :: d in st.rides <==> d in snapshot && d.ride.userId == user)
              && Ordered(RiderPriority, st.rides)
              && (forall k :: WithRank(RiderPriority, st.rides, k)
                               == Select(WithRank(RiderPriority, snapshot, k), BookedBy(user.value)))
  {
    if user.Some? {
      SortedSelection(RiderPriority, snapshot, BookedBy(user.value));
    }
  }

  const DefaultStyle := "bg-secondary"

  /** `getStatusStyle`. */
  function StatusStyle(status: Option<string>): string {
    match LowerStatus(status)
    case Some("pending") => "bg-warning text-dark glow-pulse"
    case Some("in_progress") => "bg-info text-dark glow-pulse"
    case Some("assigned") => "bg-primary text-light glow-pulse"
    case Some("completed") => "bg-success glow-soft"
    case Some("canceled") => "bg-danger glow-soft"
    case _ => DefaultStyle
  }

  /** A ride gets the default style exactly when the sort puts it last. */
  lemma DefaultStyleIffUnranked(status: Option<string>)
    ensures StatusStyle(status) == DefaultStyle <==> Rank(RiderPriority, status) == Unranked
  {
  }

  /** Each of the five ranked statuses has its own style: two ranked
      statuses share a style exactly when they lower-case to the same one. */
  lemma KnownStylesDistinct(s1: Option<string>, s2: Option<string>)
    requires Rank(RiderPriority, s1) != Unranked && Rank(RiderPriority, s2) != Unranked
    ensures StatusStyle(s1) == StatusStyle(s2) <==> LowerStatus(s1) == LowerStatus(s2)
  {
  }
}
