/** The documents of the taxi client's two collections, "rides" and "users",
    and the booking form data they are built from.

    JavaScript's `null` and an absent field are both `None`. A string field is
    truthy when present and non-empty; a numeric field when present and
    non-zero; an object field whenever it is present. */
module Rides {

  datatype Option<+T> = None | Some(value: T)

  /** Document ids of the "rides" collection. */
  type RideId = string

  /** Authentication principal ids; also the ids of the "users" collection. */
  type Uid = string

  // The status values the client writes or compares against. Any other
  // string in a ride's `status` field is an unknown status.
  const Pending := "pending"
  const Assigned := "assigned"
  const InProgress := "in_progress"
  const Completed := "completed"
  const Canceled := "canceled"

  /** JavaScript truthiness of an optional string. */
  predicate Truthy(s: Option<string>) {
    s.Some? && |s.value| > 0
  }

  /** JavaScript truthiness of an optional number. */
  predicate TruthyNumber(x: Option<real>) {
    x.Some? && x.value != 0.0
  }

  /** `s || null` for an optional string. */
  function StringOrNull(s: Option<string>): Option<string> {
    if Truthy(s) then s else None
  }

  /** `x || null` for an optional number. */
  function NumberOrNull(x: Option<real>): Option<real> {
    if TruthyNumber(x) then x else None
  }

  /** `s || fallback` for an optional string. */
  function StringOr(s: Option<string>, fallback: string): string {
    if Truthy(s) then s.value else fallback
  }

  /** The store's server-time placeholder (`serverTimestamp()`), resolved by
      the store to its own clock when the write commits. */
  datatype Timestamp = ServerTimestamp

  /** The part of a geocoder address the client inspects. */
  datatype AddressDetails = AddressDetails(countryCode: Option<string>)

  /** A location snapshot chosen from geocoder suggestions. */
  datatype Location = Location(
    address: Option<string>,
    lat: Option<real>,
    lng: Option<real>,
    addressDetails: Option<AddressDetails>)

  datatype Vehicle = Vehicle(model: Option<string>, number: Option<string>)

  /** A document of the "users" collection, as far as the client reads it. */
  datatype Profile = Profile(
    displayName: Option<string>,
    role: Option<string>,
    vehicle: Option<Vehicle>)

  datatype Dates = Dates(pickupDate: Option<string>, returnDate: Option<string>)

  datatype Meta = Meta(notes: string)

  /** A document of the "rides" collection. */
  datatype Ride = Ride(
    userId: Option<Uid>,
    rideType: Option<string>,
    pickup: Option<Location>,
    drop: Option<Location>,
    airport: Option<Location>,
    dates: Dates,
    time: Option<string>,
    estimatedKm: Option<real>,
    fare: Option<real>,
    status: Option<string>,
    driverId: Option<Uid>,
    driverName: Option<string>,
    vehicle: Option<Vehicle>,
    assignedAt: Option<Timestamp>,
    createdAt: Option<Timestamp>,
    meta: Meta)

  /** A query result entry: `{ id: d.id, ...d.data() }`. */
  datatype Doc = Doc(id: RideId, ride: Ride)

  /** What the booking forms hand to the validators and to the ride writer. */
  datatype Booking = Booking(
    rideType: Option<string>,
    tripType: Option<string>,
    pickup: Option<Location>,
    drop: Option<Location>,
    airport: Option<Location>,
    date: Option<string>,
    returnDate: Option<string>,
    time: Option<string>,
    estimatedKm: Option<real>,
    fare: Option<real>,
    notes: Option<string>)

  /** `{ success: true } | { success: false, error }`. */
  datatype Outcome = Success | Failure(error: string)

  /** A status that counts as holding the driver: assigned or in progress. */
  predicate ActiveStatus(s: Option<string>) {
    s == Some(Assigned) || s == Some(InProgress)
  }

  /** A ride that a driver currently holds. */
  predicate IsActive(r: Ride) {
    r.driverId.Some? && ActiveStatus(r.status)
  }

  /** Invariant I1 (consistency): a ride has a driver exactly when it is
      assigned, in progress or completed, except that a canceled ride may
      keep the driver it had. */
  predicate Consistent(r: Ride) {
    && (r.driverId.Some? ==> r.status in {Some(Assigned), Some(InProgress), Some(Completed), Some(Canceled)})
    && (r.status in {Some(Assigned), Some(InProgress), Some(Completed)} ==> r.driverId.Some?)
  }

  /** The forward steps of the ride state machine:
      pending -> assigned -> in_progress -> completed, and pending -> canceled. */
  predicate Forward(from: Option<string>, to: Option<string>) {
    || (from == Some(Pending) && to == Some(Assigned))
    || (from == Some(Assigned) && to == Some(InProgress))
    || (from == Some(InProgress) && to == Some(Completed))
    || (from == Some(Pending) && to == Some(Canceled))
  }
}
