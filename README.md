# Taxi booking client: ride protocol, booking, validation and ride lists

This project is a Dafny model of the logic in a React/Firestore taxi
booking client. Riders book rides. Drivers claim pending rides, start them,
complete them or release them. Three screens list rides sorted by status.

The model covers four parts:

- **Ride protocol** (`driver_service.dfy`).
  - The three driver operations are `claimRideTransaction`, `updateRideStatus` and `releaseRide`.
  - Each is an atomic method on a `Database` object that holds the "rides" and "users" collections.
  - Each method is proved equal to a pure outcome function (`ClaimResult`, `OwnerResult`) and a pure effect function (`ClaimEffect`, `UpdateEffect`, `ReleaseEffect`).
  - Lemmas state the error precedence, the frame ("nothing else changes") and two store invariants:
    - I1: a ride has a driver exactly when its status says so.
    - I2: each driver holds at most one assigned or in-progress ride.
  - Further lemmas cover sequences of operations: a second claim, and claim, release then claim again.
- **Booking writer** (`ride_service.dfy`). It builds the initial ride document (`NewRideDocument`), applying the source's defaulting rules, and inserts it under the store's new id (`SaveRideToFirestore`).
- **Booking validators** (`ride_validation.dfy`).
  - There are four methods. Each fills the error dictionary check by check, as the source does.
  - Each is proved against a predicate stating, for every error key, exactly when that key is present and with which message.
- **Ride lists** (`priority_sort.dfy`, `driver_dashboard.dfy`, `assigned_rides.dfy`, `my_rides.dfy`).
  - Each list is a visibility filter followed by a stable sort by a status-priority table. The lookup lower-cases the status, and an unknown status gets 99.
  - Lemmas prove that each list:
    - holds exactly the selected rides, each as often as in the input;
    - never decreases in priority;
    - keeps the query order within each priority.
  - Badges, styles and dashboard buttons are tied to the sort table and to the ride protocol.

JavaScript values are modelled explicitly:

- `null` and an absent field are both `None`.
- A string is truthy when present and non-empty.
- A number is truthy when present and non-zero.
- An object is truthy when present.

The environment becomes parameters:

- The signed-in principal is an `Option<Uid>`.
- The server timestamp is the constant `ServerTimestamp`.
- The new document id is an argument.
- The clock-dependent date checks are function-typed parameters (`future`, `earlier`).
- The haversine "same place" test is a boolean parameter (`nearlySame`).

## Model

| member | source | states |
|---|---|---|
| DriverService.ClaimedRide | client/src/driver/driverService.js:52-58 | the claimed ride has driverId = uid, status "assigned", driverName = displayName or "Unknown Driver", the profile's vehicle, assignedAt = server time; every other field is unchanged |
| DriverService.ClaimResult | client/src/driver/driverService.js:15-49 | one iff per outcome in check order: "Not logged in", "Ride not found", "Driver profile missing", "Ride already taken" (driverId truthy), "Ride not available" (status not pending), "You already have an active ride"; success exactly when all checks pass |
| Store.HasActiveRide | client/src/driver/driverService.js:40-47 | the active-ride query: some ride has driverId = uid and status "assigned" or "in_progress"; `ClaimResult` refuses exactly such drivers, and `ClaimPreservesSingleActive` and `NewRideClaimable` state what that buys |
| DriverService.ClaimEffect | client/src/driver/driverService.js:29-58 | the ride ids are kept and every other ride is unchanged; on any failure the rides map is unchanged; on success the target becomes `ClaimedRide` |
| DriverService.ClaimRideTransaction | client/src/driver/driverService.js:14-66 | the method returns `ClaimResult` of the old state, leaves the rides as `ClaimEffect` of the old state, and leaves the users unchanged |
| DriverService.OwnerResult | client/src/driver/driverService.js:72-83 | the checks shared by update and release (lines 72-83 and 97-108): "Not logged in", then "Ride not found", then "Not your ride" whenever driverId differs from the uid, null included; success iff signed in and owner |
| DriverService.UpdateEffect | client/src/driver/driverService.js:79-85 | on failure nothing changes; on success only the target's status changes, to exactly newStatus, from any prior status |
| DriverService.UpdateRideStatus | client/src/driver/driverService.js:71-91 | the method returns `OwnerResult` and leaves the rides as `UpdateEffect` of the old state; users are unchanged |
| DriverService.ReleaseEffect | client/src/driver/driverService.js:104-110 | on failure nothing changes; on success the target gets driverId null and status "pending" from any status, and keeps driverName, vehicle, assignedAt and the rest |
| DriverService.ReleaseRide | client/src/driver/driverService.js:96-116 | the method returns `OwnerResult` and leaves the rides as `ReleaseEffect` of the old state; users are unchanged |
| DriverService.ClaimPreservesSingleActive | client/src/driver/driverService.js:40-58 | the claim keeps I2, because the active-ride check refuses a driver who already holds a ride |
| DriverService.ClaimPreservesConsistent | client/src/driver/driverService.js:36-58 | the claim keeps I1: only a pending, driverless ride becomes assigned with a driver |
| DriverService.ReleasePreservesSingleActive | client/src/driver/driverService.js:110 | the release keeps I2 |
| DriverService.ReleasePreservesConsistent | client/src/driver/driverService.js:110 | the release keeps I1 |
| DriverService.UpdatePreservesSingleActive | client/src/driver/driverService.js:85 | the status update keeps I2 when it does not newly make a ride active |
| DriverService.UpdatePreservesConsistent | client/src/driver/driverService.js:85 | the status update keeps I1 when the new status is assigned, in_progress, completed or canceled |
| DriverService.UpdateCanBreakSingleActive | client/src/driver/driverService.js:83-85 | counterexample: the owner of a completed ride who holds another assigned ride can set the first back to "assigned" and then holds two rides |
| DriverService.UpdateCanBreakConsistent | client/src/driver/driverService.js:83-85 | counterexample: the owner can set "pending" on an assigned ride that keeps its driver |
| DriverService.SecondClaimFails | client/src/driver/driverService.js:36 | after a successful claim, every claim of the same ride fails, with "Ride already taken" for any signed-in driver with a profile |
| DriverService.ClaimReleaseClaim | client/src/driver/driverService.js:36-58 | claim by A, release by A (line 110), claim by B: B's claim succeeds when B has a profile and no active ride, and the ride ends exactly as if B had claimed it first |
| DriverService.Scenario | client/src/driver/driverService.js:14-91 | A claims; B is refused with "Ride already taken"; A starts; C gets "Not your ride"; A completes |
| RideService.NewRideDocument | client/src/pages/BookRide/RideService.js:13-34 | status "pending"; driverId, driverName and assignedAt null; userId = uid; createdAt = server time; rideType defaults to "unknown"; date, returnDate, time, fare and estimatedKm are null exactly when falsy (a fare of 0 becomes null) and otherwise copied; notes default to "" |
| RideService.SaveRideToFirestore | client/src/pages/BookRide/RideService.js:5-44 | with no user it fails with "User not logged in" and inserts nothing; otherwise it returns the new id and the rides become the old rides plus `NewRideDocument` under that id |
| RideService.SaveKeepsStore | client/src/pages/BookRide/RideService.js:36-39 | saving adds exactly one entry under a fresh id, leaves every other entry unchanged, and keeps I1 and I2 |
| RideService.NewRideClaimable | client/src/pages/BookRide/RideService.js:26-29 | a freshly saved ride can be claimed by a driver exactly when that driver is signed in, has a profile and holds no active ride |
| RideValidation.KeyInjective | client/src/pages/BookRide/RideValidation.js:13-115 | the twelve error keys the validators set ("tripType", "pickup", …, "returnDate") are pairwise distinct, so a dictionary keyed by field is the error object keyed by those strings |
| RideValidation.FutureDatetime | client/src/pages/BookRide/RideValidation.js:4-8 | `isFutureDatetime`, and the negation of the `new Date(...)` test at lines 69-70 and 108-109: false whenever date or time is missing or empty, otherwise the clock parameter; `MissingDateOrTimeReportedTwice` states its effect on the local and airport errors |
| RideValidation.ValidateOneWay | client/src/pages/BookRide/RideValidation.js:11-34 | `pickup`/`drop` are present iff the address is missing; `same` iff both latitudes are truthy and the points are nearly the same; `datetime` iff the pickup is not in the future; `pickupCountry`/`dropCountry` iff addressDetails is present with a code other than "in"; the messages are fixed and no other key appears |
| RideValidation.CheckOneWayTimeAndCountry | client/src/pages/BookRide/RideValidation.js:25-32 | given a dictionary that already reports the address and same-place checks, it adds exactly the `datetime`, `pickupCountry` and `dropCountry` entries of the one-way description |
| RideValidation.ValidateRoundTrip | client/src/pages/BookRide/RideValidation.js:36-45 | apart from `returnDate`, the one-way errors; `returnDate` is present iff the return date is missing or, both dates present, earlier than the pickup date; "Return date required" when missing, otherwise "Return date must be same or after pickup date" |
| RideValidation.ValidateLocal | client/src/pages/BookRide/RideValidation.js:59-79 | `city` iff no pickup address; `date`/`time` iff missing; `datetime` iff not in the future; `cityCountry` iff the country code is not "in", including when addressDetails is absent |
| RideValidation.CheckLocalTimeAndCountry | client/src/pages/BookRide/RideValidation.js:69-76 | given a dictionary that already reports `city`, `date` and `time`, it adds exactly the `datetime` and `cityCountry` entries of the local description |
| RideValidation.ValidateAirport | client/src/pages/BookRide/RideValidation.js:95-119 | `tripType` iff the trip type is falsy; `pickup`/`drop` iff the address is missing; `date`/`time` iff missing; `datetime` iff not in the future; `pickupCountry` iff the code is not "in", including when addressDetails is absent; the drop's country is never checked |
| RideValidation.CheckAirportTimeAndCountry | client/src/pages/BookRide/RideValidation.js:104-116 | given a dictionary that already reports `tripType`, `pickup` and `drop`, it adds exactly the `date`, `time`, `datetime` and `pickupCountry` entries of the airport description |
| RideValidation.OneWayErrorsUnique | client/src/pages/BookRide/RideValidation.js:11-34 | the one-way description determines the error dictionary completely |
| RideValidation.LocalErrorsUnique | client/src/pages/BookRide/RideValidation.js:59-79 | the local description determines the error dictionary completely |
| RideValidation.AirportErrorsUnique | client/src/pages/BookRide/RideValidation.js:95-119 | the airport description determines the error dictionary completely |
| RideValidation.MissingDateOrTimeReportedTwice | client/src/pages/BookRide/RideValidation.js:66-71 | in the local and airport validators, a missing date yields the `date` error "Date is required", a missing time the `time` error "Time is required", and either one also yields `datetime` (lines 104-111 for airport) |
| RideValidation.CountryChecksDiffer | client/src/pages/BookRide/RideValidation.js:27-116 | for a pickup without addressDetails, the one-way validator raises no country error, while local and airport do; airport never raises a drop-country error |
| RideValidation.ZeroLatitudeSkipsSame | client/src/pages/BookRide/RideValidation.js:16-23 | a latitude of 0 on either end skips the same-place check |
| PrioritySort.Lower | client/src/driver/DriverDashboard.jsx:33 | `toLowerCase` keeps the length and maps A-Z to a-z character by character |
| PrioritySort.Rank | client/src/driver/DriverDashboard.jsx:33-34 | the priority is the table entry for the lower-cased status; a missing status, an unlisted status or a 0 entry gives 99 |
| PrioritySort.RankIgnoresCase | client/src/driver/DriverDashboard.jsx:33-34 | the priority of a status equals that of its lower-cased form |
| PrioritySort.SortByPriority | client/src/driver/DriverDashboard.jsx:32-36 | `sort` with the comparator `rank(a) - rank(b)`, stable; `SortPermutation`, `SortOrdered` and `SortStable` state that it is a permutation, ordered and stable |
| PrioritySort.Select | client/src/driver/DriverDashboard.jsx:19-22 | `filter`; `SelectMembers` and `WithRankSelect` state which rides it keeps and that it keeps their order |
| PrioritySort.SortInPlace | client/src/driver/DriverDashboard.jsx:32-36 | the in-place sort leaves the array holding the stable priority sort of its old contents |
| PrioritySort.InsertPermutation | client/src/driver/DriverDashboard.jsx:32-36 | one insertion step adds exactly the inserted ride |
| PrioritySort.SortPermutation | client/src/driver/DriverDashboard.jsx:32-36 | the sort is a permutation of its input (multiset equality) |
| PrioritySort.InsertOrdered | client/src/driver/DriverDashboard.jsx:32-36 | inserting a ride into a priority-ordered list keeps it ordered |
| PrioritySort.SortOrdered | client/src/driver/DriverDashboard.jsx:32-36 | priorities never decrease along the sorted list |
| PrioritySort.InsertStable | client/src/driver/DriverDashboard.jsx:32-36 | an inserted ride lands before every ride of its own priority |
| PrioritySort.SortStable | client/src/driver/DriverDashboard.jsx:32-36 | within each priority, the sorted list keeps the input order |
| PrioritySort.SelectMembers | client/src/driver/DriverDashboard.jsx:19-22 | the filter keeps exactly the rides satisfying the predicate, each exactly as often as in the input, and no other ride |
| PrioritySort.WithRankSelect | client/src/driver/DriverDashboard.jsx:19-36 | filtering and taking the rides of one priority commute |
| PrioritySort.SortedSelection | client/src/driver/DriverDashboard.jsx:19-36 | a filtered and sorted list is a permutation of the filtered rides and holds exactly the selected ones; priorities are non-decreasing; each priority keeps the query order |
| DriverDashboard.Visible | client/src/driver/DriverDashboard.jsx:19-22 | a ride is visible when it is pending with a falsy driverId, or is the driver's own; `DashboardList` and `ReleaseButtonIffOwner` use it |
| DriverDashboard.Dashboard | client/src/driver/DriverDashboard.jsx:10-40 | the dashboard state after a snapshot; `DashboardList` states its contents, order, stability and the no-uid case |
| DriverDashboard.DashboardList | client/src/driver/DriverDashboard.jsx:10-40 | with no uid, nothing is subscribed and the dashboard stays empty and loading; otherwise, with pending=1, assigned=2, in_progress=3, completed=4, it shows exactly the rides that are pending and driverless or the driver's own, sorted and stable as in `SortedSelection` |
| DriverDashboard.StatusBadge | client/src/driver/DriverDashboard.jsx:65-78 | `getStatusBadge`: pending, assigned, in_progress and completed (case-insensitive) get their own badge, anything else "Unknown"; `BadgeKnownIffRanked` ties it to the sort table |
| DriverDashboard.BadgeKnownIffRanked | client/src/driver/DriverDashboard.jsx:65-78 | the badge names a status exactly when the dashboard's sort gives it a priority other than 99 |
| DriverDashboard.ShowAccept | client/src/driver/DriverDashboard.jsx:140-147 | Accept is rendered on every pending ride; `AcceptOutcome` states the claim it triggers |
| DriverDashboard.ShowStart | client/src/driver/DriverDashboard.jsx:149-157 | Start is rendered on the driver's own assigned rides; `StartButtonSound` states the update it triggers |
| DriverDashboard.ShowComplete | client/src/driver/DriverDashboard.jsx:159-167 | Complete is rendered on the driver's own in-progress rides; `CompleteButtonSound` states the update it triggers |
| DriverDashboard.ShowRelease | client/src/driver/DriverDashboard.jsx:169-176 | Release is rendered on every ride the driver holds; `ReleaseButtonIffOwner` states the release it triggers |
| DriverDashboard.AcceptOutcome | client/src/driver/DriverDashboard.jsx:140-147 | Accept, shown on every visible pending ride without looking at driverId, claims successfully unless the ride is already the driver's own ("Ride already taken") or the driver holds an active ride |
| DriverDashboard.StartButtonSound | client/src/driver/DriverDashboard.jsx:149-157 | Start is shown only where `updateRideStatus(id, "in_progress")` succeeds; it is a forward step and keeps I1 and I2 |
| DriverDashboard.CompleteButtonSound | client/src/driver/DriverDashboard.jsx:159-167 | Complete is shown only where `updateRideStatus(id, "completed")` succeeds; it is a forward step and keeps I1 and I2 |
| DriverDashboard.ReleaseButtonIffOwner | client/src/driver/DriverDashboard.jsx:169-176 | Release is shown exactly where the release succeeds, whatever the status, and only on visible rides |
| AssignedRides.HeldBy | client/src/driver/AssignedRides.jsx:13 | the query's `where("driverId", "==", uid)`; `AssignedListSorted` states what it selects |
| AssignedRides.AssignedList | client/src/driver/AssignedRides.jsx:8-37 | the list after a snapshot; `AssignedListSorted` states its contents, order, stability and the no-uid case |
| AssignedRides.AssignedListSorted | client/src/driver/AssignedRides.jsx:8-37 | exactly the rides with driverId = uid, as a permutation of that query result; non-decreasing under in_progress=1, assigned=2, pending=3, completed=4, canceled=5, else 99; the createdAt-descending order is kept within each priority; empty with no uid |
| AssignedRides.StatusBadge | client/src/driver/AssignedRides.jsx:39-52 | `getStatusBadge` with no pending case: assigned, in_progress, completed and canceled get their own badge, anything else "Unknown"; `BadgeKnownIffRankedButPending` ties it to the sort table |
| AssignedRides.BadgeKnownIffRankedButPending | client/src/driver/AssignedRides.jsx:39-52 | the badge names a status exactly when the sort ranks it, minus pending: a pending ride ranks 3 but gets the "Unknown" badge |
| MyRides.BookedBy | client/src/pages/MyRides.js:14 | the query's `where("userId", "==", user.uid)`; `FetchRidesSorted` states what it selects |
| MyRides.FetchRides | client/src/pages/MyRides.js:9-38 | the list once the fetch returns; `FetchRidesSorted` states its contents, order, stability and the no-user case |
| MyRides.FetchRidesSorted | client/src/pages/MyRides.js:9-38 | with no user, empty with loading false; otherwise exactly the rides with userId = uid, as a permutation; non-decreasing under pending=1, in_progress=2, assigned=3, completed=4, canceled=5, else 99; the fetch order is kept within each priority |
| MyRides.StatusStyle | client/src/pages/MyRides.js:48-63 | `getStatusStyle`: five case-insensitive statuses get their own class, anything else "bg-secondary"; `DefaultStyleIffUnranked` and `KnownStylesDistinct` state this |
| MyRides.DefaultStyleIffUnranked | client/src/pages/MyRides.js:48-63 | the style is "bg-secondary" exactly when the sort ranks the status 99 |
| MyRides.KnownStylesDistinct | client/src/pages/MyRides.js:48-63 | two statuses the sort ranks share a style exactly when they lower-case to the same status: each of the five known statuses has its own class string |

## Left out

- Firestore, its transactions, `onSnapshot` and `getDocs`, and Firebase Auth. The store is a `Database` object with two maps, and the current principal is an argument. Each operation is one atomic sequential step.
- Concurrency. In `claimRideTransaction` the active-ride query (driverService.js:40-46) runs through `getDocs`, outside the transaction's read set. The model answers it from the same state as the other reads, so I2 is proved only for sequential runs. Two concurrent claims by one driver are not covered.
- ClaimResult: transaction retries and transient store errors (which would surface as other error messages) are not modelled.
- The active-ride query is `limit(1)`; only whether it returns a document matters, so the model asks whether one exists.
- The claim does not check that the profile's role is "driver". The model follows the code: any "users" document passes the profile check. The profile fields the ride protocol never reads (`available`, `completedRides`, `rating`, which only the driver profile page shows and toggles) are left out. In particular `claimRideTransaction` ignores `available`: a driver marked unavailable can still claim a ride, and the model follows the code in this.
- OwnerResult, UpdateRideStatus, ReleaseRide: a failing transaction returns `{success: false, error: err.message}` carrying the store's own message (driverService.js:88-90, 113-115). Store failures are not modelled, so these outcomes model only the three messages the code throws itself.
- ClaimResult, OwnerResult, ClaimRideTransaction, UpdateRideStatus, ReleaseRide: `doc(db, "rides", rideId)` is evaluated before the `try` (driverService.js:18, 75, 100). An empty id, or one containing "/", therefore rejects the returned promise instead of returning "Ride not found". The model treats every id as a valid document path.
- FetchRides: a failing `getDocs` (MyRides.js:15) rejects inside the effect and leaves `loading` true. The model assumes the fetch returns a snapshot.
- SaveRideToFirestore: the freshness of the id `addDoc` generates is taken as the store's guarantee (a `requires`), and store failures after the user check are not modelled.
- JavaScript `null` and `undefined` are both `None`. Numeric fields are reals, and NaN is not modelled. The local form stores its kilometre input as the raw string `e.target.value` (client/src/pages/BookRide/LocalForm.jsx:185), so `estimatedKm` can reach `saveRideToFirestore` as a string such as "0", which is truthy and kept; the model treats `estimatedKm` as a number, for which 0 becomes null.
- `toLowerCase` is modelled on ASCII letters only. This does not change any rank or badge: the only non-ASCII character that lowercases to an ASCII letter, the Kelvin sign, becomes 'k', and no table key contains 'k'.
- A status such as "constructor" finds an inherited property in the JavaScript priority object, and the comparator then returns NaN. The model gives such statuses priority 99.
- The views are modelled from the moment a snapshot arrives. Subscriptions, unsubscribe, re-rendering and what the dashboard buttons do after the user signs out mid-session are left out.
- The dashboard's alert on failure, the card layout and the "glow" class are presentation only.
- The clock. `isFutureDatetime`, the `new Date(...)` checks in the local and airport validators and the date comparison in the round-trip validator are function-typed parameters.
  - Missing or empty date or time strings are handled explicitly, because they make the constructed date invalid.
- ValidateOneWay, ValidateRoundTrip, ValidateLocal, ValidateAirport: the error object's key insertion order is not modelled. The forms list `Object.values(errors)` in that order (OneWayForm.jsx:248, RoundTripForm.jsx:268, AirportForm.jsx:254, LocalForm.jsx:197), which is the check order. In `validateRoundTrip` an overwritten `returnDate` keeps the slot of its first insertion. The model's error dictionary is an unordered map: it fixes which keys appear and with which messages, not the order the messages are displayed in.
- The haversine distance of `client/src/utils/geo.js` and the fare arithmetic of the booking forms are floating point. The "same place" test is a boolean parameter.
- Nominatim geocoding, routing and the pure UI components.
- Two small rules in the booking forms, which live inside React effects: the airport form's pickup/drop swap and the local form's city fallback.
- The legacy, unrouted `client/src/pages/BookRide.js`.
