/** The booking validators: each fills an error dictionary, field name to
    message, one check after another.

    The wall clock and the date parser are parameters:
    - `future(date, time)` holds when "<date>T<time>" parses to an instant
      after the current time;
    - `earlier(a, b)` holds when `a` and `b` both parse as dates and `a` is
      strictly before `b` (a comparison with an invalid date is false);
    - `nearlySame` is whether the road-adjusted haversine distance between
      pickup and drop is below 0.1 km.

    Each validator is described by a predicate saying, for every field,
    whether its error is present and with which message. The predicate takes
    the number of checks run so far, so that a validator can hand its later
    checks to a helper. */
module RideValidation {
  import opened Rides

  /** The keys a validator may set in its error dictionary. */
  datatype Field =
    | TripType | Pickup | Drop | Same | Date | Time | Datetime
    | PickupCountry | DropCountry | City | CityCountry | ReturnDate

  /** The dictionary key of each field. */
  function Key(f: Field): string {
    match f
    case TripType => "tripType"
    case Pickup => "pickup"
    case Drop => "drop"
    case Same => "same"
    case Date => "date"
    case Time => "time"
    case Datetime => "datetime"
    case PickupCountry => "pickupCountry"
    case DropCountry => "dropCountry"
    case City => "city"
    case CityCountry => "cityCountry"
    case ReturnDate => "returnDate"
  }

  /** Distinct fields have distinct keys, so a map over fields stands for
      the JavaScript error object keyed by those strings. */
  lemma KeyInjective(f: Field, g: Field)
    ensures Key(f) == Key(g) <==> f == g
  {
  }

  /** An error dictionary, field to message. */
  type Errors = map<Field, string>

  // The messages of the validators.
  const PickupLocationRequired := "Pickup location required"
  const DropLocationRequired := "Drop location required"
  const SamePlace := "Pickup and drop cannot be the same location"
  const NotInFuture := "Pickup date/time must be in the future"
  const PickupNotInIndia := "Pickup must be in India"
  const DropNotInIndia := "Drop must be in India"
  const CityRequired := "Pickup city is required"
  const DateRequired := "Date is required"
  const TimeRequired := "Time is required"
  const NotFuture := "Pickup date/time must be future"
  const CityNotInIndia := "City must be in India"
  const TripTypeRequired := "Trip type is required"
  const PickupRequired := "Pickup location is required"
  const AirportRequired := "Airport location is required"
  const PickupOutsideIndia := "Pickup must be inside India"
  const ReturnDateRequired := "Return date required"
  const ReturnBeforePickup := "Return date must be same or after pickup date"

  /** `errors` holds an error for `f` exactly when `failed`, and then `message`. */
  predicate Reported(errors: Errors, f: Field, failed: bool, message: string) {
    (f in errors <==> failed) && (f in errors ==> errors[f] == message)
  }

  /** `isFutureDatetime(date, time)`; also the negation of
      `isNaN(dt.getTime()) || dt <= new Date()` for
      `dt = new Date(`${date}T${time}`)`, since a missing or empty date or
      time makes that string unparsable. */
  predicate FutureDatetime(future: (string, string) -> bool, date: Option<string>, time: Option<string>) {
    Truthy(date) && Truthy(time) && future(date.value, time.value)
  }

  /** `loc?.address` is truthy. */
  predicate HasAddress(loc: Option<Location>) {
    loc.Some? && Truthy(loc.value.address)
  }

  /** `loc?.lat` is truthy: present and not 0. */
  predicate HasLatitude(loc: Option<Location>) {
    loc.Some? && TruthyNumber(loc.value.lat)
  }

  /** `loc?.addressDetails && loc.addressDetails.country_code !== "in"`. */
  predicate ForeignDetails(loc: Option<Location>) {
    loc.Some? && loc.value.addressDetails.Some?
    && loc.value.addressDetails.value.countryCode != Some("in")
  }

  /** `loc?.addressDetails?.country_code === "in"`. */
  predicate IndianDetails(loc: Option<Location>) {
    loc.Some? && loc.value.addressDetails.Some?
    && loc.value.addressDetails.value.countryCode == Some("in")
  }

  // ---------------------------------------------------------------------
  // One-way and round trip

  /** `errors` as `validateOneWay(data)` leaves it after its first `n` checks. */
  predicate OneWayChecked(n: nat, errors: Errors, data: Booking,
                          future: (string, string) -> bool, nearlySame: bool) {
    && Reported(errors, Pickup, n >= 1 && !HasAddress(data.pickup), PickupLocationRequired)
    && Reported(errors, Drop, n >= 2 && !HasAddress(data.drop), DropLocationRequired)
    && Reported(errors, Same, n >= 3 && HasLatitude(data.pickup) && HasLatitude(data.drop) && nearlySame,
                SamePlace)
    && Reported(errors, Datetime, n >= 4 && !FutureDatetime(future, data.date, data.time),
                NotInFuture)
    && Reported(errors, PickupCountry, n >= 5 && ForeignDetails(data.pickup), PickupNotInIndia)
    && Reported(errors, DropCountry, n >= 6 && ForeignDetails(data.drop), DropNotInIndia)
    && TripType !in errors && Date !in errors && Time !in errors
    && City !in errors && CityCountry !in errors && ReturnDate !in errors
  }

  /** `errors` is what `validateOneWay(data)` returns. */
  predicate OneWayErrorsAre(errors: Errors, data: Booking, future: (string, string) -> bool,
                            nearlySame: bool) {
    OneWayChecked(6, errors, data, future, nearlySame)
  }

  method ValidateOneWay(data: Booking, future: (string, string) -> bool, nearlySame: bool)
    returns (errors: Errors)
    ensures OneWayErrorsAre(errors, data, future, nearlySame)
  {
    errors := map[];
    if !HasAddress(data.pickup) {
      errors := errors[Pickup := PickupLocationRequired];
    }
    if !HasAddress(data.drop) {
      errors := errors[Drop := DropLocationRequired];
    }
    if HasLatitude(data.pickup) && HasLatitude(data.drop) {
      if nearlySame {
        errors := errors[Same := SamePlace];
      }
    }
    errors := CheckOneWayTimeAndCountry(errors, data, future, nearlySame);
  }

  /** The date/time and country checks of `validateOneWay`. */
  method CheckOneWayTimeAndCountry(errors0: Errors, data: Booking,
                                   future: (string, string) -> bool, nearlySame: bool)
    returns (errors: Errors)
    requires OneWayChecked(3, errors0, data, future, nearlySame)
    ensures OneWayChecked(6, errors, data, future, nearlySame)
  {
    errors := errors0;
    if !FutureDatetime(future, data.date, data.time) {
      errors := errors[Datetime := NotInFuture];
    }
    if ForeignDetails(data.pickup) {
      errors := errors[PickupCountry := PickupNotInIndia];
    }
    if ForeignDetails(data.drop) {
      errors := errors[DropCountry := DropNotInIndia];
    }
  }

  /** The one-way errors, plus a `returnDate` error when the return date is
      missing or, both dates present, before the pickup date. */
  method ValidateRoundTrip(data: Booking, future: (string, string) -> bool,
                           earlier: (string, string) -> bool, nearlySame: bool)
    returns (errors: Errors)
    ensures OneWayErrorsAre(errors - {ReturnDate}, data, future, nearlySame)
    ensures ReturnDate in errors <==>
              !Truthy(data.returnDate)
              || (Truthy(data.date) && earlier(data.returnDate.value, data.date.value))
    ensures !Truthy(data.returnDate) ==> errors[ReturnDate] == ReturnDateRequired
    ensures Truthy(data.returnDate) && Truthy(data.date) && earlier(data.returnDate.value, data.date.value)
            ==> errors[ReturnDate] == ReturnBeforePickup
  {
    errors := ValidateOneWay(data, future, nearlySame);
    ghost var oneWay := errors;
    if !Truthy(data.returnDate) {
      errors := errors[ReturnDate := ReturnDateRequired];
    }
    if Truthy(data.date) && Truthy(data.returnDate) {
      if earlier(data.returnDate.value, data.date.value) {
        errors := errors[ReturnDate := ReturnBeforePickup];
      }
    }
    assert errors - {ReturnDate} == oneWay;
  }

  // ---------------------------------------------------------------------
  // Local

  /** `errors` as `validateLocal(data)` leaves it after its first `n` checks. */
  predicate LocalChecked(n: nat, errors: Errors, data: Booking, future: (string, string) -> bool) {
    && Reported(errors, City, n >= 1 && !HasAddress(data.pickup), CityRequired)
    && Reported(errors, Date, n >= 2 && !Truthy(data.date), DateRequired)
    && Reported(errors, Time, n >= 3 && !Truthy(data.time), TimeRequired)
    && Reported(errors, Datetime, n >= 4 && !FutureDatetime(future, data.date, data.time),
                NotFuture)
    && Reported(errors, CityCountry, n >= 5 && !IndianDetails(data.pickup), CityNotInIndia)
    && TripType !in errors && Pickup !in errors && Drop !in errors && Same !in errors
    && PickupCountry !in errors && DropCountry !in errors && ReturnDate !in errors
  }

  /** `errors` is what `validateLocal(data)` returns. */
  predicate LocalErrorsAre(errors: Errors, data: Booking, future: (string, string) -> bool) {
    LocalChecked(5, errors, data, future)
  }

  method ValidateLocal(data: Booking, future: (string, string) -> bool) returns (errors: Errors)
    ensures LocalErrorsAre(errors, data, future)
  {
    errors := map[];
    if !HasAddress(data.pickup) {
      errors := errors[City := CityRequired];
    }
    if !Truthy(data.date) {
      errors := errors[Date := DateRequired];
    }
    if !Truthy(data.time) {
      errors := errors[Time := TimeRequired];
    }
    errors := CheckLocalTimeAndCountry(errors, data, future);
  }

  /** The date/time and country checks of `validateLocal`. */
  method CheckLocalTimeAndCountry(errors0: Errors, data: Booking, future: (string, string) -> bool)
    returns (errors: Errors)
    requires LocalChecked(3, errors0, data, future)
    ensures LocalChecked(5, errors, data, future)
  {
    errors := errors0;
    if !FutureDatetime(future, data.date, data.time) {
      errors := errors[Datetime := NotFuture];
    }
    if !IndianDetails(data.pickup) {
      errors := errors[CityCountry := CityNotInIndia];
    }
  }

  // ---------------------------------------------------------------------
  // Airport

  /** `errors` as `validateAirport(data)` leaves it after its first `n` checks. */
  predicate AirportChecked(n: nat, errors: Errors, data: Booking, future: (string, string) -> bool) {
    && Reported(errors, TripType, n >= 1 && !Truthy(data.tripType), TripTypeRequired)
    && Reported(errors, Pickup, n >= 2 && !HasAddress(data.pickup), PickupRequired)
    && Reported(errors, Drop, n >= 3 && !HasAddress(data.drop), AirportRequired)
    && Reported(errors, Date, n >= 4 && !Truthy(data.date), DateRequired)
    && Reported(errors, Time, n >= 5 && !Truthy(data.time), TimeRequired)
    && Reported(errors, Datetime, n >= 6 && !FutureDatetime(future, data.date, data.time),
                NotInFuture)
    && Reported(errors, PickupCountry, n >= 7 && !IndianDetails(data.pickup), PickupOutsideIndia)
    && Same !in errors && DropCountry !in errors && City !in errors
    && CityCountry !in errors && ReturnDate !in errors
  }

  /** `errors` is what `validateAirport(data)` returns. */
  predicate AirportErrorsAre(errors: Errors, data: Booking, future: (string, string) -> bool) {
    AirportChecked(7, errors, data, future)
  }

  method ValidateAirport(data: Booking, future: (string, string) -> bool) returns (errors: Errors)
    ensures AirportErrorsAre(errors, data, future)
  {
    errors := map[];
    if !Truthy(data.tripType) {
      errors := errors[TripType := TripTypeRequired];
    }
    if !HasAddress(data.pickup) {
      errors := errors[Pickup := PickupRequired];
    }
    if !HasAddress(data.drop) {
      errors := errors[Drop := AirportRequired];
    }
    errors := CheckAirportTimeAndCountry(errors, data, future);
  }

  /** The date, time and country checks of `validateAirport`. */
  method CheckAirportTimeAndCountry(errors0: Errors, data: Booking, future: (string, string) -> bool)
    returns (errors: Errors)
    requires AirportChecked(3, errors0, data, future)
    ensures AirportChecked(7, errors, data, future)
  {
    errors := errors0;
    if !Truthy(data.date) {
      errors := errors[Date := DateRequired];
    }
    if !Truthy(data.time) {
      errors := errors[Time := TimeRequired];
    }
    if !FutureDatetime(future, data.date, data.time) {
      errors := errors[Datetime := NotInFuture];
    }
    if !IndianDetails(data.pickup) {
      errors := errors[PickupCountry := PickupOutsideIndia];
    }
  }

  // ---------------------------------------------------------------------
  // Lemmas

  lemma FieldCases(f: Field)
    ensures || f == TripType || f == Pickup || f == Drop || f == Same || f == Date || f == Time
            || f == Datetime || f == PickupCountry || f == DropCountry || f == City
            || f == CityCountry || f == ReturnDate
  {
  }

  /** Each description fixes the dictionary: a validator has one answer. */
  lemma OneWayErrorsUnique(e1: Errors, e2: Errors, data: Booking,
                           future: (string, string) -> bool, nearlySame: bool)
    requires OneWayErrorsAre(e1, data, future, nearlySame)
    requires OneWayErrorsAre(e2, data, future, nearlySame)
    ensures e1 == e2
  {
    forall f ensures (f in e1 <==> f in e2) && (f in e1 ==> e1[f] == e2[f]) {
      FieldCases(f);
    }
    assert e1.Keys == e2.Keys;
  }

  lemma LocalErrorsUnique(e1: Errors, e2: Errors, data: Booking, future: (string, string) -> bool)
    requires LocalErrorsAre(e1, data, future) && LocalErrorsAre(e2, data, future)
    ensures e1 == e2
  {
    forall f ensures (f in e1 <==> f in e2) && (f in e1 ==> e1[f] == e2[f]) {
      FieldCases(f);
    }
    assert e1.Keys == e2.Keys;
  }

  lemma AirportErrorsUnique(e1: Errors, e2: Errors, data: Booking, future: (string, string) -> bool)
    requires AirportErrorsAre(e1, data, future) && AirportErrorsAre(e2, data, future)
    ensures e1 == e2
  {
    forall f ensures (f in e1 <==> f in e2) && (f in e1 ==> e1[f] == e2[f]) {
      FieldCases(f);
    }
    assert e1.Keys == e2.Keys;
  }

  /** A missing date or time is reported twice by the local and airport
      validators: as missing, and as a date/time not in the future. */
  lemma MissingDateOrTimeReportedTwice(data: Booking, future: (string, string) -> bool,
                                       local: Errors, airport: Errors)
    requires LocalErrorsAre(local, data, future) && AirportErrorsAre(airport, data, future)
    requires !Truthy(data.date) || !Truthy(data.time)
    ensures Datetime in local && Datetime in airport
    ensures !Truthy(data.date) ==> Date in local && Date in airport
    ensures !Truthy(data.time) ==> Time in local && Time in airport
    ensures !Truthy(data.date) ==> local[Date] == DateRequired && airport[Date] == DateRequired
    ensures !Truthy(data.time) ==> local[Time] == TimeRequired && airport[Time] == TimeRequired
  {
  }

  /** The three country checks differ on a pickup with no address details:
      one-way lets it pass, local and airport reject it. Airport never looks
      at the drop's country, one-way does. */
  lemma CountryChecksDiffer(data: Booking, future: (string, string) -> bool, nearlySame: bool,
                            oneWay: Errors, local: Errors, airport: Errors)
    requires OneWayErrorsAre(oneWay, data, future, nearlySame)
    requires LocalErrorsAre(local, data, future) && AirportErrorsAre(airport, data, future)
    requires data.pickup.Some? && data.pickup.value.addressDetails.None?
    ensures PickupCountry !in oneWay
    ensures CityCountry in local && PickupCountry in airport
    ensures DropCountry !in airport
  {
  }

  /** A latitude of 0 skips the same-place check. */
  lemma ZeroLatitudeSkipsSame(data: Booking, future: (string, string) -> bool, nearlySame: bool,
                              errors: Errors)
    requires OneWayErrorsAre(errors, data, future, nearlySame)
    requires (data.pickup.Some? && data.pickup.value.lat == Some(0.0))
             || (data.drop.Some? && data.drop.value.lat == Some(0.0))
    ensures Same !in errors
  {
  }
}
