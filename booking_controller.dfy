/**
 * The booking engine of server/controllers/bookingController.js: the overlap
 * test against the booking store, the availability search, booking creation,
 * the two listings and the owner's status change.
 */
module BookingController {
  import opened Wrappers
  import opened Seqs
  import opened Models

  /**
   * A date field of a request body: absent or empty (falsy), present but not
   * a date (`new Date(x)` is NaN), or a parsed instant in milliseconds.
   */
  datatype DateField = Missing | Unparsable | At(ms: int)

  /** The closed ranges [a1, a2] and [b1, b2] share at least one instant. */
  predicate Overlap(a1: int, a2: int, b1: int, b2: int)
  {
    a1 <= b2 && b1 <= a2
  }

  /** The store query of `checkAvailability`: a booking of `carId` with `pickupDate <= ret` and `returnDate >= pickup`. */
  predicate Blocks(b: Booking, carId: Id, pickup: int, ret: int)
  {
    b.car == carId && b.pickupDate <= ret && b.returnDate >= pickup
  }

  /** The bookings `Booking.find` returns in `checkAvailability`, in store order. */
  function Conflicts(bookings: seq<Booking>, carId: Id, pickup: int, ret: int): seq<Booking>
  {
    Filter(bookings, (b: Booking) => Blocks(b, carId, pickup, ret))
  }

  /**
   * `checkAvailability`: the car is free when no booking of it overlaps the
   * closed range [pickup, ret]. Touching an end point is a conflict, and the
   * status of a booking is not consulted.
   */
  function CheckAvailability(bookings: seq<Booking>, carId: Id, pickup: int, ret: int): (free: bool)
    ensures free <==> forall i :: 0 <= i < |bookings| ==>
      !(bookings[i].car == carId && Overlap(bookings[i].pickupDate, bookings[i].returnDate, pickup, ret))
  {
    var c := Conflicts(bookings, carId, pickup, ret);
    assert c != [] ==> c[0] in bookings;
    |c| == 0
  }

  /** Overlap does not depend on which range is the existing one. */
  lemma OverlapSymmetric(a1: int, a2: int, b1: int, b2: int)
    ensures Overlap(a1, a2, b1, b2) <==> Overlap(b1, b2, a1, a2)
  {
  }

  /** Inserting or removing a booking of another car changes nothing about a car's conflicts. */
  lemma OtherCarsIrrelevant(before: seq<Booking>, b: Booking, after: seq<Booking>, carId: Id, pickup: int, ret: int)
    requires b.car != carId
    ensures Conflicts(before + [b] + after, carId, pickup, ret) == Conflicts(before + after, carId, pickup, ret)
    ensures CheckAvailability(before + [b] + after, carId, pickup, ret) == CheckAvailability(before + after, carId, pickup, ret)
  {
    var p := (x: Booking) => Blocks(x, carId, pickup, ret);
    assert Filter([b], p) == [] by {
      assert [b][1..] == [];
    }
    FilterConcat(before, [b], p);
    assert Filter(before + [b], p) == Filter(before, p);
    FilterConcat(before + [b], after, p);
    FilterConcat(before, after, p);
    assert Conflicts(before + [b] + after, carId, pickup, ret) == Conflicts(before + after, carId, pickup, ret);
  }

  /** A booking that overlaps blocks the car whatever its status, cancelled included. */
  lemma StatusDoesNotFreeDates(bookings: seq<Booking>, i: nat, st: Status, pickup: int, ret: int)
    requires i < |bookings|
    ensures CheckAvailability(bookings[i := bookings[i].(status := st)], bookings[i].car, pickup, ret)
        == CheckAvailability(bookings, bookings[i].car, pickup, ret)
    ensures Overlap(bookings[i].pickupDate, bookings[i].returnDate, pickup, ret) ==>
      !CheckAvailability(bookings[i := bookings[i].(status := Cancelled)], bookings[i].car, pickup, ret)
  {
    var changed := bookings[i := bookings[i].(status := st)];
    var cancelled := bookings[i := bookings[i].(status := Cancelled)];
    assert forall j :: 0 <= j < |bookings| ==>
      changed[j].car == bookings[j].car && changed[j].pickupDate == bookings[j].pickupDate
      && changed[j].returnDate == bookings[j].returnDate;
    assert cancelled[i].car == bookings[i].car;
  }

  // ---------------------------------------------------------------------
  // Availability search (`checkAvailabilityofCars`)
  // ---------------------------------------------------------------------

  datatype SearchRequest = SearchRequest(location: string, pickup: DateField, ret: DateField)

  datatype SearchError = SearchFieldsRequired | SearchInvalidDate | SearchReturnNotAfter
  {
    function Message(): string
    {
      match this
      case SearchFieldsRequired => "location, pickupDate, returnDate are required"
      case SearchInvalidDate => "Invalid date format"
      case SearchReturnNotAfter => "returnDate must be after pickupDate"
    }
  }

  /** The store query `Car.find({ location, isAvailable: true })`. */
  predicate Listed(c: Car, location: string)
  {
    c.location == location && c.isAvailable == Some(true)
  }

  /** The candidates, then those of them that `checkAvailability` finds free, in candidate order. */
  function FreeListedCars(cars: seq<Car>, bookings: seq<Booking>, location: string, pickup: int, ret: int): seq<Car>
  {
    Filter(Filter(cars, (c: Car) => Listed(c, location)),
           (c: Car) => CheckAvailability(bookings, c.id, pickup, ret))
  }

  /** `checkAvailabilityofCars`: input checks in order, then the listed cars that are free. */
  function SearchAvailableCars(cars: seq<Car>, bookings: seq<Booking>, q: SearchRequest): (r: Result<seq<Car>, SearchError>)
    ensures r == Failure(SearchFieldsRequired) <==> q.location == "" || q.pickup.Missing? || q.ret.Missing?
    ensures r == Failure(SearchInvalidDate) <==>
      q.location != "" && !q.pickup.Missing? && !q.ret.Missing? && (q.pickup.Unparsable? || q.ret.Unparsable?)
    ensures r == Failure(SearchReturnNotAfter) <==>
      q.location != "" && q.pickup.At? && q.ret.At? && q.ret.ms <= q.pickup.ms
    ensures r.Success? <==> q.location != "" && q.pickup.At? && q.ret.At? && q.pickup.ms < q.ret.ms
    ensures r.Success? ==> forall i :: 0 <= i < |r.value| ==>
      r.value[i] in cars && Listed(r.value[i], q.location)
      && CheckAvailability(bookings, r.value[i].id, q.pickup.ms, q.ret.ms)
    ensures r.Success? ==> forall i :: 0 <= i < |cars| ==>
      Listed(cars[i], q.location) && CheckAvailability(bookings, cars[i].id, q.pickup.ms, q.ret.ms)
      ==> cars[i] in r.value
    ensures r.Success? ==> r.value == FreeListedCars(cars, bookings, q.location, q.pickup.ms, q.ret.ms)
  {
    if q.location == "" || q.pickup.Missing? || q.ret.Missing? then Failure(SearchFieldsRequired)
    else if q.pickup.Unparsable? || q.ret.Unparsable? then Failure(SearchInvalidDate)
    else if q.ret.ms <= q.pickup.ms then Failure(SearchReturnNotAfter)
    else
      var listed := Filter(cars, (c: Car) => Listed(c, q.location));
      var found := FreeListedCars(cars, bookings, q.location, q.pickup.ms, q.ret.ms);
      assert forall i :: 0 <= i < |cars| && Listed(cars[i], q.location) ==> cars[i] in listed;
      assert forall c :: c in listed ==> c in cars && Listed(c, q.location);
      Success(found)
  }

  /** The search keeps candidate order: searching `a + b` finds the cars found in `a`, then those found in `b`. */
  lemma SearchKeepsOrder(a: seq<Car>, b: seq<Car>, bookings: seq<Booking>, location: string, pickup: int, ret: int)
    ensures FreeListedCars(a + b, bookings, location, pickup, ret)
         == FreeListedCars(a, bookings, location, pickup, ret) + FreeListedCars(b, bookings, location, pickup, ret)
  {
    var listed := (c: Car) => Listed(c, location);
    var free := (c: Car) => CheckAvailability(bookings, c.id, pickup, ret);
    FilterConcat(a, b, listed);
    FilterConcat(Filter(a, listed), Filter(b, listed), free);
  }

  /** The search never repeats a car: each one is found at most as often as the store holds it. */
  lemma SearchNoRepeats(cars: seq<Car>, bookings: seq<Booking>, location: string, pickup: int, ret: int)
    ensures multiset(FreeListedCars(cars, bookings, location, pickup, ret)) <= multiset(cars)
  {
    var listed := (c: Car) => Listed(c, location);
    var free := (c: Car) => CheckAvailability(bookings, c.id, pickup, ret);
    FilterSubMultiset(cars, listed);
    FilterSubMultiset(Filter(cars, listed), free);
  }

  // ---------------------------------------------------------------------
  // Booking creation (`createBooking`)
  // ---------------------------------------------------------------------

  datatype BookingRequest = BookingRequest(car: Option<Id>, pickup: DateField, ret: DateField)

  datatype CreateError = BookingFieldsRequired | BookingInvalidDate | BookingReturnNotAfter | CarNotFound | CarNotAvailable
  {
    function Message(): string
    {
      match this
      case BookingFieldsRequired => "car, pickupDate, returnDate are required"
      case BookingInvalidDate => "Invalid date format"
      case BookingReturnNotAfter => "returnDate must be after pickupDate"
      case CarNotFound => "Car not found"
      case CarNotAvailable => "Car is not available"
    }
  }

  /** `Math.ceil(n / d)` on integers. */
  function CeilDiv(n: int, d: nat): (q: int)
    requires d > 0
    ensures d * (q - 1) < n <= d * q
  {
    -((-n) / d)
  }

  /** `Math.max(1, Math.ceil((ret - pickup) / msPerDay))`: the days charged. */
  function BookingDays(pickup: int, ret: int): (days: int)
    ensures days >= 1
    ensures pickup < ret ==> MS_PER_DAY * (days - 1) < ret - pickup <= MS_PER_DAY * days
  {
    var q := CeilDiv(ret - pickup, MS_PER_DAY);
    if q < 1 then 1 else q
  }

  /** The days charged for whole-day ranges: one, two and three days. */
  lemma BookingDaysExamples(pickup: int)
    ensures BookingDays(pickup, pickup + MS_PER_DAY) == 1
    ensures BookingDays(pickup, pickup + 3 * MS_PER_DAY) == 3
    ensures BookingDays(pickup, pickup + 1) == 1
    ensures BookingDays(pickup, pickup + MS_PER_DAY + 1) == 2
  {
  }

  /** The checks of `createBooking`, in order, and the booking it would write with identity `id` at time `now`. */
  function PlanBooking(cars: seq<Car>, bookings: seq<Booking>, caller: Id, req: BookingRequest, id: Id, now: int): (r: Result<Booking, CreateError>)
    ensures r == Failure(BookingFieldsRequired) <==> req.car.None? || req.pickup.Missing? || req.ret.Missing?
    ensures r == Failure(BookingInvalidDate) <==>
      req.car.Some? && !req.pickup.Missing? && !req.ret.Missing? && (req.pickup.Unparsable? || req.ret.Unparsable?)
    ensures r == Failure(BookingReturnNotAfter) <==>
      req.car.Some? && req.pickup.At? && req.ret.At? && req.ret.ms <= req.pickup.ms
    ensures r == Failure(CarNotFound) <==>
      req.car.Some? && req.pickup.At? && req.ret.At? && req.pickup.ms < req.ret.ms
      && CarIndex(cars, req.car.value).None?
    ensures r == Failure(CarNotAvailable) <==>
      req.car.Some? && req.pickup.At? && req.ret.At? && req.pickup.ms < req.ret.ms
      && CarIndex(cars, req.car.value).Some?
      && !CheckAvailability(bookings, req.car.value, req.pickup.ms, req.ret.ms)
    ensures r.Success? ==>
      && req.car.Some? && req.pickup.At? && req.ret.At? && req.pickup.ms < req.ret.ms
      && CarIndex(cars, req.car.value).Some?
      && CheckAvailability(bookings, req.car.value, req.pickup.ms, req.ret.ms)
      && var car := cars[CarIndex(cars, req.car.value).value];
      && r.value == Booking(id, req.car.value, car.owner, caller, req.pickup.ms, req.ret.ms,
                            car.pricePerDay * BookingDays(req.pickup.ms, req.ret.ms), Pending, now)
  {
    if req.car.None? || req.pickup.Missing? || req.ret.Missing? then Failure(BookingFieldsRequired)
    else if req.pickup.Unparsable? || req.ret.Unparsable? then Failure(BookingInvalidDate)
    else if req.ret.ms <= req.pickup.ms then Failure(BookingReturnNotAfter)
    else match CarIndex(cars, req.car.value)
      case None => Failure(CarNotFound)
      case Some(k) =>
        if !CheckAvailability(bookings, req.car.value, req.pickup.ms, req.ret.ms) then Failure(CarNotAvailable)
        else
          var car := cars[k];
          var days := BookingDays(req.pickup.ms, req.ret.ms);
          Success(Booking(id, req.car.value, car.owner, caller, req.pickup.ms, req.ret.ms,
                          car.pricePerDay * days, Pending, now))
  }

  /** The prices of the worked examples: 300 per day for one day and for three days. */
  lemma PriceExamples(cars: seq<Car>, caller: Id, carId: Id, pickup: int, id: Id, now: int)
    requires CarIndex(cars, carId).Some? && cars[CarIndex(cars, carId).value].pricePerDay == 300
    ensures PlanBooking(cars, [], caller, BookingRequest(Some(carId), At(pickup), At(pickup + MS_PER_DAY)), id, now).value.price == 300
    ensures PlanBooking(cars, [], caller, BookingRequest(Some(carId), At(pickup), At(pickup + 3 * MS_PER_DAY)), id, now).value.price == 900
  {
    BookingDaysExamples(pickup);
  }

  /**
   * Sequentially, a booking that was just written blocks every later request
   * for the same car whose range overlaps it. The handler gives no such
   * guarantee between two concurrent requests.
   */
  lemma WrittenBookingBlocksOverlaps(cars: seq<Car>, bookings: seq<Booking>, caller: Id, req: BookingRequest, id: Id, now: int,
                                     caller2: Id, req2: BookingRequest, id2: Id, now2: int)
    requires PlanBooking(cars, bookings, caller, req, id, now).Success?
    requires req2.car == req.car && req2.pickup.At? && req2.ret.At? && req2.pickup.ms < req2.ret.ms
    requires Overlap(req.pickup.ms, req.ret.ms, req2.pickup.ms, req2.ret.ms)
    ensures PlanBooking(cars, bookings + [PlanBooking(cars, bookings, caller, req, id, now).value], caller2, req2, id2, now2)
         == Failure(CarNotAvailable)
  {
    var b := PlanBooking(cars, bookings, caller, req, id, now).value;
    var bs := bookings + [b];
    assert bs[|bookings|] == b;
    assert !CheckAvailability(bs, req2.car.value, req2.pickup.ms, req2.ret.ms);
  }

  /** The listing flag is not consulted: an unlisted or soft-deleted car with free dates is booked. */
  lemma UnlistedCarIsBookable(cars: seq<Car>, bookings: seq<Booking>, caller: Id, k: nat, pickup: int, ret: int, id: Id, now: int)
    requires k < |cars| && UniqueCarIds(cars)
    requires cars[k].isAvailable == Some(false) && cars[k].owner.None?
    requires pickup < ret && CheckAvailability(bookings, cars[k].id, pickup, ret)
    ensures PlanBooking(cars, bookings, caller, BookingRequest(Some(cars[k].id), At(pickup), At(ret)), id, now).Success?
  {
    assert CarIndex(cars, cars[k].id).Some?;
  }

  /**
   * `createBooking`: runs the checks of `PlanBooking` in order; on success
   * appends one `pending` booking, otherwise leaves the store as it was.
   */
  method CreateBooking(db: Database, caller: Id, req: BookingRequest, now: int) returns (r: Result<Booking, CreateError>)
    requires db.Valid()
    modifies db
    ensures db.Valid()
    ensures r == PlanBooking(old(db.cars), old(db.bookings), caller, req, old(db.nextBookingId), now)
    ensures r.Success? ==> db.bookings == old(db.bookings) + [r.value] && db.nextBookingId == old(db.nextBookingId) + 1
    ensures r.Failure? ==> db.bookings == old(db.bookings) && db.nextBookingId == old(db.nextBookingId)
    ensures db.cars == old(db.cars) && db.users == old(db.users) && db.nextCarId == old(db.nextCarId)
  {
    if req.car.None? || req.pickup.Missing? || req.ret.Missing? {
      return Failure(BookingFieldsRequired);
    }
    if req.pickup.Unparsable? || req.ret.Unparsable? {
      return Failure(BookingInvalidDate);
    }
    var picked, returned := req.pickup.ms, req.ret.ms;
    if returned <= picked {
      return Failure(BookingReturnNotAfter);
    }
    var carId := req.car.value;
    var found := CarIndex(db.cars, carId);
    if found.None? {
      return Failure(CarNotFound);
    }
    var carData := db.cars[found.value];
    if !CheckAvailability(db.bookings, carId, picked, returned) {
      return Failure(CarNotAvailable);
    }
    var noOfDays := BookingDays(picked, returned);
    var booking := Booking(db.nextBookingId, carId, carData.owner, caller, picked, returned,
                           carData.pricePerDay * noOfDays, Pending, now);
    db.bookings := db.bookings + [booking];
    db.nextBookingId := db.nextBookingId + 1;
    r := Success(booking);
  }

  // ---------------------------------------------------------------------
  // Listings (`getUserBookings`, `getOwnerBookings`)
  // ---------------------------------------------------------------------

  /** The caller's bookings as renter, newest first. */
  function UserBookings(bookings: seq<Booking>, caller: Id): (r: seq<Booking>)
    ensures NewestFirstOrder(r)
    ensures multiset(r) == multiset(Filter(bookings, (b: Booking) => b.user == caller))
    ensures forall i :: 0 <= i < |r| ==> r[i] in bookings && r[i].user == caller
    ensures forall i :: 0 <= i < |bookings| && bookings[i].user == caller ==> bookings[i] in r
  {
    var mine := Filter(bookings, (b: Booking) => b.user == caller);
    var r := SortNewestFirst(mine);
    SameMultisetSameElements(r, mine);
    r
  }

  datatype ListError = NotAnOwner
  {
    function Message(): string
    {
      "Unauthorized"
    }
  }

  /** The bookings of the caller's cars, newest first; refused to a caller whose role is not owner. */
  function OwnerBookings(bookings: seq<Booking>, caller: User): (r: Result<seq<Booking>, ListError>)
    ensures r.Failure? <==> caller.role != Owner
    ensures r.Success? ==> NewestFirstOrder(r.value)
    ensures r.Success? ==> multiset(r.value) == multiset(Filter(bookings, (b: Booking) => b.owner == Some(caller.id)))
    ensures r.Success? ==> forall i :: 0 <= i < |r.value| ==> r.value[i] in bookings && r.value[i].owner == Some(caller.id)
    ensures r.Success? ==> forall i :: 0 <= i < |bookings| && bookings[i].owner == Some(caller.id) ==> bookings[i] in r.value
  {
    if caller.role != Owner then Failure(NotAnOwner)
    else
      var mine := Filter(bookings, (b: Booking) => b.owner == Some(caller.id));
      var r := SortNewestFirst(mine);
      SameMultisetSameElements(r, mine);
      Success(r)
  }

  // ---------------------------------------------------------------------
  // Status change (`changeBookingStatus`)
  // ---------------------------------------------------------------------

  datatype StatusError = InvalidStatus | BookingNotFound | NotBookingOwner | OwnerMissing
  {
    function Message(): string
    {
      match this
      case InvalidStatus => "Invalid status"
      case BookingNotFound => "Booking not found"
      case NotBookingOwner => "Unauthorized"
      // `booking.owner.toString()` on a booking without owner throws; the handler reports the error text.
      case OwnerMissing => "Cannot read properties of null (reading 'toString')"
    }
  }

  /** The booking at `i` with only its status replaced. */
  function SetStatus(bookings: seq<Booking>, i: nat, st: Status): (r: seq<Booking>)
    requires i < |bookings|
    ensures |r| == |bookings|
    ensures r[i] == bookings[i].(status := st)
    ensures forall j :: 0 <= j < |bookings| && j != i ==> r[j] == bookings[j]
  {
    bookings[i := bookings[i].(status := st)]
  }

  /** The checks of `changeBookingStatus`, in order: the status, the booking, its owner. */
  function PlanStatusChange(bookings: seq<Booking>, caller: Id, bookingId: Option<Id>, status: string): (r: Result<(nat, Status), StatusError>)
    ensures r == Failure(InvalidStatus) <==> ParseStatus(status).None?
    ensures r == Failure(BookingNotFound) <==>
      ParseStatus(status).Some? && (bookingId.None? || BookingIndex(bookings, bookingId.value).None?)
    ensures r.Failure? && r.error != InvalidStatus && r.error != BookingNotFound ==>
      bookingId.Some? && BookingIndex(bookings, bookingId.value).Some?
      && (r.error == NotBookingOwner <==> bookings[BookingIndex(bookings, bookingId.value).value].owner.Some?)
    ensures r.Success? <==>
      ParseStatus(status).Some? && bookingId.Some? && BookingIndex(bookings, bookingId.value).Some?
      && bookings[BookingIndex(bookings, bookingId.value).value].owner == Some(caller)
    ensures r.Success? ==>
      r.value.0 < |bookings| && bookings[r.value.0].id == bookingId.value
      && bookings[r.value.0].owner == Some(caller) && StatusName(r.value.1) == status
  {
    match ParseStatus(status)
    case None => Failure(InvalidStatus)
    case Some(st) =>
      if bookingId.None? then Failure(BookingNotFound)
      else match BookingIndex(bookings, bookingId.value)
        case None => Failure(BookingNotFound)
        case Some(i) =>
          if bookings[i].owner.None? then Failure(OwnerMissing)
          else if bookings[i].owner.value != caller then Failure(NotBookingOwner)
          else Success((i, st))
  }

  /** `changeBookingStatus`: on success only the status of the one booking changes; on failure nothing does. */
  method ChangeBookingStatus(db: Database, caller: Id, bookingId: Option<Id>, status: string) returns (err: Option<StatusError>)
    requires db.Valid()
    modifies db
    ensures db.Valid()
    ensures var plan := PlanStatusChange(old(db.bookings), caller, bookingId, status);
      && (err.Some? <==> plan.Failure?)
      && (plan.Failure? ==> err == Some(plan.error) && db.bookings == old(db.bookings))
      && (plan.Success? ==> db.bookings == SetStatus(old(db.bookings), plan.value.0, plan.value.1))
    ensures db.cars == old(db.cars) && db.users == old(db.users)
    ensures db.nextCarId == old(db.nextCarId) && db.nextBookingId == old(db.nextBookingId)
  {
    var st := ParseStatus(status);
    if st.None? {
      return Some(InvalidStatus);
    }
    if bookingId.None? {
      return Some(BookingNotFound);
    }
    var found := BookingIndex(db.bookings, bookingId.value);
    if found.None? {
      return Some(BookingNotFound);
    }
    var i := found.value;
    var booking := db.bookings[i];
    if booking.owner.None? {
      return Some(OwnerMissing);
    }
    if booking.owner.value != caller {
      return Some(NotBookingOwner);
    }
    db.bookings := db.bookings[i := booking.(status := st.value)];
    err := None;
  }

  /** Setting the same status again leaves the store as the first change left it. */
  lemma StatusChangeIdempotent(bookings: seq<Booking>, caller: Id, bookingId: Option<Id>, status: string)
    requires PlanStatusChange(bookings, caller, bookingId, status).Success?
    ensures var p := PlanStatusChange(bookings, caller, bookingId, status).value;
      var once := SetStatus(bookings, p.0, p.1);
      && PlanStatusChange(once, caller, bookingId, status) == Success(p)
      && SetStatus(once, p.0, p.1) == once
  {
    var p := PlanStatusChange(bookings, caller, bookingId, status).value;
    var once := SetStatus(bookings, p.0, p.1);
    assert forall j :: 0 <= j < |bookings| ==> once[j].id == bookings[j].id && once[j].owner == bookings[j].owner;
    assert BookingIndex(once, bookingId.value) == BookingIndex(bookings, bookingId.value);
  }
}
