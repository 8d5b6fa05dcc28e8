/**
 * The server's records (server/models/Car.js, server/models/User.js and the
 * Booking record as `createBooking` writes it) and the document store that
 * holds them. Store queries (`find`, `findById`, `countDocuments`, `sort`,
 * `aggregate`) become filters, lookups and folds over in-memory sequences.
 * Dates are integer milliseconds; `createdAt` is supplied by the caller.
 */
module Models {
  import opened Wrappers
  import opened Seqs

  /** A document identity (`ObjectId`); compared by value, as the `toString()` comparisons do. */
  type Id = nat

  /** `1000 * 60 * 60 * 24`, the length of a day in milliseconds. */
  const MS_PER_DAY: nat := 1000 * 60 * 60 * 24

  /** The three booking statuses the server stores. */
  datatype Status = Pending | Confirmed | Cancelled

  /** The stored spelling of a status. */
  function StatusName(s: Status): string
  {
    match s
    case Pending => "pending"
    case Confirmed => "confirmed"
    case Cancelled => "cancelled"
  }

  /** Membership in `["pending", "confirmed", "cancelled"]`, exact and case-sensitive. */
  function ParseStatus(s: string): (r: Option<Status>)
    ensures r.Some? <==> s == "pending" || s == "confirmed" || s == "cancelled"
    ensures r.Some? ==> StatusName(r.value) == s
  {
    if s == "pending" then Some(Pending)
    else if s == "confirmed" then Some(Confirmed)
    else if s == "cancelled" then Some(Cancelled)
    else None
  }

  /** `role: { enum: ["owner", "user"], default: "user" }`. */
  datatype Role = Owner | Renter

  datatype User = User(id: Id, name: string, email: string, role: Role)

  /**
   * A car document. `owner` is cleared by a soft delete. `isAvailable` is
   * `None` for a legacy document that lacks the flag, and `legacyAvaliable`
   * is the truthiness of the misspelled legacy field (`None` when absent).
   */
  datatype Car = Car(
    id: Id,
    owner: Option<Id>,
    brand: string,
    model: string,
    image: string,
    year: int,
    category: string,
    seatingCapacity: int,
    fuelType: string,
    transmission: string,
    pricePerDay: int,
    location: string,
    description: string,
    isAvailable: Option<bool>,
    legacyAvaliable: Option<bool>,
    images: seq<string>,
    imageFileId: string,
    imageFileIds: seq<string>)

  /** A booking with the fields `createBooking` writes; `owner` is copied from the car. */
  datatype Booking = Booking(
    id: Id,
    car: Id,
    owner: Option<Id>,
    user: Id,
    pickupDate: int,
    returnDate: int,
    price: int,
    status: Status,
    createdAt: int)

  function CarIndex(cars: seq<Car>, id: Id): Option<nat>
  {
    FirstIndex(cars, (c: Car) => c.id == id)
  }

  function BookingIndex(bookings: seq<Booking>, id: Id): Option<nat>
  {
    FirstIndex(bookings, (b: Booking) => b.id == id)
  }

  function UserIndex(users: seq<User>, id: Id): Option<nat>
  {
    FirstIndex(users, (u: User) => u.id == id)
  }

  predicate UniqueCarIds(cars: seq<Car>)
  {
    forall i, j :: 0 <= i < j < |cars| ==> cars[i].id != cars[j].id
  }

  predicate UniqueBookingIds(bookings: seq<Booking>)
  {
    forall i, j :: 0 <= i < j < |bookings| ==> bookings[i].id != bookings[j].id
  }

  predicate UniqueUserIds(users: seq<User>)
  {
    forall i, j :: 0 <= i < j < |users| ==> users[i].id != users[j].id
  }

  /** Bookings ordered by `createdAt`, newest first (`sort({ createdAt: -1 })`). */
  predicate NewestFirstOrder(bs: seq<Booking>)
  {
    forall i, j :: 0 <= i < j < |bs| ==> bs[i].createdAt >= bs[j].createdAt
  }

  function InsertNewest(b: Booking, bs: seq<Booking>): (r: seq<Booking>)
    requires NewestFirstOrder(bs)
    ensures NewestFirstOrder(r)
    ensures r != [] && (r[0] == b || (bs != [] && r[0] == bs[0]))
    ensures multiset(r) == multiset(bs) + multiset{b}
    decreases |bs|
  {
    if bs == [] || b.createdAt >= bs[0].createdAt then [b] + bs
    else
      assert bs == [bs[0]] + bs[1..];
      var rest := InsertNewest(b, bs[1..]);
      ConsNewest(bs[0], rest);
      assert multiset([bs[0]] + rest) == multiset{bs[0]} + multiset(rest);
      [bs[0]] + rest
  }

  /** A booking no older than the head of a newest-first list can go in front of it. */
  lemma ConsNewest(x: Booking, rest: seq<Booking>)
    requires NewestFirstOrder(rest)
    requires rest != [] ==> rest[0].createdAt <= x.createdAt
    ensures NewestFirstOrder([x] + rest)
  {
    var r := [x] + rest;
    forall i, j | 0 <= i < j < |r| ensures r[i].createdAt >= r[j].createdAt {
      if i == 0 {
        assert r[j] == rest[j - 1];
        assert rest[0].createdAt >= rest[j - 1].createdAt;
      } else {
        assert r[i] == rest[i - 1] && r[j] == rest[j - 1];
      }
    }
  }

  /** `sort({ createdAt: -1 })`: the same bookings, newest first. */
  function SortNewestFirst(bs: seq<Booking>): (r: seq<Booking>)
    ensures NewestFirstOrder(r)
    ensures multiset(r) == multiset(bs)
    decreases |bs|
  {
    if bs == [] then []
    else
      assert bs == [bs[0]] + bs[1..];
      InsertNewest(bs[0], SortNewestFirst(bs[1..]))
  }

  /**
   * The document store: users, cars and bookings, and the counters that
   * stand in for the identities the database allocates.
   */
  class Database {
    var users: seq<User>
    var cars: seq<Car>
    var bookings: seq<Booking>
    var nextCarId: Id
    var nextBookingId: Id

    /** Identities are unique and every allocated identity is below its counter. */
    ghost predicate Valid()
      reads this
    {
      && UniqueUserIds(users)
      && UniqueCarIds(cars)
      && UniqueBookingIds(bookings)
      && (forall i :: 0 <= i < |cars| ==> cars[i].id < nextCarId)
      && (forall i :: 0 <= i < |bookings| ==> bookings[i].id < nextBookingId)
    }

    constructor (users: seq<User>)
      requires UniqueUserIds(users)
      ensures Valid()
      ensures this.users == users && cars == [] && bookings == []
    {
      this.users := users;
      cars := [];
      bookings := [];
      nextCarId := 0;
      nextBookingId := 0;
    }
  }
}
