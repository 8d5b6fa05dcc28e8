/**
 * The owner-side handlers of server/controllers/ownerController.js: the role
 * upgrade, car creation and editing, the availability toggle, the soft
 * delete, the owner's booking-status update and the dashboard figures.
 * Image uploads are a function from a received file to its hosted
 * `(url, fileId)`; what the image host does is not modelled.
 */
module OwnerController {
  import opened Wrappers
  import opened Seqs
  import opened Text
  import opened Models
  import BookingController

  datatype OwnerError =
    | InvalidStatus | BookingNotFound | Unauthorized
    | CarIdRequired | CarNotFound | InvalidCarData | MainImageRequired | CarValidationFailed
    | OwnerPathRequired
  {
    function Message(): string
    {
      match this
      case InvalidStatus => "Invalid status"
      case BookingNotFound => "Booking not found"
      case Unauthorized => "Unauthorized"
      case CarIdRequired => "carId is required"
      case CarNotFound => "Car not found"
      case InvalidCarData => "Invalid carData JSON"
      case MainImageRequired => "Main image is required"
      // The schema's required-field check fails inside `Car.create`; its text starts so.
      case CarValidationFailed => "Car validation failed"
      case OwnerPathRequired => "Car validation failed: owner: Path `owner` is required."
    }
  }

  // ---------------------------------------------------------------------
  // changeRoleToOwner
  // ---------------------------------------------------------------------

  /** The users after `User.findByIdAndUpdate(id, { role: "owner" })`. */
  function WithOwnerRole(users: seq<User>, id: Id): (r: seq<User>)
    ensures |r| == |users|
    ensures forall i :: 0 <= i < |users| && users[i].id == id ==> r[i] == users[i].(role := Owner)
    ensures forall i :: 0 <= i < |users| && users[i].id != id ==> r[i] == users[i]
  {
    seq(|users|, i requires 0 <= i < |users| => if users[i].id == id then users[i].(role := Owner) else users[i])
  }

  /** A repeated upgrade leaves the users as the first one left them. */
  lemma {:induction false} OwnerRoleIdempotent(users: seq<User>, id: Id)
    ensures WithOwnerRole(WithOwnerRole(users, id), id) == WithOwnerRole(users, id)
  {
    var once := WithOwnerRole(users, id);
    var twice := WithOwnerRole(once, id);
    forall i | 0 <= i < |users| ensures twice[i] == once[i] {
      if users[i].id == id {
        assert once[i].id == id;
      }
    }
  }

  /** After the upgrade the caller's record passes the owner-only checks of the listings and the dashboard. */
  lemma UpgradeOpensOwnerViews(users: seq<User>, id: Id, k: nat, cars: seq<Car>, bookings: seq<Booking>)
    requires k < |users| && users[k].id == id
    ensures BookingController.OwnerBookings(bookings, WithOwnerRole(users, id)[k]).Success?
    ensures DashboardData(cars, bookings, WithOwnerRole(users, id)[k]).Success?
  {
  }

  /** `changeRoleToOwner`: the caller's record gets role owner; answers success even when it does not exist. */
  method ChangeRoleToOwner(db: Database, caller: Id)
    requires db.Valid()
    modifies db
    ensures db.Valid()
    ensures db.users == WithOwnerRole(old(db.users), caller)
    ensures db.cars == old(db.cars) && db.bookings == old(db.bookings)
    ensures db.nextCarId == old(db.nextCarId) && db.nextBookingId == old(db.nextBookingId)
  {
    var found := UserIndex(db.users, caller);
    if found.Some? {
      var k := found.value;
      db.users := db.users[k := db.users[k].(role := Owner)];
    }
    assert forall i :: 0 <= i < |db.users| ==> db.users[i].id == old(db.users)[i].id;
  }

  // ---------------------------------------------------------------------
  // updateBookingStatus
  // ---------------------------------------------------------------------

  /** `String(status || "").toLowerCase()`: an absent or empty status becomes "". */
  function NormalizeStatus(status: Option<string>): (r: string)
    ensures status.None? ==> r == ""
    ensures status.Some? ==> |r| == |status.value| && forall i :: 0 <= i < |r| ==> r[i] == LowerChar(status.value[i])
    ensures IsLower(r)
  {
    LowerFixesLower(status.GetOr(""));
    Lower(status.GetOr(""))
  }

  /** The checks of `updateBookingStatus`, in order: the normalised status, the booking, its owner. */
  function PlanUpdateBookingStatus(bookings: seq<Booking>, caller: Id, bookingId: Id, status: Option<string>): (r: Result<(nat, Status), OwnerError>)
    ensures r == Failure(InvalidStatus) <==> ParseStatus(NormalizeStatus(status)).None?
    ensures r == Failure(BookingNotFound) <==>
      ParseStatus(NormalizeStatus(status)).Some? && BookingIndex(bookings, bookingId).None?
    ensures r == Failure(Unauthorized) <==>
      ParseStatus(NormalizeStatus(status)).Some? && BookingIndex(bookings, bookingId).Some?
      && bookings[BookingIndex(bookings, bookingId).value].owner != Some(caller)
    ensures r.Success? ==>
      r.value.0 < |bookings| && bookings[r.value.0].id == bookingId
      && bookings[r.value.0].owner == Some(caller)
      && StatusName(r.value.1) == NormalizeStatus(status)
  {
    match ParseStatus(NormalizeStatus(status))
    case None => Failure(InvalidStatus)
    case Some(st) =>
      match BookingIndex(bookings, bookingId)
      case None => Failure(BookingNotFound)
      case Some(i) =>
        // `booking.owner?.toString()` is undefined for a booking without owner: never equal.
        if bookings[i].owner != Some(caller) then Failure(Unauthorized)
        else Success((i, st))
  }

  /** `updateBookingStatus`: stores the normalised status on the one booking, and nothing else. */
  method UpdateBookingStatus(db: Database, caller: Id, bookingId: Id, status: Option<string>) returns (r: Result<Booking, OwnerError>)
    requires db.Valid()
    modifies db
    ensures db.Valid()
    ensures var plan := PlanUpdateBookingStatus(old(db.bookings), caller, bookingId, status);
      && (plan.Failure? ==> r == Failure(plan.error) && db.bookings == old(db.bookings))
      && (plan.Success? ==>
            && db.bookings == BookingController.SetStatus(old(db.bookings), plan.value.0, plan.value.1)
            && r == Success(db.bookings[plan.value.0]))
    ensures db.cars == old(db.cars) && db.users == old(db.users)
    ensures db.nextCarId == old(db.nextCarId) && db.nextBookingId == old(db.nextBookingId)
  {
    var normalized := NormalizeStatus(status);
    var st := ParseStatus(normalized);
    if st.None? {
      return Failure(InvalidStatus);
    }
    var found := BookingIndex(db.bookings, bookingId);
    if found.None? {
      return Failure(BookingNotFound);
    }
    var i := found.value;
    var booking := db.bookings[i];
    if booking.owner != Some(caller) {
      return Failure(Unauthorized);
    }
    booking := booking.(status := st.value);
    db.bookings := db.bookings[i := booking];
    r := Success(booking);
  }

  /** Whatever `changeBookingStatus` accepts, `updateBookingStatus` accepts with the same effect. */
  lemma StatusHandlersAgree(bookings: seq<Booking>, caller: Id, bookingId: Id, status: string)
    requires BookingController.PlanStatusChange(bookings, caller, Some(bookingId), status).Success?
    ensures PlanUpdateBookingStatus(bookings, caller, bookingId, Some(status))
         == Success(BookingController.PlanStatusChange(bookings, caller, Some(bookingId), status).value)
  {
    var st := ParseStatus(status).value;
    assert IsLower(StatusName(st)) by {
      match st
      case Pending => assert IsLower("pending");
      case Confirmed => assert IsLower("confirmed");
      case Cancelled => assert IsLower("cancelled");
    }
    LowerFixesLower(status);
    assert NormalizeStatus(Some(status)) == status;
  }

  /** Upper case is where they part: "CONFIRMED" is refused by `changeBookingStatus` and stored as confirmed by `updateBookingStatus`. */
  lemma UpperCaseStatus(bookings: seq<Booking>, caller: Id, bookingId: Id)
    ensures BookingController.PlanStatusChange(bookings, caller, Some(bookingId), "CONFIRMED")
        == Failure(BookingController.InvalidStatus)
    ensures PlanUpdateBookingStatus(bookings, caller, bookingId, Some("CONFIRMED")) != Failure(InvalidStatus)
    ensures PlanUpdateBookingStatus(bookings, caller, bookingId, Some("CONFIRMED")).Success? ==>
      PlanUpdateBookingStatus(bookings, caller, bookingId, Some("CONFIRMED")).value.1 == Confirmed
  {
    assert NormalizeStatus(Some("CONFIRMED")) == "confirmed";
    assert ParseStatus("confirmed") == Some(Confirmed);
  }

  /** A missing status is refused before the booking is looked up. */
  lemma MissingStatusRefused(bookings: seq<Booking>, caller: Id, bookingId: Id)
    ensures PlanUpdateBookingStatus(bookings, caller, bookingId, None) == Failure(InvalidStatus)
    ensures PlanUpdateBookingStatus(bookings, caller, bookingId, Some("")) == Failure(InvalidStatus)
  {
  }

  // ---------------------------------------------------------------------
  // Car records: addCar and updateCar
  // ---------------------------------------------------------------------

  /** A received file (multer's `req.files` entry) and what the image host returns for it. */
  datatype ReceivedFile = ReceivedFile(path: string, originalName: string)
  datatype Upload = Upload(url: string, fileId: string)

  /**
   * The fields a request carries for a car, each possibly absent. `owner`
   * and `id` are what a caller may try to smuggle in; `owner` is
   * `Some(None)` for an explicit null. `setOwner` is an `owner` key inside a
   * `$set` update operator of the body, which `findByIdAndUpdate` applies
   * as well (no other operator is modelled).
   */
  datatype CarPatch = CarPatch(
    id: Option<Id>,
    owner: Option<Option<Id>>,
    brand: Option<string>,
    model: Option<string>,
    image: Option<string>,
    year: Option<int>,
    category: Option<string>,
    seatingCapacity: Option<int>,
    fuelType: Option<string>,
    transmission: Option<string>,
    pricePerDay: Option<int>,
    location: Option<string>,
    description: Option<string>,
    isAvailable: Option<bool>,
    images: Option<seq<string>>,
    imageFileId: Option<string>,
    imageFileIds: Option<seq<string>>,
    setOwner: Option<Option<Id>>)

  function Urls(ups: seq<Upload>): (r: seq<string>)
    ensures |r| == |ups| && forall i :: 0 <= i < |ups| ==> r[i] == ups[i].url
  {
    seq(|ups|, i requires 0 <= i < |ups| => ups[i].url)
  }

  function FileIds(ups: seq<Upload>): (r: seq<string>)
    ensures |r| == |ups| && forall i :: 0 <= i < |ups| ==> r[i] == ups[i].fileId
  {
    seq(|ups|, i requires 0 <= i < |ups| => ups[i].fileId)
  }

  function UploadAll(files: seq<ReceivedFile>, upload: ReceivedFile -> Upload): (r: seq<Upload>)
    ensures |r| == |files| && forall i :: 0 <= i < |files| ==> r[i] == upload(files[i])
  {
    seq(|files|, i requires 0 <= i < |files| => upload(files[i]))
  }

  /** A required string path of the schema: present and not empty. */
  predicate Given(s: Option<string>)
  {
    s.Some? && s.value != ""
  }

  /** Every required path of the Car schema is given; brand and model are trimmed first. */
  predicate Complete(car: CarPatch, main: Upload)
  {
    && Given(car.brand) && Trim(car.brand.value) != "" && Given(car.model) && Trim(car.model.value) != ""
    && main.url != "" && car.year.Some? && Given(car.category) && car.seatingCapacity.Some?
    && Given(car.fuelType) && Given(car.transmission) && car.pricePerDay.Some?
    && Given(car.location) && Given(car.description)
  }

  /**
   * `Car.create({ ...car, owner: _id, image, images, imageFileId, imageFileIds })`
   * with identity `id`: the caller is the owner whatever `car` says, the
   * uploads replace any image fields of `car`, `isAvailable` defaults to
   * true, and the schema refuses a missing required field.
   */
  function AssembleCar(car: CarPatch, caller: Id, id: Id, main: Upload, extras: seq<Upload>): (r: Result<Car, OwnerError>)
    ensures r.Success? ==>
      && r.value.id == id && r.value.owner == Some(caller)
      && r.value.image == main.url && r.value.imageFileId == main.fileId
      && |r.value.images| == |extras| && |r.value.imageFileIds| == |extras|
      && (forall i :: 0 <= i < |extras| ==>
            r.value.images[i] == extras[i].url && r.value.imageFileIds[i] == extras[i].fileId)
      && r.value.isAvailable == Some(car.isAvailable.GetOr(true))
    ensures r.Failure? <==>
      !Complete(car, main)
    ensures r.Failure? ==> r.error == CarValidationFailed
    ensures r.Success? ==>
      && r.value.brand == Trim(car.brand.value) && r.value.model == Trim(car.model.value)
      && r.value.year == car.year.value && r.value.category == car.category.value
      && r.value.seatingCapacity == car.seatingCapacity.value
      && r.value.fuelType == car.fuelType.value && r.value.transmission == car.transmission.value
      && r.value.pricePerDay == car.pricePerDay.value && r.value.location == car.location.value
      && r.value.description == car.description.value && r.value.legacyAvaliable.None?
  {
    if !Complete(car, main)
    then Failure(CarValidationFailed)
    else Success(Car(
      id, Some(caller), Trim(car.brand.value), Trim(car.model.value), main.url, car.year.value,
      car.category.value, car.seatingCapacity.value, car.fuelType.value, car.transmission.value,
      car.pricePerDay.value, car.location.value, car.description.value,
      Some(car.isAvailable.GetOr(true)), None, Urls(extras), main.fileId, FileIds(extras)))
  }

  /** An `owner` inside `carData` never reaches the stored record. */
  lemma AddCarIgnoresSuppliedOwner(car: CarPatch, other: Option<Id>, caller: Id, id: Id, main: Upload, extras: seq<Upload>)
    ensures AssembleCar(car.(owner := Some(other)), caller, id, main, extras) == AssembleCar(car.(owner := None), caller, id, main, extras)
  {
  }

  /** Appending a car with the next identity keeps identities unique and below the advanced counter. */
  lemma AppendFreshCar(cars: seq<Car>, car: Car, next: Id)
    requires UniqueCarIds(cars) && (forall i :: 0 <= i < |cars| ==> cars[i].id < next)
    requires car.id == next
    ensures UniqueCarIds(cars + [car])
    ensures forall i :: 0 <= i < |cars + [car]| ==> (cars + [car])[i].id < next + 1
  {
  }

  /**
   * The outcome of `addCar`: bad `carData` JSON (`carData == None`) is
   * refused first, then a missing main image; otherwise the files are
   * uploaded and the record assembled under identity `id`.
   */
  function PlanAddCar(caller: Id, id: Id, carData: Option<CarPatch>, mainFile: Option<ReceivedFile>,
                      extraFiles: seq<ReceivedFile>, upload: ReceivedFile -> Upload): (r: Result<Car, OwnerError>)
    ensures r == Failure(InvalidCarData) <==> carData.None?
    ensures r == Failure(MainImageRequired) <==> carData.Some? && mainFile.None?
    ensures r == Failure(CarValidationFailed) <==>
      carData.Some? && mainFile.Some? && !Complete(carData.value, upload(mainFile.value))
    ensures r.Success? ==>
      && r.value.id == id && r.value.owner == Some(caller)
      && r.value.image == upload(mainFile.value).url
      && |r.value.images| == |extraFiles|
      && forall i :: 0 <= i < |extraFiles| ==> r.value.images[i] == upload(extraFiles[i]).url
  {
    if carData.None? then Failure(InvalidCarData)
    else if mainFile.None? then Failure(MainImageRequired)
    else AssembleCar(carData.value, caller, id, upload(mainFile.value), UploadAll(extraFiles, upload))
  }

  /** `addCar`: appends the planned car under the next identity, or changes nothing. */
  method AddCar(db: Database, caller: Id, carData: Option<CarPatch>, mainFile: Option<ReceivedFile>,
                extraFiles: seq<ReceivedFile>, upload: ReceivedFile -> Upload) returns (r: Result<Car, OwnerError>)
    requires db.Valid()
    modifies db
    ensures db.Valid()
    ensures r == PlanAddCar(caller, old(db.nextCarId), carData, mainFile, extraFiles, upload)
    ensures r.Success? ==> db.cars == old(db.cars) + [r.value] && db.nextCarId == old(db.nextCarId) + 1
    ensures r.Failure? ==> db.cars == old(db.cars) && db.nextCarId == old(db.nextCarId)
    ensures db.users == old(db.users) && db.bookings == old(db.bookings) && db.nextBookingId == old(db.nextBookingId)
  {
    r := PlanAddCar(caller, db.nextCarId, carData, mainFile, extraFiles, upload);
    if r.Success? {
      StoreNewCar(db, r.value);
    }
  }

  /** `Car.create` storing a record under the next identity. */
  method StoreNewCar(db: Database, car: Car)
    requires db.Valid() && car.id == db.nextCarId
    modifies db
    ensures db.Valid()
    ensures db.cars == old(db.cars) + [car] && db.nextCarId == old(db.nextCarId) + 1
    ensures db.users == old(db.users) && db.bookings == old(db.bookings) && db.nextBookingId == old(db.nextBookingId)
  {
    AppendFreshCar(db.cars, car, db.nextCarId);
    db.cars := db.cars + [car];
    db.nextCarId := db.nextCarId + 1;
  }

  /**
   * The `updates` object of `updateCar` as written: a new cover replaces
   * `image` and `imageFileId`; new gallery files replace `images` and
   * `imageFileIds` wholesale, index-aligned; the top-level `owner` and `_id`
   * are deleted, and a `$set` operator of the request is left as it came.
   */
  function BuildUpdatesAsWritten(patch: CarPatch, mainUp: Option<Upload>, extraUps: seq<Upload>): (u: CarPatch)
    ensures u.owner.None? && u.id.None?
    ensures mainUp.Some? ==> u.image == Some(mainUp.value.url) && u.imageFileId == Some(mainUp.value.fileId)
    ensures mainUp.None? ==> u.image == patch.image && u.imageFileId == patch.imageFileId
    ensures |extraUps| > 0 ==>
      && u.images.Some? && u.imageFileIds.Some?
      && |u.images.value| == |extraUps| == |u.imageFileIds.value|
      && forall i :: 0 <= i < |extraUps| ==>
           u.images.value[i] == extraUps[i].url && u.imageFileIds.value[i] == extraUps[i].fileId
    ensures |extraUps| == 0 ==> u.images == patch.images && u.imageFileIds == patch.imageFileIds
    ensures u.(owner := patch.owner, id := patch.id, image := patch.image, imageFileId := patch.imageFileId,
               images := patch.images, imageFileIds := patch.imageFileIds) == patch
  {
    var withCover := if mainUp.Some? then patch.(image := Some(mainUp.value.url), imageFileId := Some(mainUp.value.fileId)) else patch;
    var withGallery := if |extraUps| > 0 then withCover.(images := Some(Urls(extraUps)), imageFileIds := Some(FileIds(extraUps))) else withCover;
    withGallery.(owner := None, id := None)
  }

  /**
   * `findByIdAndUpdate(carId, updates)`: every present field overwrites, the
   * schema trims brand and model, and an `owner` under `$set` is applied too
   * (a top-level `owner` takes precedence over it in this model).
   */
  function ApplyPatch(c: Car, u: CarPatch): (r: Car)
    ensures u.owner.None? && u.setOwner.Some? ==> r.owner == u.setOwner.value
    ensures u.owner.None? && u.setOwner.None? ==> r.owner == c.owner
    ensures u.id.None? ==> r.id == c.id
    ensures u.id.Some? ==> r.id == u.id.value
    ensures r.brand == (if u.brand.Some? then Trim(u.brand.value) else c.brand)
    ensures r.model == (if u.model.Some? then Trim(u.model.value) else c.model)
    ensures (u.image.Some? ==> r.image == u.image.value) && (u.image.None? ==> r.image == c.image)
    ensures (u.year.Some? ==> r.year == u.year.value) && (u.year.None? ==> r.year == c.year)
    ensures (u.category.Some? ==> r.category == u.category.value) && (u.category.None? ==> r.category == c.category)
    ensures (u.seatingCapacity.Some? ==> r.seatingCapacity == u.seatingCapacity.value)
         && (u.seatingCapacity.None? ==> r.seatingCapacity == c.seatingCapacity)
    ensures (u.fuelType.Some? ==> r.fuelType == u.fuelType.value) && (u.fuelType.None? ==> r.fuelType == c.fuelType)
    ensures (u.transmission.Some? ==> r.transmission == u.transmission.value)
         && (u.transmission.None? ==> r.transmission == c.transmission)
    ensures (u.pricePerDay.Some? ==> r.pricePerDay == u.pricePerDay.value)
         && (u.pricePerDay.None? ==> r.pricePerDay == c.pricePerDay)
    ensures (u.location.Some? ==> r.location == u.location.value) && (u.location.None? ==> r.location == c.location)
    ensures (u.description.Some? ==> r.description == u.description.value)
         && (u.description.None? ==> r.description == c.description)
    ensures (u.isAvailable.Some? ==> r.isAvailable == u.isAvailable) && (u.isAvailable.None? ==> r.isAvailable == c.isAvailable)
    ensures r.legacyAvaliable == c.legacyAvaliable
    ensures (u.images.Some? ==> r.images == u.images.value) && (u.images.None? ==> r.images == c.images)
    ensures (u.imageFileId.Some? ==> r.imageFileId == u.imageFileId.value)
         && (u.imageFileId.None? ==> r.imageFileId == c.imageFileId)
    ensures (u.imageFileIds.Some? ==> r.imageFileIds == u.imageFileIds.value)
         && (u.imageFileIds.None? ==> r.imageFileIds == c.imageFileIds)
  {
    Car(
      u.id.GetOr(c.id),
      if u.owner.Some? then u.owner.value else u.setOwner.GetOr(c.owner),
      if u.brand.Some? then Trim(u.brand.value) else c.brand,
      if u.model.Some? then Trim(u.model.value) else c.model,
      u.image.GetOr(c.image),
      u.year.GetOr(c.year),
      u.category.GetOr(c.category),
      u.seatingCapacity.GetOr(c.seatingCapacity),
      u.fuelType.GetOr(c.fuelType),
      u.transmission.GetOr(c.transmission),
      u.pricePerDay.GetOr(c.pricePerDay),
      u.location.GetOr(c.location),
      u.description.GetOr(c.description),
      if u.isAvailable.Some? then u.isAvailable else c.isAvailable,
      c.legacyAvaliable,
      u.images.GetOr(c.images),
      u.imageFileId.GetOr(c.imageFileId),
      u.imageFileIds.GetOr(c.imageFileIds))
  }

  /**
   * As written, the deletes do not reach `$set`: a request carrying
   * `{"$set": {"owner": other}}` hands the car to `other`.
   */
  lemma UpdateAsWrittenReassignsOwner(c: Car, patch: CarPatch, mainUp: Option<Upload>, extraUps: seq<Upload>, other: Option<Id>)
    requires patch.setOwner == Some(other)
    ensures ApplyPatch(c, BuildUpdatesAsWritten(patch, mainUp, extraUps)).owner == other
    ensures ApplyPatch(c, BuildUpdatesAsWritten(patch, mainUp, extraUps)).id == c.id
  {
  }

  /**
   * The protected `updates`: as written, and in addition the `owner` under
   * `$set` removed, so that no part of the request reaches the owner.
   */
  function BuildUpdates(patch: CarPatch, mainUp: Option<Upload>, extraUps: seq<Upload>): (u: CarPatch)
    ensures u.owner.None? && u.id.None? && u.setOwner.None?
    ensures u.(setOwner := patch.setOwner) == BuildUpdatesAsWritten(patch, mainUp, extraUps)
  {
    BuildUpdatesAsWritten(patch, mainUp, extraUps).(setOwner := None)
  }

  /** With the protection complete, an edited car keeps its identity and its owner whatever fields the request carries. */
  lemma UpdateKeepsIdentityAndOwner(c: Car, patch: CarPatch, mainUp: Option<Upload>, extraUps: seq<Upload>)
    ensures ApplyPatch(c, BuildUpdates(patch, mainUp, extraUps)).id == c.id
    ensures ApplyPatch(c, BuildUpdates(patch, mainUp, extraUps)).owner == c.owner
    ensures |extraUps| > 0 ==> ApplyPatch(c, BuildUpdates(patch, mainUp, extraUps)).images == Urls(extraUps)
  {
  }

  /** The body of an edit: the request fields, or `carData` parsed as JSON (`None` when it does not parse). */
  datatype UpdateBody = Fields(patch: CarPatch) | CarDataJson(parsed: Option<CarPatch>)

  /** The checks of `updateCar`, in order: the identity, the car, its owner, the JSON; the index of the car. */
  function PlanUpdateCar(cars: seq<Car>, caller: Id, carId: Option<Id>, body: UpdateBody): (r: Result<nat, OwnerError>)
    ensures r == Failure(CarIdRequired) <==> carId.None?
    ensures r == Failure(CarNotFound) <==> carId.Some? && CarIndex(cars, carId.value).None?
    ensures r == Failure(Unauthorized) <==>
      carId.Some? && CarIndex(cars, carId.value).Some? && cars[CarIndex(cars, carId.value).value].owner != Some(caller)
    ensures r == Failure(InvalidCarData) <==>
      carId.Some? && CarIndex(cars, carId.value).Some? && cars[CarIndex(cars, carId.value).value].owner == Some(caller)
      && body == CarDataJson(None)
    ensures r.Success? ==> r.value < |cars| && Some(cars[r.value].id) == carId && cars[r.value].owner == Some(caller)
  {
    if carId.None? then Failure(CarIdRequired)
    else match CarIndex(cars, carId.value)
      case None => Failure(CarNotFound)
      case Some(k) =>
        if cars[k].owner != Some(caller) then Failure(Unauthorized)
        else if body == CarDataJson(None) then Failure(InvalidCarData)
        else Success(k)
  }

  function BodyPatch(body: UpdateBody): CarPatch
    requires body != CarDataJson(None)
  {
    match body
    case Fields(p) => p
    case CarDataJson(p) => p.value
  }

  /** `updateCar`: on success the one car gets the sanitised updates; on failure nothing changes. */
  method UpdateCar(db: Database, caller: Id, carId: Option<Id>, body: UpdateBody, mainFile: Option<ReceivedFile>,
                   extraFiles: seq<ReceivedFile>, upload: ReceivedFile -> Upload) returns (r: Result<Car, OwnerError>)
    requires db.Valid()
    modifies db
    ensures db.Valid()
    ensures var plan := PlanUpdateCar(old(db.cars), caller, carId, body);
      && (plan.Failure? ==> r == Failure(plan.error) && db.cars == old(db.cars))
      && (plan.Success? ==>
            var mainUp := if mainFile.Some? then Some(upload(mainFile.value)) else None;
            var updated := ApplyPatch(old(db.cars)[plan.value], BuildUpdates(BodyPatch(body), mainUp, UploadAll(extraFiles, upload)));
            db.cars == old(db.cars)[plan.value := updated] && r == Success(updated))
    ensures db.users == old(db.users) && db.bookings == old(db.bookings)
    ensures db.nextCarId == old(db.nextCarId) && db.nextBookingId == old(db.nextBookingId)
  {
    if carId.None? {
      return Failure(CarIdRequired);
    }
    var found := CarIndex(db.cars, carId.value);
    if found.None? {
      return Failure(CarNotFound);
    }
    var k := found.value;
    if db.cars[k].owner != Some(caller) {
      return Failure(Unauthorized);
    }
    var updates: CarPatch;
    match body {
      case Fields(p) => updates := p;
      case CarDataJson(parsed) =>
        if parsed.None? {
          return Failure(InvalidCarData);
        }
        updates := parsed.value;
    }
    var mainUp: Option<Upload> := None;
    if mainFile.Some? {
      var up := upload(mainFile.value);
      mainUp := Some(up);
      updates := updates.(image := Some(up.url), imageFileId := Some(up.fileId));
    }
    var extraUps := UploadAll(extraFiles, upload);
    if |extraUps| > 0 {
      updates := updates.(images := Some(Urls(extraUps)), imageFileIds := Some(FileIds(extraUps)));
    }
    updates := updates.(owner := None);
    updates := updates.(id := None);
    assert updates == BuildUpdatesAsWritten(BodyPatch(body), mainUp, extraUps);
    // The intended protection also reaches an `owner` under `$set`.
    updates := updates.(setOwner := None);
    assert updates == BuildUpdates(BodyPatch(body), mainUp, extraUps);
    var updated := ApplyPatch(db.cars[k], updates);
    db.cars := db.cars[k := updated];
    r := Success(updated);
  }

  // ---------------------------------------------------------------------
  // toggleCarAvailability and deleteCar
  // ---------------------------------------------------------------------

  /** `typeof car.isAvailable === "boolean" ? car.isAvailable : !!car.isAvaliable`. */
  function CurrentAvailability(c: Car): bool
  {
    if c.isAvailable.Some? then c.isAvailable.value else c.legacyAvaliable == Some(true)
  }

  /** The car after a toggle: the flag is the opposite of the current value, the legacy field is cleared. */
  function ToggledCar(c: Car): (r: Car)
    ensures r.isAvailable == Some(!CurrentAvailability(c)) && r.legacyAvaliable.None?
    ensures r.(isAvailable := c.isAvailable, legacyAvaliable := c.legacyAvaliable) == c
  {
    c.(isAvailable := Some(!CurrentAvailability(c)), legacyAvaliable := None)
  }

  /** Toggling twice restores the availability; a car with a boolean flag differs only in the cleared legacy field. */
  lemma ToggleTwice(c: Car)
    ensures ToggledCar(ToggledCar(c)).isAvailable == Some(CurrentAvailability(c))
    ensures c.isAvailable.Some? ==> ToggledCar(ToggledCar(c)) == c.(legacyAvaliable := None)
  {
  }

  /** The checks of `toggleCarAvailability`: the car, its owner; the index of the car. */
  function PlanToggle(cars: seq<Car>, caller: Id, carId: Id): (r: Result<nat, OwnerError>)
    ensures r == Failure(CarNotFound) <==> CarIndex(cars, carId).None?
    ensures r == Failure(Unauthorized) <==>
      CarIndex(cars, carId).Some? && cars[CarIndex(cars, carId).value].owner != Some(caller)
    ensures r.Success? ==> r.value < |cars| && cars[r.value].id == carId && cars[r.value].owner == Some(caller)
  {
    match CarIndex(cars, carId)
    case None => Failure(CarNotFound)
    case Some(k) => if cars[k].owner != Some(caller) then Failure(Unauthorized) else Success(k)
  }

  /** `toggleCarAvailability`: flips the one car's flag and clears its legacy field, or changes nothing. */
  method ToggleCarAvailability(db: Database, caller: Id, carId: Id) returns (r: Result<Car, OwnerError>)
    requires db.Valid()
    modifies db
    ensures db.Valid()
    ensures var plan := PlanToggle(old(db.cars), caller, carId);
      && (plan.Failure? ==> r == Failure(plan.error) && db.cars == old(db.cars))
      && (plan.Success? ==> db.cars == old(db.cars)[plan.value := ToggledCar(old(db.cars)[plan.value])]
                            && r == Success(db.cars[plan.value]))
    ensures db.users == old(db.users) && db.bookings == old(db.bookings)
    ensures db.nextCarId == old(db.nextCarId) && db.nextBookingId == old(db.nextBookingId)
  {
    var found := CarIndex(db.cars, carId);
    if found.None? {
      return Failure(CarNotFound);
    }
    var k := found.value;
    var car := db.cars[k];
    if car.owner != Some(caller) {
      return Failure(Unauthorized);
    }
    var current := if car.isAvailable.Some? then car.isAvailable.value else car.legacyAvaliable == Some(true);
    car := car.(isAvailable := Some(!current));
    car := car.(legacyAvaliable := None);
    db.cars := db.cars[k := car];
    r := Success(car);
  }

  /** The car after the soft delete: no owner, not available, everything else kept. */
  function SoftDeleted(c: Car): (r: Car)
    ensures r.owner.None? && r.isAvailable == Some(false)
    ensures r.(owner := c.owner, isAvailable := c.isAvailable) == c
  {
    c.(owner := None, isAvailable := Some(false))
  }

  /** The checks of `deleteCar`, in order: the identity, the car, its owner; the index of the car. */
  function PlanDelete(cars: seq<Car>, caller: Id, carId: Option<Id>): (r: Result<nat, OwnerError>)
    ensures r == Failure(CarIdRequired) <==> carId.None?
    ensures r == Failure(CarNotFound) <==> carId.Some? && CarIndex(cars, carId.value).None?
    ensures r == Failure(Unauthorized) <==>
      carId.Some? && CarIndex(cars, carId.value).Some? && cars[CarIndex(cars, carId.value).value].owner != Some(caller)
    ensures r.Success? ==> r.value < |cars| && Some(cars[r.value].id) == carId && cars[r.value].owner == Some(caller)
  {
    if carId.None? then Failure(CarIdRequired)
    else match CarIndex(cars, carId.value)
      case None => Failure(CarNotFound)
      case Some(k) => if cars[k].owner != Some(caller) then Failure(Unauthorized) else Success(k)
  }

  /** `deleteCar`: a soft delete; the record stays in the store. */
  method DeleteCar(db: Database, caller: Id, carId: Option<Id>) returns (err: Option<OwnerError>)
    requires db.Valid()
    modifies db
    ensures db.Valid()
    ensures var plan := PlanDelete(old(db.cars), caller, carId);
      && (plan.Failure? ==> err == Some(plan.error) && db.cars == old(db.cars))
      && (plan.Success? ==> err.None? && db.cars == old(db.cars)[plan.value := SoftDeleted(old(db.cars)[plan.value])])
    ensures |db.cars| == |old(db.cars)|
    ensures db.users == old(db.users) && db.bookings == old(db.bookings)
    ensures db.nextCarId == old(db.nextCarId) && db.nextBookingId == old(db.nextBookingId)
  {
    if carId.None? {
      return Some(CarIdRequired);
    }
    var found := CarIndex(db.cars, carId.value);
    if found.None? {
      return Some(CarNotFound);
    }
    var k := found.value;
    var car := db.cars[k];
    if car.owner != Some(caller) {
      return Some(Unauthorized);
    }
    car := car.(owner := None);
    car := car.(isAvailable := Some(false));
    db.cars := db.cars[k := car];
    err := None;
  }

  /**
   * `deleteCar` as written: after the same checks it saves the car with
   * `owner = null`, and the save validates the schema, whose `owner` path is
   * required (server/models/Car.js:7). The save is refused and the record
   * is left as it was.
   */
  function PlanDeleteAsWritten(cars: seq<Car>, caller: Id, carId: Option<Id>): (r: Result<nat, OwnerError>)
    ensures PlanDelete(cars, caller, carId).Failure? ==> r == PlanDelete(cars, caller, carId)
  {
    match PlanDelete(cars, caller, carId)
    case Failure(e) => Failure(e)
    case Success(k) =>
      // The save-time check of the required `owner` path.
      if SoftDeleted(cars[k]).owner.None? then Failure(OwnerPathRequired) else Success(k)
  }

  /** As written, no delete succeeds: a car the caller owns is refused by the schema instead of being removed. */
  lemma DeleteAsWrittenNeverSucceeds(cars: seq<Car>, caller: Id, carId: Option<Id>)
    ensures PlanDeleteAsWritten(cars, caller, carId).Failure?
    ensures PlanDelete(cars, caller, carId).Success? ==>
      PlanDeleteAsWritten(cars, caller, carId) == Failure(OwnerPathRequired)
  {
  }

  /**
   * After a soft delete the car is kept under the same identity, drops out of
   * every availability search, and a second delete by the same caller is
   * refused because the car no longer has an owner.
   */
  lemma DeleteIsFinal(cars: seq<Car>, caller: Id, carId: Id, location: string)
    requires PlanDelete(cars, caller, Some(carId)).Success?
    ensures var k := PlanDelete(cars, caller, Some(carId)).value;
      var after := cars[k := SoftDeleted(cars[k])];
      && CarIndex(after, carId) == Some(k)
      && !BookingController.Listed(after[k], location)
      && PlanDelete(after, caller, Some(carId)) == Failure(Unauthorized)
      && PlanToggle(after, caller, carId) == Failure(Unauthorized)
  {
    var k := PlanDelete(cars, caller, Some(carId)).value;
    var after := cars[k := SoftDeleted(cars[k])];
    assert forall j :: 0 <= j < |cars| ==> after[j].id == cars[j].id;
    assert CarIndex(after, carId) == CarIndex(cars, carId);
  }

  // ---------------------------------------------------------------------
  // getDashboardData
  // ---------------------------------------------------------------------

  datatype Dashboard = Dashboard(
    totalCars: nat,
    totalBookings: nat,
    pendingBookings: nat,
    completedBookings: nat,
    recentBookings: seq<Booking>,
    monthlyRevenue: int)

  /** `countDocuments({ owner, status })`. */
  function CountOwned(bookings: seq<Booking>, owner: Id, st: Status): nat
  {
    |Filter(bookings, (b: Booking) => b.owner == Some(owner) && b.status == st)|
  }

  /** The `$sum` of `price` over the owner's confirmed bookings; 0 when there are none. */
  function Revenue(bookings: seq<Booking>, owner: Id): int
    decreases |bookings|
  {
    if bookings == [] then 0
    else (if bookings[0].owner == Some(owner) && bookings[0].status == Confirmed then bookings[0].price else 0)
         + Revenue(bookings[1..], owner)
  }

  lemma {:induction false} RevenueConcat(a: seq<Booking>, b: seq<Booking>, owner: Id)
    ensures Revenue(a + b, owner) == Revenue(a, owner) + Revenue(b, owner)
    decreases |a|
  {
    if a == [] {
      assert a + b == b;
    } else {
      assert (a + b)[0] == a[0];
      assert (a + b)[1..] == a[1..] + b;
      RevenueConcat(a[1..], b, owner);
    }
  }

  /** With no confirmed booking of the owner the revenue is 0. */
  lemma {:induction false} RevenueWithoutConfirmed(bookings: seq<Booking>, owner: Id)
    requires forall i :: 0 <= i < |bookings| ==> !(bookings[i].owner == Some(owner) && bookings[i].status == Confirmed)
    ensures Revenue(bookings, owner) == 0
    decreases |bookings|
  {
    if bookings != [] {
      RevenueWithoutConfirmed(bookings[1..], owner);
    }
  }

  /** The owner's bookings, in store order (`find({ owner })`). */
  function OwnedBookings(bookings: seq<Booking>, owner: Id): seq<Booking>
  {
    Filter(bookings, (b: Booking) => b.owner == Some(owner))
  }

  /**
   * `find({ owner }).sort({ createdAt: -1 }).limit(5)`: the owner's five
   * newest bookings, or all of them when there are fewer, newest first.
   */
  function Recent(bookings: seq<Booking>, owner: Id): (r: seq<Booking>)
    ensures |r| == (if |OwnedBookings(bookings, owner)| < 5 then |OwnedBookings(bookings, owner)| else 5)
    ensures NewestFirstOrder(r)
    ensures forall i :: 0 <= i < |r| ==> r[i] in bookings && r[i].owner == Some(owner)
    ensures r == Take(SortNewestFirst(OwnedBookings(bookings, owner)), 5)
  {
    SortedOwned(bookings, owner);
    Take(SortNewestFirst(OwnedBookings(bookings, owner)), 5)
  }

  /**
   * The recent list holds the newest: it is drawn from the owner's bookings,
   * and a booking of the owner left out of it is no newer than the last one
   * shown, which happens only when five are shown.
   */
  lemma RecentAreNewest(bookings: seq<Booking>, owner: Id)
    ensures multiset(Recent(bookings, owner)) <= multiset(OwnedBookings(bookings, owner))
    ensures forall b :: b in multiset(OwnedBookings(bookings, owner)) - multiset(Recent(bookings, owner)) ==>
      |Recent(bookings, owner)| == 5 && b.createdAt <= Recent(bookings, owner)[4].createdAt
  {
    var owned := OwnedBookings(bookings, owner);
    var newest := SortNewestFirst(owned);
    if |newest| > 5 {
      NewestPrefix(newest, 5);
      assert Recent(bookings, owner) == newest[..5];
    } else {
      assert Recent(bookings, owner) == newest;
    }
  }

  /** Cutting a newest-first list after `k` leaves out exactly its tail, none of it newer than the last kept. */
  lemma NewestPrefix(newest: seq<Booking>, k: nat)
    requires NewestFirstOrder(newest) && 0 < k < |newest|
    ensures multiset(newest) - multiset(newest[..k]) == multiset(newest[k..])
    ensures forall b :: b in multiset(newest[k..]) ==> b.createdAt <= newest[k - 1].createdAt
  {
    var rest := newest[k..];
    assert newest == newest[..k] + rest;
    assert multiset(newest) == multiset(newest[..k]) + multiset(rest);
    forall b: Booking | b in multiset(rest) ensures b.createdAt <= newest[k - 1].createdAt {
      var j :| 0 <= j < |rest| && rest[j] == b;
      assert newest[k + j] == b;
    }
  }

  /** Sorting the owner's bookings keeps them: the same bookings, as many, and each one the owner's. */
  lemma SortedOwned(bookings: seq<Booking>, owner: Id)
    ensures var newest := SortNewestFirst(OwnedBookings(bookings, owner));
      && multiset(newest) == multiset(OwnedBookings(bookings, owner))
      && |newest| == |OwnedBookings(bookings, owner)|
      && forall i :: 0 <= i < |newest| ==> newest[i] in bookings && newest[i].owner == Some(owner)
  {
    var owned := OwnedBookings(bookings, owner);
    var newest := SortNewestFirst(owned);
    assert |newest| == |owned| by {
      assert |multiset(newest)| == |multiset(owned)|;
    }
    forall i | 0 <= i < |newest| ensures newest[i] in bookings && newest[i].owner == Some(owner) {
      assert newest[i] in multiset(owned);
      var j :| 0 <= j < |owned| && owned[j] == newest[i];
    }
  }

  /**
   * `getDashboardData`: refused to a caller whose role is not owner;
   * otherwise the caller's counts, the five newest bookings and the revenue.
   */
  function DashboardData(cars: seq<Car>, bookings: seq<Booking>, caller: User): (r: Result<Dashboard, OwnerError>)
    ensures r.Failure? <==> caller.role != Owner
    ensures r.Failure? ==> r.error == Unauthorized
    ensures r.Success? ==>
      && r.value.totalCars == |Filter(cars, (c: Car) => c.owner == Some(caller.id))|
      && r.value.totalBookings == |OwnedBookings(bookings, caller.id)|
      && r.value.pendingBookings == CountOwned(bookings, caller.id, Pending)
      && r.value.completedBookings == CountOwned(bookings, caller.id, Confirmed)
      && r.value.monthlyRevenue == Revenue(bookings, caller.id)
    ensures r.Success? ==>
      && r.value.pendingBookings + r.value.completedBookings <= r.value.totalBookings
      && r.value.totalCars <= |cars| && r.value.totalBookings <= |bookings|
      && r.value.recentBookings == Recent(bookings, caller.id)
      && |r.value.recentBookings| == (if r.value.totalBookings < 5 then r.value.totalBookings else 5)
  {
    if caller.role != Owner then Failure(Unauthorized)
    else
      OwnedCountsBound(bookings, caller.id);
      Success(Dashboard(
        |Filter(cars, (c: Car) => c.owner == Some(caller.id))|,
        |OwnedBookings(bookings, caller.id)|,
        CountOwned(bookings, caller.id, Pending),
        CountOwned(bookings, caller.id, Confirmed),
        Recent(bookings, caller.id),
        Revenue(bookings, caller.id)))
  }

  /** The pending and the confirmed bookings of an owner are disjoint parts of the owner's bookings. */
  lemma {:induction false} OwnedCountsBound(bookings: seq<Booking>, owner: Id)
    ensures CountOwned(bookings, owner, Pending) + CountOwned(bookings, owner, Confirmed)
         <= |OwnedBookings(bookings, owner)|
    decreases |bookings|
  {
    if bookings != [] {
      OwnedCountsBound(bookings[1..], owner);
    }
  }

  /** Replacing one booking changes a count by what that one booking contributed before and after. */
  lemma CountAfterReplace(bookings: seq<Booking>, i: nat, x: Booking, owner: Id, st: Status)
    requires i < |bookings|
    ensures var p := (b: Booking) => b.owner == Some(owner) && b.status == st;
      CountOwned(bookings[i := x], owner, st)
        == CountOwned(bookings, owner, st) - (if p(bookings[i]) then 1 else 0) + (if p(x) then 1 else 0)
  {
    var p := (b: Booking) => b.owner == Some(owner) && b.status == st;
    var a, c := bookings[..i], bookings[i + 1..];
    assert bookings == a + [bookings[i]] + c;
    assert bookings[i := x] == a + [x] + c;
    FilterConcat(a + [bookings[i]], c, p);
    FilterConcat(a, [bookings[i]], p);
    FilterConcat(a + [x], c, p);
    FilterConcat(a, [x], p);
  }

  /** Replacing one booking changes the revenue by what that one booking contributed before and after. */
  lemma RevenueAfterReplace(bookings: seq<Booking>, i: nat, x: Booking, owner: Id)
    requires i < |bookings|
    ensures Revenue(bookings[i := x], owner)
         == Revenue(bookings, owner) - Revenue([bookings[i]], owner) + Revenue([x], owner)
  {
    var a, c := bookings[..i], bookings[i + 1..];
    assert bookings == a + [bookings[i]] + c;
    assert bookings[i := x] == a + [x] + c;
    RevenueConcat(a + [bookings[i]], c, owner);
    RevenueConcat(a, [bookings[i]], owner);
    RevenueConcat(a + [x], c, owner);
    RevenueConcat(a, [x], owner);
  }

  /**
   * Confirming one of the owner's pending bookings through `updateBookingStatus`
   * moves it from the pending count to the confirmed count and adds its price
   * to the revenue.
   */
  lemma ConfirmingMovesToRevenue(bookings: seq<Booking>, caller: Id, bookingId: Id, status: Option<string>)
    requires PlanUpdateBookingStatus(bookings, caller, bookingId, status).Success?
    requires PlanUpdateBookingStatus(bookings, caller, bookingId, status).value.1 == Confirmed
    requires bookings[PlanUpdateBookingStatus(bookings, caller, bookingId, status).value.0].status == Pending
    ensures var i := PlanUpdateBookingStatus(bookings, caller, bookingId, status).value.0;
      var after := BookingController.SetStatus(bookings, i, Confirmed);
      && CountOwned(after, caller, Pending) == CountOwned(bookings, caller, Pending) - 1
      && CountOwned(after, caller, Confirmed) == CountOwned(bookings, caller, Confirmed) + 1
      && Revenue(after, caller) == Revenue(bookings, caller) + bookings[i].price
  {
    var i := PlanUpdateBookingStatus(bookings, caller, bookingId, status).value.0;
    var x := bookings[i].(status := Confirmed);
    CountAfterReplace(bookings, i, x, caller, Pending);
    CountAfterReplace(bookings, i, x, caller, Confirmed);
    RevenueAfterReplace(bookings, i, x, caller);
  }

  /**
   * What an owner's dashboard shows after `updateBookingStatus` confirms one
   * of their pending bookings: one pending fewer, one confirmed more, its
   * price added to the revenue, and as many bookings and cars as before.
   */
  lemma DashboardAfterConfirm(cars: seq<Car>, bookings: seq<Booking>, caller: User, bookingId: Id, status: Option<string>)
    requires caller.role == Owner
    requires PlanUpdateBookingStatus(bookings, caller.id, bookingId, status).Success?
    requires PlanUpdateBookingStatus(bookings, caller.id, bookingId, status).value.1 == Confirmed
    requires bookings[PlanUpdateBookingStatus(bookings, caller.id, bookingId, status).value.0].status == Pending
    ensures var i := PlanUpdateBookingStatus(bookings, caller.id, bookingId, status).value.0;
      var before := DashboardData(cars, bookings, caller).value;
      var after := DashboardData(cars, BookingController.SetStatus(bookings, i, Confirmed), caller).value;
      && after.pendingBookings == before.pendingBookings - 1
      && after.completedBookings == before.completedBookings + 1
      && after.monthlyRevenue == before.monthlyRevenue + bookings[i].price
      && after.totalBookings == before.totalBookings
      && after.totalCars == before.totalCars
  {
    var i := PlanUpdateBookingStatus(bookings, caller.id, bookingId, status).value.0;
    ConfirmingMovesToRevenue(bookings, caller.id, bookingId, status);
    var x := bookings[i].(status := Confirmed);
    FilterReplaceLength(bookings, i, x, (b: Booking) => b.owner == Some(caller.id));
  }
}
