# CarRental core in Dafny

This project models the rules of the CarRental application, a car-rental
marketplace. Renters search for cars that are free over a date range and
book them. Owners list cars, edit them, toggle or withdraw them, and
approve or cancel the bookings made on their cars. The model covers:

- the booking engine (`server/controllers/bookingController.js`): the
  inclusive interval overlap test, the availability search, booking creation
  with its ordered validation and whole-day pricing, the two booking listings,
  and the status change;
- the owner handlers (`server/controllers/ownerController.js`): the role
  upgrade, car creation, the sanitised car update, the availability toggle
  with its legacy field, the soft delete, the case-insensitive status update,
  and the dashboard figures;
- the request guards: the bearer-token middleware (`server/middleware/auth.js`)
  and the upload-error classifier (`server/middleware/multerError.js`);
- the client state helpers: the car form's file checks, gallery capacity and
  combined-index removal (`CarForm.jsx`); the owner's booking and car lists
  (`ManageBookings.jsx`, `ManageCars.jsx`); the car page's gallery, selection
  and estimate (`CarDetails.jsx`); and the sign-up checks (`Login.jsx`).

The document store is the class `Models.Database`. It holds sequences of
users, cars and bookings, plus counters that stand in for the identities the
database allocates. A store query becomes a filter, a lookup or a fold over
those sequences.

Each handler that changes the store is a method with `modifies db`. Its
`ensures` ties it to a pure plan function, which states every error case in
the order the code checks it and gives the exact new record. Lemmas state the
properties that connect operations. Client pages are small classes whose
fields are the component state. Their methods are specified by functions on
the old state.

Dates are integer milliseconds. A request date is `Missing`, `Unparsable` or
`At(ms)`. Three external pieces become parameters:

- JWT verification is a function from a token to an optional identity;
- the image host is a function from a received file to its `(url, fileId)`;
- the client's `Number(...)` on text is a function from a string to an optional integer.

`server/models/Booking.js` is not part of this model. The Booking fields are
the ones `createBooking` writes (server/controllers/bookingController.js:97-105).

## Code and design

Where the application's design description and its code disagree, the model follows the code:

- The design expects the owner pages to apply a status or availability change locally, send it, and roll back on failure. The handlers (client/src/pages/owner/ManageBookings.jsx:73-79, client/src/pages/owner/ManageCars.jsx:40-48) change only the local list and send nothing. The model has the local change only.
- The design expects a removed car to be kept with its owner cleared and its flag off. `deleteCar` attempts that, but its save is refused by the schema (see Findings). `DeleteCar` models the intended outcome; `PlanDeleteAsWritten` models the refusal.
- The design leaves open whether cancelled bookings should free their dates. The overlap query ignores the status (server/controllers/bookingController.js:11-15), so a cancelled booking still blocks them (`StatusDoesNotFreeDates`).
- The design leaves open whether status transitions should be restricted. Both status handlers accept any of the three states from any state; `PlanStatusChange` and `PlanUpdateBookingStatus` do not consult the current status.

## Model

| member | source | states |
|---|---|---|
| BookingController.CheckAvailability | server/controllers/bookingController.js:10-18 | free exactly when no booking of that car has pickup ≤ requested return and return ≥ requested pickup; both ends are inclusive |
| BookingController.OverlapSymmetric | server/controllers/bookingController.js:7-8 | the overlap rule is symmetric in the two intervals |
| BookingController.OtherCarsIrrelevant | server/controllers/bookingController.js:11-15 | inserting a booking of another car changes neither the conflicts nor the answer |
| BookingController.StatusDoesNotFreeDates | server/controllers/bookingController.js:11-15 | a booking blocks its dates whatever its status, cancelled included |
| BookingController.SearchAvailableCars | server/controllers/bookingController.js:21-58 | the three request errors in order, each given as an if-and-only-if; success exactly when fields are present, dates parse and return > pickup; every result car is at the location, listed as available and free; every such car is in the result; the result is the free listed cars in candidate order (`FreeListedCars`) |
| BookingController.SearchKeepsOrder | server/controllers/bookingController.js:41-51 | the search distributes over concatenation of the candidate list, so it keeps the candidates' order |
| BookingController.SearchNoRepeats | server/controllers/bookingController.js:41-51 | the search never returns a car more often than the store holds it |
| BookingController.CeilDiv | server/controllers/bookingController.js:93 | the quotient q is the ceiling: d·(q−1) < n ≤ d·q |
| BookingController.BookingDays | server/controllers/bookingController.js:92-93 | at least one day; for a positive interval, the number of whole days that covers it |
| BookingController.BookingDaysExamples | server/controllers/bookingController.js:92-93 | exactly one day is 1, three days is 3, one millisecond is 1, one day and a millisecond is 2 |
| BookingController.PlanBooking | server/controllers/bookingController.js:61-112 | the five errors in the code's order, each an if-and-only-if; on success the pending booking with the car's owner, the caller, the given dates and price = pricePerDay × days |
| BookingController.PriceExamples | server/controllers/bookingController.js:93-95 | at 300 per day, one day costs 300 and three days 900 |
| BookingController.WrittenBookingBlocksOverlaps | server/controllers/bookingController.js:86-89 | after a booking is written, a later request for an overlapping range of the same car is refused as not available |
| BookingController.UnlistedCarIsBookable | server/controllers/bookingController.js:81-89 | booking does not consult the listing flag or the owner: a withdrawn car with free dates is still bookable |
| BookingController.CreateBooking | server/controllers/bookingController.js:61-112 | the result is the plan; on success exactly that booking is appended; on failure the store is unchanged; identities stay unique |
| BookingController.UserBookings | server/controllers/bookingController.js:115-128 | newest first, and the same bookings as those of the caller |
| BookingController.OwnerBookings | server/controllers/bookingController.js:131-147 | refused exactly when the role is not owner; otherwise the caller's owned bookings, newest first |
| BookingController.SetStatus | server/controllers/bookingController.js:169-170 | only the status of the one booking changes |
| BookingController.PlanStatusChange | server/controllers/bookingController.js:150-177 | exact, case-sensitive status names; then not found; then owner mismatch (a booking without owner raises the null-dereference error); success exactly when all three checks pass |
| BookingController.ChangeBookingStatus | server/controllers/bookingController.js:150-177 | the store changes as the plan says and in no other way |
| BookingController.StatusChangeIdempotent | server/controllers/bookingController.js:169-170 | repeating the same status change leaves the same store |
| Models.ParseStatus | server/controllers/bookingController.js:155-156 | a status is recognised exactly when it is one of the three names, and it spells back as that name |
| Models.SortNewestFirst | server/controllers/bookingController.js:121 | ordered by creation time, newest first, and a permutation of its input |
| OwnerController.WithOwnerRole | server/controllers/ownerController.js:11-20 | the caller's record gets role owner; every other record is unchanged |
| OwnerController.OwnerRoleIdempotent | server/controllers/ownerController.js:13-15 | a repeated upgrade leaves the same users |
| OwnerController.UpgradeOpensOwnerViews | server/controllers/ownerController.js:13-15 | after the upgrade the caller passes the owner-only checks of the booking listing and the dashboard |
| OwnerController.ChangeRoleToOwner | server/controllers/ownerController.js:11-20 | the users become the upgraded users; nothing else changes |
| OwnerController.NormalizeStatus | server/controllers/ownerController.js:132 | absent becomes ""; a given status is lower-cased character by character, keeping its length; the result is in lower case |
| OwnerController.PlanUpdateBookingStatus | server/controllers/ownerController.js:126-152 | invalid normalised status, then not found, then unauthorised (also when the booking has no owner), each an if-and-only-if; on success the stored name is the normalised input |
| OwnerController.UpdateBookingStatus | server/controllers/ownerController.js:126-152 | on success only that booking's status changes; on failure nothing changes |
| OwnerController.StatusHandlersAgree | server/controllers/ownerController.js:132-145 | whatever the booking controller's status change accepts, this handler accepts with the same booking and status |
| OwnerController.UpperCaseStatus | server/controllers/ownerController.js:132-135 | "CONFIRMED" is refused by the booking controller; this handler never refuses it as an invalid status, and stores it as confirmed when it succeeds |
| OwnerController.MissingStatusRefused | server/controllers/ownerController.js:132-135 | a missing or empty status is refused as invalid |
| OwnerController.AssembleCar | server/controllers/ownerController.js:79-88 | the caller is the owner; brand and model are the trimmed request values and every other schema field is the request's; the uploads give image, images and file ids index-aligned; availability defaults to true and no legacy flag is set; refused exactly when a required schema path is missing |
| OwnerController.AddCarIgnoresSuppliedOwner | server/controllers/ownerController.js:79-82 | an owner inside carData never changes the created car |
| OwnerController.PlanAddCar | server/controllers/ownerController.js:48-95 | bad JSON, then missing main image, then schema validation, each an if-and-only-if; on success the owner, identity and uploaded images |
| OwnerController.AddCar | server/controllers/ownerController.js:48-95 | the result is the plan; on success the car is appended under the next identity; otherwise nothing changes |
| OwnerController.BuildUpdatesAsWritten | server/controllers/ownerController.js:174-214 | the top-level owner and _id are removed; a new cover sets image and file id; new gallery files replace images and file ids wholesale, index-aligned; everything else, a `$set` operator included, is the request's |
| OwnerController.ApplyPatch | server/controllers/ownerController.js:216 | every field the updates carry overwrites the stored one (brand and model trimmed) and every absent field is kept; the legacy flag is kept; without a top-level owner the stored owner is the one under `$set` when there is one, and kept otherwise |
| OwnerController.UpdateAsWrittenReassignsOwner | server/controllers/ownerController.js:212-216 | as written, a request whose `$set` names an owner hands the car to that owner, identity kept |
| OwnerController.BuildUpdates | server/controllers/ownerController.js:212-214 | the protected updates: the as-written updates with the `owner` under `$set` removed as well, and nothing else different |
| OwnerController.UpdateKeepsIdentityAndOwner | server/controllers/ownerController.js:212-216 | with the protected updates, whatever fields or `$set.owner` the request carries, the edited car keeps its identity and owner, and new gallery files replace the gallery |
| OwnerController.PlanUpdateCar | server/controllers/ownerController.js:158-181 | carId required, then not found, then unauthorised, then bad JSON, each an if-and-only-if |
| OwnerController.UpdateCar | server/controllers/ownerController.js:155-223 | on success only that car changes, to the car patched with the protected updates (see Findings); on failure nothing changes |
| OwnerController.ToggledCar | server/controllers/ownerController.js:238-241 | the flag becomes the negation of the current availability (the boolean flag, else the legacy field's truthiness); the legacy field is cleared; nothing else changes |
| OwnerController.ToggleTwice | server/controllers/ownerController.js:238-241 | two toggles restore the availability; a car with a boolean flag comes back unchanged apart from the cleared legacy field |
| OwnerController.PlanToggle | server/controllers/ownerController.js:231-236 | not found, then unauthorised (also for a car without owner), each an if-and-only-if |
| OwnerController.ToggleCarAvailability | server/controllers/ownerController.js:226-249 | on success only that car is toggled; on failure nothing changes |
| OwnerController.SoftDeleted | server/controllers/ownerController.js:270-271 | the car loses its owner and becomes unavailable; nothing else changes |
| OwnerController.PlanDelete | server/controllers/ownerController.js:255-268 | carId required, then not found, then unauthorised, each an if-and-only-if |
| OwnerController.DeleteCar | server/controllers/ownerController.js:252-279 | the intended soft delete: on success that car is replaced by its soft-deleted form and the record count is kept; on failure nothing changes |
| OwnerController.DeleteIsFinal | server/controllers/ownerController.js:270-272 | the deleted car keeps its identity, drops out of every search, and a second delete or a toggle by the same caller is unauthorised |
| OwnerController.PlanDeleteAsWritten | server/controllers/ownerController.js:252-279 | the delete as written: the same checks, then a save that the schema's required owner path refuses |
| OwnerController.DeleteAsWrittenNeverSucceeds | server/models/Car.js:7 | as written, no delete succeeds; an owned car is refused with the owner-required validation error |
| OwnerController.DashboardData | server/controllers/ownerController.js:282-330 | refused exactly when the role is not owner; otherwise the owner's car count, booking count, pending and confirmed counts, the confirmed-price sum and `Recent`; pending + confirmed ≤ total; the recent list holds five, or all of the owner's bookings when fewer |
| OwnerController.Recent | server/controllers/ownerController.js:303-306 | the first five of the owner's bookings sorted newest first, or all of them when fewer; each one stored and owned by the owner, newest first |
| OwnerController.RecentAreNewest | server/controllers/ownerController.js:303-306 | the recent list is drawn from the owner's bookings without repeats, and an owner's booking left out is never newer than the last one shown, which happens only when five are shown |
| OwnerController.SortedOwned | server/controllers/ownerController.js:303-305 | sorting the owner's bookings by creation time gives the same bookings with the same multiplicities; each is the owner's |
| OwnerController.OwnedCountsBound | server/controllers/ownerController.js:290-301 | the pending and confirmed counts together never exceed the owner's bookings |
| OwnerController.RevenueConcat | server/controllers/ownerController.js:308-311 | the revenue sum is additive over concatenation |
| OwnerController.RevenueWithoutConfirmed | server/controllers/ownerController.js:313 | with no confirmed booking the revenue is 0 |
| OwnerController.CountAfterReplace | server/controllers/ownerController.js:293-301 | replacing one booking changes a status count only by what that booking contributed |
| OwnerController.RevenueAfterReplace | server/controllers/ownerController.js:308-313 | replacing one booking changes the revenue only by what that booking contributed |
| OwnerController.ConfirmingMovesToRevenue | server/controllers/ownerController.js:293-313 | confirming a pending booking lowers pending by one, raises confirmed by one and adds its price to the revenue |
| OwnerController.DashboardAfterConfirm | server/controllers/ownerController.js:282-313 | after confirming one of their pending bookings, the owner's dashboard shows one pending fewer, one confirmed more, the price added to the revenue, and unchanged car and booking totals |
| Auth.ExtractToken | server/middleware/auth.js:13 | with the "Bearer " prefix the token is what follows it up to the next space; otherwise the header verbatim |
| Auth.TokenRoundTrip | server/middleware/auth.js:13 | a space-free token comes back both from "Bearer token" and when sent bare |
| Auth.ExtraSegmentsDropped | server/middleware/auth.js:13 | only the second space-separated segment is the token |
| Auth.Authenticate | server/middleware/auth.js:4-27 | success exactly when the header is present and non-empty, the token verifies and the identity has a user; every failure is the same "Not authorized" |
| Auth.SameTokenSameUser | server/middleware/auth.js:13-17 | two headers with the same token authenticate alike |
| Auth.Exchange.Protect | server/middleware/auth.js:4-27 | on success the user is set and next runs exactly once; on failure the 401 reply is set and next does not run |
| MulterError.HandleUploadError | server/middleware/multerError.js:3-28 | no error calls next; every error gets status 400, success false and a non-empty message; the size limit, other multer codes and other errors get their own messages |
| MulterError.RepliesClassify | server/middleware/multerError.js:7-20 | the size message comes only from the size limit (or an error bearing that text); multer errors only get the two multer messages |
| MulterError.OtherCodesCollapse | server/middleware/multerError.js:16-20 | every multer code but the size limit gets the same reply |
| CarForm.ValidateFile | client/src/components/owner/CarForm.jsx:119-124 | no file is invalid; then a type not starting with image/; then a size above 5 MiB; otherwise "" |
| CarForm.SizeBoundary | client/src/components/owner/CarForm.jsx:24-26 | exactly 5·1024·1024 bytes passes and one more byte fails; a non-image or untyped file is refused |
| CarForm.CoverPreview | client/src/components/owner/CarForm.jsx:105-109 | the chosen file first, then a non-empty cover URL, then the upload icon |
| CarForm.GalleryPreviews | client/src/components/owner/CarForm.jsx:112-116 | the URLs before the files, cut at eight entries |
| CarForm.Accepted | client/src/components/owner/CarForm.jsx:158-170 | never more files than the free places, nor more than were chosen |
| CarForm.AcceptedFromInput | client/src/components/owner/CarForm.jsx:159-169 | every accepted file was chosen and passes the file check |
| CarForm.AcceptedIsTakeOfAcceptable | client/src/components/owner/CarForm.jsx:158-170 | the accepted files are the first `room` acceptable files in input order |
| CarForm.CollectAccepted | client/src/components/owner/CarForm.jsx:158-170 | the loop with break and continue yields the accepted files and the banner for the last skipped file |
| CarForm.Form.HandleCoverChange | client/src/components/owner/CarForm.jsx:127-140 | a valid file becomes the cover; an invalid one sets the prefixed banner and leaves the cover as it was |
| CarForm.Form.HandleGalleryChange | client/src/components/owner/CarForm.jsx:143-177 | with no free place, the limit banner and no change; otherwise the accepted files are appended after the existing ones; URLs plus files never go above eight |
| CarForm.Form.RemoveGalleryItem | client/src/components/owner/CarForm.jsx:180-198 | below the URL count a URL is removed, otherwise file k − count; the combined list loses exactly entry k |
| CarForm.CombinedRemoveAt | client/src/components/owner/CarForm.jsx:183-197 | removing from the list that holds index k removes entry k of the combined list |
| CarForm.Form.UpdateField | client/src/components/owner/CarForm.jsx:208-210 | only the named field changes |
| CarForm.SubmitError | client/src/components/owner/CarForm.jsx:217-227 | sending is allowed exactly when the trimmed brand and model are non-empty and, in create mode, a cover is chosen; blank brand or model is reported first, and a missing cover in create mode gets the cover message |
| CarForm.Numbered | client/src/components/owner/CarForm.jsx:229-234 | year, pricePerDay and seating_capacity become numbers; every other field is kept |
| CarForm.NumberedIdempotent | client/src/components/owner/CarForm.jsx:232-234 | converting twice is converting once |
| CarForm.Form.HandleSubmit | client/src/components/owner/CarForm.jsx:213-242 | the banner is the submit error; a payload is produced exactly when there is none |
| ManageBookings.StatusLabel | client/src/pages/owner/ManageBookings.jsx:26-33 | falsy gives "unknown"; "canceled" in any case gives "cancelled"; anything else comes back lower-cased |
| ManageBookings.StatusLabelIdempotent | client/src/pages/owner/ManageBookings.jsx:26-33 | labels are lower case, and labelling a label changes nothing |
| ManageBookings.StatusLabelIgnoresCase | client/src/pages/owner/ManageBookings.jsx:28 | a status and its lower-case form get the same label |
| ManageBookings.CancelledSpellings | client/src/pages/owner/ManageBookings.jsx:31 | "CANCELED" and "Cancelled" both show as "cancelled" |
| ManageBookings.FormatDate | client/src/pages/owner/ManageBookings.jsx:35-39 | falsy gives "-"; otherwise the text before the first "T" |
| ManageBookings.FormatDateOfTimestamp | client/src/pages/owner/ManageBookings.jsx:37-38 | an ISO timestamp shows as its date part |
| ManageBookings.FormatDateOfDate | client/src/pages/owner/ManageBookings.jsx:37-38 | a bare date is shown unchanged |
| ManageBookings.WithStatus | client/src/pages/owner/ManageBookings.jsx:73-79 | same length; only rows with that identity get the new status |
| ManageBookings.WithStatusLastWins | client/src/pages/owner/ManageBookings.jsx:73-79 | a later update overrides an earlier one; identities never change |
| ManageBookings.BookingList.UpdateStatus | client/src/pages/owner/ManageBookings.jsx:73-79 | the list becomes the updated list, and the total is kept |
| ManageBookings.TotalKeptByStatusUpdate | client/src/pages/owner/ManageBookings.jsx:66 | the header count is the list length, which a status update keeps |
| ManageCars.Toggled | client/src/pages/owner/ManageCars.jsx:40-48 | same length and order; only rows with that identity are flipped |
| ManageCars.ToggleTwiceRestores | client/src/pages/owner/ManageCars.jsx:94-100 | toggling the same identity twice restores the list |
| ManageCars.CarList.ToggleAvailability | client/src/pages/owner/ManageCars.jsx:40-48 | the toggle handler (and its twin `handleToggleAvailability`) replaces the list by its toggled form |
| ManageCars.Without | client/src/pages/owner/ManageCars.jsx:107-110 | no row with that identity remains; every other row stays |
| ManageCars.WithoutKeepsOrder | client/src/pages/owner/ManageCars.jsx:109 | removal distributes over concatenation (order kept) and is idempotent |
| ManageCars.WithoutAbsent | client/src/pages/owner/ManageCars.jsx:109 | removing an absent identity changes nothing |
| ManageCars.CarList.HandleDelete | client/src/pages/owner/ManageCars.jsx:107-110 | the list loses every row with that identity |
| ManageCars.GetStatus | client/src/pages/owner/ManageCars.jsx:79 | "Available" exactly when available, else "Unavailable" |
| ManageCars.GetStatusClasses | client/src/pages/owner/ManageCars.jsx:82-87 | green classes exactly for "Available", gray otherwise |
| ManageCars.BadgeFollowsAvailability | client/src/pages/owner/ManageCars.jsx:79-100 | after a toggle the badge is green exactly when the row is now available |
| ManageCars.Currency | client/src/pages/owner/ManageCars.jsx:51 | the configured currency when set and non-empty, else "$" |
| ManageCars.FormatPrice | client/src/pages/owner/ManageCars.jsx:76 | the currency and a space come first |
| ManageCars.FormatPriceReadable | client/src/pages/owner/ManageCars.jsx:76 | the digits after the currency and the space read back as the price |
| CarDetails.FindCar | client/src/pages/CarDetails.jsx:32-43 | the first car with the route identity; none when the listing failed or holds no such car |
| CarDetails.InitialImage | client/src/pages/CarDetails.jsx:48-49 | the first truthy gallery entry, else the cover, else none |
| CarDetails.Dedup | client/src/pages/CarDetails.jsx:67 | no repetitions; the same set of values; the first value stays first |
| CarDetails.DedupFirstOrder | client/src/pages/CarDetails.jsx:67 | the kept values come in the order of their first occurrences, as a `Set` keeps insertion order |
| CarDetails.DedupOfDistinct | client/src/pages/CarDetails.jsx:67 | a list without repetitions is unchanged |
| CarDetails.Gallery | client/src/pages/CarDetails.jsx:64-68 | the de-duplicated truthy entries of cover and extras: distinct non-empty images, the cover first when present, every truthy extra included, nothing else |
| CarDetails.InitialImageInGallery | client/src/pages/CarDetails.jsx:48-68 | there is an initial image exactly when the gallery is non-empty, and it belongs to the gallery |
| CarDetails.ResetTarget | client/src/pages/CarDetails.jsx:71-81 | with a car and a non-empty gallery, an empty selection or one not in the gallery becomes the gallery's first image; a selection already in it is kept; without a car or gallery nothing changes |
| CarDetails.ResetIdempotent | client/src/pages/CarDetails.jsx:71-81 | a second run of the effect changes nothing |
| CarDetails.ResetKeepsInitialImage | client/src/pages/CarDetails.jsx:48-81 | right after loading the effect keeps the initial image |
| CarDetails.DetailsPage.LoadCar | client/src/pages/CarDetails.jsx:24-61 | the found car is stored with its initial image; when none is found the car is cleared |
| CarDetails.DetailsPage.ResetImage | client/src/pages/CarDetails.jsx:71-81 | the selection becomes the reset target |
| CarDetails.TotalDays | client/src/pages/CarDetails.jsx:83-91 | never negative; positive exactly when both dates are given and parse and the return is later; then the exact day fraction |
| CarDetails.TotalPrice | client/src/pages/CarDetails.jsx:93-96 | 0 without a car; otherwise the days times the daily price; never negative for a non-negative price |
| CarDetails.EstimateBelowServerDays | client/src/pages/CarDetails.jsx:83-91 | the page's day estimate is at most the charged days and more than the charged days minus one |
| CarDetails.EstimateBelowServerPrice | client/src/pages/CarDetails.jsx:83-96 | the page's price for valid dates never exceeds what `createBooking` charges for them, and falls short by at most one day's price |
| Login.Utf16Length | client/src/components/auth/Login.jsx:58 | between one and two units per character |
| Login.SignUpCheck | client/src/components/auth/Login.jsx:53-63 | mismatch first, then fewer than 6 units; accepted exactly when they match and the length is at least 6 |
| Login.SignUpExamples | client/src/components/auth/Login.jsx:53-61 | a mismatch is reported before the length; three astral characters count as six |
| Login.LoginForm.HandleLoginChange | client/src/components/auth/Login.jsx:33-34 | only the named sign-in field changes |
| Login.LoginForm.HandleRegisterChange | client/src/components/auth/Login.jsx:36-37 | only the named sign-up field changes |
| Login.LoginForm.HandleSignUp | client/src/components/auth/Login.jsx:50-67 | the outcome of the checks on the current fields; accepted exactly when they match and are long enough |

## Left out

- Persistence: the Mongoose queries, `populate`, `save` and the aggregation pipeline become operations on in-memory sequences. Identities are naturals drawn from counters.
- Concurrency: the searches' `Promise.all` fan-out and the check-then-insert race in `createBooking` are modelled sequentially. No guarantee against double booking is claimed; `WrittenBookingBlocksOverlaps` holds only for requests handled one after another.
- Date parsing: `new Date(...)` and its NaN check become the `DateField` values and a `parseDate` parameter.
- JWT: `jwt.verify` is a parameter from token to optional identity. `process.env.JWT_SECRET` and the token format are not modelled.
- Image host and files: `uploadFileToImageKit` (ImageKit upload, URL transformation and file reading) is a parameter `upload`. It always succeeds. A failing upload, reported through the catch-all handler, is not modelled.
- OwnerController.AssembleCar: the schema's validation error is named only by its prefix "Car validation failed"; Mongoose's generated text listing the offending paths is not modelled.
- OwnerController.AssembleCar: `_id` and any other key of `carData` outside the Car schema are not modelled. The spread would let a caller choose the new car's `_id`; here the identity always comes from `nextCarId`.
- OwnerController.AddCar: a missing `carData` parses as `{}`, which is the same as a patch with every field absent. The model starts from the parsed patch.
- The field names `seating_capacity` and `fuel_type` are written `seatingCapacity` and `fuelType` in the model.
- getOwnerCars (server/controllers/ownerController.js:97-107) and the owner's getOwnerBookings (server/controllers/ownerController.js:110-123) are plain owner-filtered listings. They are covered by `BookingController.OwnerBookings` and by the `Filter` in `DashboardData`, without rows of their own.
- Catch-all error handlers: every handler answers `error.message` for an unexpected exception. The modelled failures are the ones the code reports itself, plus the null-owner dereference in `changeBookingStatus`.
- Floating point: server-side day counts use integer ceiling division. The page's estimate uses exact reals. Fractional prices and `Number` on fractional text are not modelled, because the conversion is an integer-valued parameter.
- Text: only ASCII letters are lower-cased. JavaScript's full Unicode `toLowerCase` is not modelled. `trim` uses the ECMAScript white-space set.
- CarForm: the `initialData` effect (client/src/components/owner/CarForm.jsx:68-93), `clearCoverFile`, object-URL previews and input resets are not modelled. The cover and gallery URLs are separate class fields rather than keys of the `car` object. `UpdateField` may not store a non-text value under `brand` or `model`, which the text inputs never do.
- CarForm.Form.HandleGalleryChange: the banner is written once after the loop with the last skip reason. This matches the final state that the loop's repeated `setError` calls leave.
- ManageCars: `handleToggleAvailability` has the same body as `toggleAvailability` and is modelled by the one method `CarList.ToggleAvailability`.
- Client fetches: the mock-data loaders and their time-outs are not modelled. No optimistic update with rollback is modelled, because the owner pages send no request and keep no snapshot.
- Rendering: JSX markup, toasts, alerts, routing, `localStorage`, axios headers and the presentational components are not modelled.
- ApplyPatch: only the `owner` key of a `$set` operator is modelled. Other update operators (`$unset`, `$inc`, `$set` of other paths) are not. `$unset.owner` is among the unmodelled operators, and it too survives `delete updates.owner` as written. When a body carries both a top-level `owner` and `$set.owner`, the model lets the top-level one win; the deletes remove the top-level one, so the model never has to decide this for a stored update.
- `getDashboardData` reports all-time confirmed revenue under the name `monthlyRevenue`. The model follows the code; no monthly window exists.

## Findings

In both rows the rest of the model uses the corrected half: `DeleteCar` performs the intended soft delete, and `UpdateCar` stores the protected updates of `BuildUpdates`.

| source | as written | input that shows it | evidently intended | confidence | as-written member | corrected member |
|---|---|---|---|---|---|---|
| server/controllers/ownerController.js:270-272 | `deleteCar` sets `owner = null` and calls `save()`. The Car schema marks `owner` as required (server/models/Car.js:7), so the save fails validation and the handler answers with the validation error. | the owner of any car sends `deleteCar` for it | the soft delete keeps the record with no owner and unavailable | high, not executed | OwnerController.DeleteAsWrittenNeverSucceeds | OwnerController.DeleteIsFinal |
| server/controllers/ownerController.js:174-216 | `updateCar` deletes only the top-level `owner` and `_id` of the request before `findByIdAndUpdate`. That call also applies update operators in the body, so an `owner` under `$set` (or `$unset`, which the model does not represent) survives the deletes. | the owner of a car sends `updateCar` with `carData` = `{"$set": {"owner": "<other user id>"}}` | no request can change a car's owner (ownerController.js:212-214) | medium (relies on Mongoose's update semantics), not executed | OwnerController.UpdateAsWrittenReassignsOwner | OwnerController.UpdateKeepsIdentityAndOwner |
