# Property-rental API backend, modelled in Dafny

This project models the core of a small property-rental backend. The
backend is an Express application over PostgreSQL. Three groups of
handlers are modelled:

- the property listing, with optional price and type filters and a
  whitelisted ordering;
- the listing of one property type;
- the booking endpoints: a property's bookings, a new booking with a
  clash check, and a guest's bookings.

The model also covers the case-insensitive existence check the handlers
share, the two error handlers at the end of the middleware chain, and the
seed script that fills freshly created tables from the fixture data.

The database is modelled as in-memory tables: one `seq` of rows per table.
Every query becomes a function over those rows. `WHERE` is a filter,
`ORDER BY` is a sort on one key that breaks ties by table order, and a
`JOIN` is a nested scan.
Where the source mutates state step by step, the model is imperative too:

- `fetchAllProperties` builds its SQL text and its parameter array step by step;
- the seed's `forEach` loops fill lookup objects, a `Set` and an array;
- `createBooking` appends a row to the bookings table and takes the next
  `SERIAL` id;
- `bookings.sort` sorts an array in place.

Each of these is a method proved against a specification function, and the
properties that matter are proved about that function. The seed's loops and
the in-place sort carry loop invariants. `fetchAllProperties` has no loop:
its steps are a sequence of assignments. `createBooking` is a method of the
class `BookingsTable`.

Modules, one per file:

| file | module | models |
|---|---|---|
| js.dfy | Js | JavaScript truthiness, `x \|\| fallback`, `Number(string)` and `isNaN` on decimal text, `String(n)`, SQL `LOWER` on ASCII, PostgreSQL's text-to-integer cast |
| seqs.dfy | Seqs | filter, `map(...).filter(Boolean)`, flattening, the insertion order of a `Set`, stable sort on one key, and an in-place insertion sort on an array |
| schema.dfy | Schema | the tables created by the seed script, and rows as text columns |
| http.dfy | Http | duck-typed error objects, responses, and the two ways a handler ends: `res.status().send()` or `next(err)` |
| utils.dfy | Utils | `checkExists` |
| properties_model.dfy | PropertiesModel | `fetchAllProperties` |
| properties_controllers.dfy | PropertiesControllers | `getAllProperties`, `getPropertyByType` |
| booking_model.dfy | BookingModel | `checkBookingClash`, `fetchBookingsByProperty`, `fetchBookingsByUser`, `createBooking` (class `BookingsTable`) |
| booking_controller.dfy | BookingController | `getBookingsByProperty`, `addBooking`, `getBookingsByUser` |
| error_handlers.dfy | ErrorHandlers | `notFoundHandler`, `errorHandler` |
| seed.dfy | Seed | `seed` in db/seed.js |

Modelling conventions:

- **Dates and timestamps.** `DATE` and `TIMESTAMP` values are integers. Only
  their order matters. `NOW()` and `new Date()` are a parameter `now`.
- **Request values.** A request field or query parameter that JavaScript
  treats as falsy (absent, `null`, `""`, `0`, `false`) is `None`. Route
  parameters are text.
- **Running SQL.** Running the listing query is a function parameter,
  `execute`, of type `Query -> Result<rows>`. The rows it returns are
  JavaScript objects, and the model converts them as the source does.
- **Errors.** An error is a `JsError` with the three properties the
  handlers read: `status`, `msg` and `message`. A rejected promise is
  `Err(e)`. A handler that calls `next(err)` ends in `Forward(err)`.
- **Seed ids.** The seed inserts into freshly created tables, so the
  `SERIAL` keys of each table are 1, 2, ... in insertion order.
- **Seed lookups.** `usersRef` and `propertiesRef` are plain objects in the
  source. In the model they are `map<string, int>`.

## Model

| member | source | states |
|---|---|---|
| Js.OrElse | db/seed.js:278 | `x \|\| fallback` on an optional string is the string when it is truthy and the fallback otherwise |
| Js.ToLower | utils.js:7 | SQL `LOWER` keeps the length, turns each upper-case ASCII letter into its lower-case letter (code plus 32), and keeps every other character |
| Js.ToNumberCases | controllers/properties.controllers.js:10 | `Number` gives 0 on blank text, the value of a run of decimal digits, and NaN on text with a symbol such as `$` or `;` |
| Js.IsNumericCases | controllers/properties.controllers.js:10 | digits alone always pass `!isNaN`, and a text with a symbol never does |
| Js.TrimKeeps | controllers/properties.controllers.js:10 | trimming white space keeps every other character |
| Js.EqualsIgnoringCaseNoLetters | utils.js:7 | a text without letters equals, ignoring case, only itself, so a case-insensitive match on an id is an exact match |
| Js.NatToStringValue | controllers/booking.controller.js:17 | the decimal form of a natural number reads back as that number |
| Js.IntToStringToNumber | controllers/booking.controller.js:10 | `Number` applied to the decimal form of an integer gives that integer, so the text passes `!isNaN` |
| Js.ParseInt | controllers/booking.controller.js:13-14 | a text that PostgreSQL casts to an integer is also numeric for `isNaN` |
| Js.IntToStringParses | controllers/booking.controller.js:13-14 | PostgreSQL's integer cast of the decimal form of an integer gives that integer back |
| Seqs.Filter | models/booking.models.js:16-21 | the kept rows are the input rows that pass the test, and there are no more of them than of the input rows |
| Seqs.FilterAppend | models/booking.models.js:16-21 | filtering a concatenation filters each part |
| Seqs.FilterKeepsAll | models/booking.models.js:16-21 | when every row passes, filtering changes nothing |
| Seqs.FilterCongruent | models/booking.models.js:16-21 | two tests that agree on every row keep the same rows |
| Seqs.FilterMultiset | models/booking.models.js:16-21 | the kept rows are a sub-multiset of the input |
| Seqs.FilterMap | db/seed.js:234-258 | `map(f).filter(Boolean)` yields exactly the non-null results, and no more of them than there are inputs |
| Seqs.FilterMapAppend | db/seed.js:291-309 | `map(f).filter(Boolean)` over a concatenation is the concatenation of the results |
| Seqs.FilterMapLength | db/seed.js:321-347 | exactly the elements mapped to null are lost |
| Seqs.Flatten | models/booking.models.js:48-51 | the flattened rows are exactly the rows of the blocks |
| Seqs.FlattenAppend | models/booking.models.js:48-51 | flattening a concatenation of blocks concatenates the flattenings |
| Seqs.DedupMembers | db/seed.js:188-198 | the distinct amenities are exactly the amenities that were added |
| Seqs.DedupDistinct | db/seed.js:188-198 | the `Set` lists each amenity once |
| Seqs.DedupFirstSeenOrder | db/seed.js:198 | `[...set]` lists the distinct elements in the order of their first occurrence |
| Seqs.InsertBySorted | controllers/booking.controller.js:64 | inserting into a sorted sequence keeps it sorted |
| Seqs.SortBy | controllers/booking.controller.js:64 | the sort yields a sorted permutation of its input |
| Seqs.SortBySortedIsIdentity | controllers/booking.controller.js:64 | sorting rows that are already in key order changes nothing |
| Seqs.InsertByStable | controllers/booking.controller.js:64 | inserting one element keeps the relative order of the elements with each key |
| Seqs.SortByStable | controllers/booking.controller.js:64 | for each key value, the sort keeps the input order of the elements with that key |
| Seqs.InsertInto | controllers/booking.controller.js:64 | one insertion step moves a[i] right, past the smaller keys, so that a[i..] is the old a[i] inserted into the old a[i + 1..] and the prefix is untouched |
| Schema.PropertiesTable | db/seed.js:39-49 | each property row exposes its `property_id` as decimal text and its `property_type` |
| Schema.UsersTable | db/seed.js:26-35 | each user row exposes its `user_id` as decimal text |
| Utils.MatchingRows | utils.js:7-9 | the query returns exactly the rows whose column equals the value, ignoring case |
| Utils.NotFound | utils.js:14 | the rejection has status 404 and msg `<column> not found`, and no `message` |
| Utils.CheckExists | utils.js:5-17 | resolves to true exactly when some row's column equals the value ignoring case, and otherwise rejects with the 404 |
| Utils.CheckExistsColumn | utils.js:13-16 | the check succeeds exactly when the column's values contain the value, up to case |
| Utils.CheckExistsByKey | utils.js:7 | on a column of integer keys, a successful check means the value is exactly the decimal form of an existing key |
| Utils.CheckExistsAsWritten | utils.js:5-17 | as written, an integer column fails with the driver's `lower(integer)` error without status; a text column resolves exactly when some row matches ignoring case and otherwise rejects with `<column> not found` |
| Utils.CheckExistsAsWrittenFailsOnIds | utils.js:7 | as written, looking up an existing property by its id fails with a driver error without status, though the text comparison would find it |
| Utils.CheckExistsAsWrittenOnText | utils.js:7 | on text columns, the check as written and the text comparison agree |
| ErrorHandlers.NotFoundHandler | controllers/errors.handlers.js:4-6 | any unmatched path gets 404 with msg "Path not found" |
| ErrorHandlers.StatusOr | controllers/errors.handlers.js:12 | `err.status \|\| 500` keeps a non-zero status and falls back otherwise |
| ErrorHandlers.ErrorHandler | controllers/errors.handlers.js:9-17 | the status is `err.status \|\| 500` and the msg is `err.message \|\| "Internal Server Error"` |
| ErrorHandlers.Finish | controllers/errors.handlers.js:9-17 | a handler's own response reaches the client; a forwarded error is answered by the error handler |
| ErrorHandlers.ForwardedStatusErrorLosesMsg | controllers/errors.handlers.js:13 | a forwarded `{ status, msg }` keeps its status, but its msg becomes "Internal Server Error" |
| ErrorHandlers.ForwardedThrownIs500 | controllers/errors.handlers.js:12-16 | a forwarded `Error` gives 500 with the error's message |
| PropertiesModel.Conditions | models/properties.models.js:24-61 | the request yields at most three filters |
| PropertiesModel.ConditionsOfRequest | models/properties.models.js:24-61 | each truthy argument adds exactly its own filter with its own value, in the order minimum price, maximum price, type |
| PropertiesModel.Args | models/properties.models.js:25-53 | the k-th bound value is the k-th filter's argument |
| PropertiesModel.WhereClause | models/properties.models.js:26-60 | the clause is empty exactly when no filter applies |
| PropertiesModel.WhereClauseIsJoin | models/properties.models.js:26-60 | the clause built step by step is one WHERE and then the filters, the k-th using `$k`, joined with AND |
| PropertiesModel.RanksOfConditions | models/properties.models.js:24-61 | the filter kinds present are exactly those of the truthy arguments, in the fixed order |
| PropertiesModel.WhereClauseIgnoresValues | models/properties.models.js:26-60 | filters of the same kinds give the same clause, whatever their values |
| PropertiesModel.OrderBy | models/properties.models.js:68-85 | the ORDER BY always names a whitelisted column and direction, and is `popularity DESC` unless both sort and order are whitelist keys |
| PropertiesModel.OrderByRequested | models/properties.models.js:81-82 | a whitelisted sort and order are what the query orders by |
| PropertiesModel.OrderByAsWritten | models/properties.models.js:68-85 | as written, whitelisted keys give their clause; an inherited member of Object.prototype given as sort, as order, or as both is interpolated in its place; a sort or order that is neither a key nor an inherited member gives `popularity DESC` |
| PropertiesModel.OrderByAsWrittenLeaksPrototype | models/properties.models.js:81-82 | as written, `sort=constructor` puts the text of the Object function into the SQL, which is not a whitelisted clause |
| PropertiesModel.OrderByAgreesOffPrototype | models/properties.models.js:81-85 | the code as written and the whitelist reading differ only on names of inherited members |
| PropertiesModel.CoerceRow | models/properties.models.js:90-95 | the row keeps every other column and gains `Number(...)` of the three numeric columns |
| PropertiesModel.CoerceRowIdempotent | models/properties.models.js:90-95 | converting a converted row again changes nothing |
| PropertiesModel.CoerceCount | models/properties.models.js:94 | a `COUNT` that the driver returns as decimal text becomes that number |
| PropertiesModel.ListingQuery | models/properties.models.js:40-50 | an error comes exactly when a truthy property type matches no row of property_types, ignoring case, and it is the 404 "property_type not found" |
| PropertiesModel.ListingPlaceholders | models/properties.models.js:4-85 | each value is bound to its own filter's placeholder, and the text is SELECT, WHERE with the filters joined by AND, GROUP BY, then ORDER BY |
| PropertiesModel.ListingTextIgnoresValues | models/properties.models.js:23-85 | the SQL text depends only on which filters are present and on sort and order, never on filter values: no value is interpolated |
| PropertiesModel.AppendFilter | models/properties.models.js:25-60 | pushing a value and appending its test with WHERE or AND gives the text and values of one more filter |
| PropertiesModel.ApplyFilters | models/properties.models.js:23-61 | the filter steps stop exactly on an unknown type; otherwise they leave the WHERE clause and the values of the request's filters |
| PropertiesModel.ListingResult | models/properties.models.js:40-96 | an unknown truthy type is the 404; otherwise the listing fails exactly when the query does, with its error, and returns the query's rows one for one, each converted |
| PropertiesModel.FetchAllProperties | models/properties.models.js:4-97 | the method's result is the listing specification's result: the type rejection, the query's rejection, or the converted rows |
| PropertiesControllers.GetAllProperties | controllers/properties.controllers.js:6-40 | non-numeric prices give 400 and are the only 400; a 200 carries the non-empty listing after the type check passed; a forwarded error is the listing's own error and never a 404 |
| PropertiesControllers.CatchListing | controllers/properties.controllers.js:31-39 | a rejection with status 404 is answered 404 with `err.msg \|\| "No properties found."`, and anything else is passed to next |
| PropertiesControllers.BadPricesRefusedFirst | controllers/properties.controllers.js:10-12 | a non-numeric minprice or maxprice is answered 400 before any lookup |
| PropertiesControllers.UnusedTypeIs404 | controllers/properties.controllers.js:16-36 | a type no property has is answered 404 "property_type not found", whatever the listing query would return |
| PropertiesControllers.UnusedTypeNotFound | controllers/properties.controllers.js:17 | the existence check rejects a type that no property has |
| PropertiesControllers.ListingAnswers | controllers/properties.controllers.js:20-29 | after the checks, an empty listing is answered 404 with the no-properties message and a non-empty one 200 with the rows |
| PropertiesControllers.ListingFailureForwarded | controllers/properties.controllers.js:37-38 | a database error is passed on unchanged |
| PropertiesControllers.FailedChecksIgnoreQuery | controllers/properties.controllers.js:10-18 | when a check fails, the answer does not depend on the listing query |
| PropertiesControllers.CatchByType | controllers/properties.controllers.js:52-61 | a 404 keeps its msg; anything else is a plain-text 500 "Server error" |
| PropertiesControllers.GetPropertyByType | controllers/properties.controllers.js:43-64 | a type no property has is answered 404 "property_type not found"; a 200 means the check passed and carries the type's listing |
| PropertiesControllers.AnswerByType | controllers/properties.controllers.js:50-60 | a 200 carries exactly the listing of that type, with no price filters |
| PropertiesControllers.ByTypeListed | controllers/properties.controllers.js:48-51 | a type that some property has and property_types knows is listed with 200, even when the listing is empty |
| PropertiesControllers.ByTypeStatuses | controllers/properties.controllers.js:43-64 | the handler always answers 200 with properties, 404 with a msg, or the plain-text 500 |
| PropertiesControllers.ByTypeUnknownType | controllers/properties.controllers.js:48-55 | a type that some property has but property_types lacks is a 404 "property_type not found" |
| BookingModel.CheckBookingClash | models/booking.models.js:15-24 | a clash exists exactly when some booking of the property ends after the requested check-in and starts before the requested check-out |
| BookingModel.OverlapsSymmetric | models/booking.models.js:19-20 | the overlap test does not depend on which stay is the existing one |
| BookingModel.BackToBackStaysDoNotClash | models/booking.models.js:19-20 | a stay that starts on another's check-out day, or ends on its check-in day, does not clash |
| BookingModel.OverlapsIffSharedNight | models/booking.models.js:19-20 | for non-empty stays, the test holds exactly when the two stays share a night |
| BookingModel.OtherPropertiesNeverClash | models/booking.models.js:18 | bookings of other properties change neither the clashing rows nor the answer |
| BookingModel.InsertAfterNoClashKeepsNoOverlaps | models/booking.models.js:15-36 | appending a booking that the clash query lets through keeps the table free of overlaps within each property |
| BookingModel.FetchBookingsByProperty | models/booking.models.js:2-11 | the listing is a permutation of the property's bookings, projected to four columns, with the latest check-out first |
| BookingModel.FetchBookingsByPropertyMembers | models/booking.models.js:3-7 | an entry is listed exactly when it is the projection of a booking of that property |
| BookingModel.ImageColumn | models/booking.models.js:51 | the LEFT JOIN gives, in table order, the URL of each image of the property, or a single NULL when there is none; every URL is one of that property's |
| BookingModel.RowsWithImages | models/booking.models.js:44-51 | a booking yields one row per image column value, each with the booking's id, dates and property id, the property's name, the host's first name and surname joined by a space, and that image |
| BookingModel.HostRows | models/booking.models.js:50 | the host join only produces rows of the given booking |
| BookingModel.JoinBooking | models/booking.models.js:48-51 | the joins only produce rows of the given booking |
| BookingModel.FetchBookingsByUser | models/booking.models.js:42-57 | the listing is a permutation of the guest's join rows, earliest check-in first |
| BookingModel.FetchBookingsByUserOnlyGuest | models/booking.models.js:52 | every row listed comes from a booking of that guest |
| BookingModel.FlattenSingleBlock | models/booking.models.js:49-50 | a join on a unique key yields the single matching block |
| BookingModel.JoinBookingPerImage | models/booking.models.js:48-51 | with unique ids, a booking appears once per image of its property, or once with a NULL image when it has none |
| BookingModel.BookingsTable.constructor | db/seed.js:83-90 | a fresh bookings table is empty, and its id sequence starts at 1 |
| BookingModel.BookingsTable.CreateBooking | models/booking.models.js:28-36 | the insert appends exactly one row with the given values and `NOW()`, and returns the new id, which no earlier row has; ids keep increasing |
| BookingController.BookingsByPropertyInvalidId | controllers/booking.controller.js:10 | a missing or non-numeric id is answered 400 "Invalid property ID" |
| BookingController.BookingsByPropertyUnknown | controllers/booking.controller.js:12-27 | a numeric id that no property has is passed on as the existence check's 404 |
| BookingController.BookingsByPropertyFound | controllers/booking.controller.js:13-24 | an existing property's id answers 200 with the numeric id and that property's bookings |
| BookingController.BookingsByPropertyOnlyExisting | controllers/booking.controller.js:13-24 | a 200 lists the bookings of a property that exists, whatever the id's text |
| BookingController.IntToStringInjective | controllers/booking.controller.js:13 | different ids have different decimal forms |
| BookingController.MatchedKeyParses | controllers/booking.controller.js:13-14 | an id that passed the existence check casts to an existing key |
| BookingController.AddBookingInvalidIdFirst | controllers/booking.controller.js:37 | a missing or non-numeric id is refused first, with 400 "Invalid property ID" |
| BookingController.AddBookingMissingFieldsSecond | controllers/booking.controller.js:38 | missing guest or dates are refused next, with 400 "Missing required fields" |
| BookingController.AddBookingPropertyBeforeGuest | controllers/booking.controller.js:41 | an unknown property is reported, before the guest is looked up |
| BookingController.AddBookingUnknownGuest | controllers/booking.controller.js:42 | an unknown guest of an existing property is reported as the user check's 404 |
| BookingController.AddBookingInsertsOnlyAfterChecks | controllers/booking.controller.js:37-47 | a booking is inserted only for an existing property and an existing guest, with the requested dates, when no booking of that property overlaps them |
| BookingController.DecideInsertValues | controllers/booking.controller.js:44-47 | the insert carries the cast ids and the requested dates, after the clash query found nothing |
| BookingController.ExistingKey | controllers/booking.controller.js:41 | a property id that passed the check casts to the id of an existing property |
| BookingController.ExistingUser | controllers/booking.controller.js:42 | a guest id that passed the check casts to the id of an existing user |
| BookingController.KnownIdsPass | controllers/booking.controller.js:37-42 | a request naming an existing property and an existing user by their ids passes every check before the clash query |
| BookingController.AddBookingPlan | controllers/booking.controller.js:37-47 | a refusal answered directly is a 400; a forwarded error is one of the two existence checks' 404s or the bad-integer cast error; an insert is planned only when every lookup passes |
| BookingController.AddBookingAccepted | controllers/booking.controller.js:34-48 | an existing property booked for an existing guest on free dates is inserted with exactly those values |
| BookingController.AddBookingClashRefused | controllers/booking.controller.js:44-45 | overlapping dates are refused with 400 and the clash message |
| BookingController.AddBooking | controllers/booking.controller.js:34-52 | the handler answers as the checks decide and leaves the table unchanged, or appends the booking and answers 201 with its new id; a table without overlaps stays so |
| BookingController.View | controllers/booking.controller.js:67-75 | the response keeps the booking's id and dates, the property's id and name, and the host; the image is the row's image when truthy and null otherwise |
| BookingController.Views | controllers/booking.controller.js:67-75 | one view per row, in order |
| BookingController.SortByCheckIn | controllers/booking.controller.js:64 | the in-place insertion sort leaves the array as the stable sort of its old contents by check-in |
| BookingController.GetBookingsByUser | controllers/booking.controller.js:53-81 | the handler answers as specified: 400 for an invalid id, the check's 404, or 200 with the guest's rows in check-in order, reshaped |
| BookingController.UserBookingsInvalidId | controllers/booking.controller.js:56-58 | a missing or non-numeric user id is answered 400 "Invalid user ID" |
| BookingController.UserBookingsFound | controllers/booking.controller.js:61-76 | an existing user's id lists that user's rows from the booking model |
| BookingController.UserBookingsUnknown | controllers/booking.controller.js:61 | a numeric id that no user has is passed on as the user check's 404 |
| BookingController.UserViewsOfGuest | controllers/booking.controller.js:62-76 | the answer is in check-in order and holds only bookings of that guest |
| Seed.CreatedOr | db/seed.js:142 | `created_at \|\| new Date()` is the given timestamp, or the current time when it is missing |
| Seed.InsertUsers | db/seed.js:126-151 | every fixture user becomes one row, in order, with id i+1, the fixture's names, email, phone, host flag and avatar, and `created_at \|\| now` |
| Seed.BuildRef | db/seed.js:154-158 | the loop leaves the object that visiting the rows in order builds (`RefOf`): exactly the keys of the rows, each mapped to the id of a row with that key, the last row with a key winning |
| Seed.RefOfKeys | db/seed.js:154-158 | the object built by visiting the rows has exactly the rows' keys, each mapped to a row's id, and the last row with a key wins |
| Seed.Resolve | db/seed.js:163-164 | `ref[name]` is truthy exactly when the name is a key with a non-zero id |
| Seed.MapAll | db/seed.js:162-175 | `map` with a throwing step yields every result when none throws, and otherwise the error of the first element that throws |
| Seed.FormatPropertiesResult | db/seed.js:162-175 | formatting succeeds exactly when every host resolves; each tuple is [host_id, name, location, type, price, description]; otherwise the error names the first host that does not resolve |
| Seed.InsertProperties | db/seed.js:177-181 | every tuple becomes one row, in order, with id i+1 and the tuple's host id, name, location, type, price and description |
| Seed.AllAmenitiesMembers | db/seed.js:189-195 | an amenity is collected exactly when some property lists it |
| Seed.CollectAmenities | db/seed.js:188-198 | the loop leaves each distinct amenity once, in the order first seen |
| Seed.AddAll | db/seed.js:191-193 | adding a property's amenities to the `Set` gives the distinct elements of everything seen so far |
| Seed.FindByName | db/seed.js:208 | `find` returns the first fixture with the name, or nothing when no fixture has it |
| Seed.LinksOf | db/seed.js:210-212 | one [property_id, amenity] pair per amenity, in order |
| Seed.LinksFor | db/seed.js:208-213 | an inserted property's pairs all carry its own id |
| Seed.PropertyAmenityPairs | db/seed.js:206-214 | the loop yields, property by property in table order, one pair per amenity of the first fixture with that name |
| Seed.PairsOfProperty | db/seed.js:208-213 | one property's turn appends exactly its pairs |
| Seed.PushLinks | db/seed.js:210-212 | pushing a property's amenities appends exactly their pairs |
| Seed.AmenityLinksIntact | db/seed.js:198-214 | every pair names an inserted property and an amenity that was inserted |
| Seed.InsertAmenityLinks | db/seed.js:216-222 | with no pairs nothing is inserted; otherwise one row per pair, in order |
| Seed.FormatReviews | db/seed.js:234-258 | a review is kept exactly when its property and its guest resolve, with those ids, its rating and comment and `created_at \|\| now`; no more come out than went in |
| Seed.FormatImage | db/seed.js:275-279 | a formatted image's alt text is `alt_text \|\| "Image"` |
| Seed.FormatImagesResult | db/seed.js:270-280 | the images step succeeds exactly when every image's property resolves; image i then becomes [its property's id, its URL, `alt_text \|\| "Image"`], a non-empty alt text; otherwise it throws naming the first unresolved property |
| Seed.FormatFavourites | db/seed.js:291-309 | exactly the favourites whose guest and property resolve are kept, as [guest_id, property_id] |
| Seed.FormatBookings | db/seed.js:321-347 | a booking is kept exactly when its property and guest resolve, with its dates and `created_at \|\| now`; no more come out than went in |
| Seed.InsertBookings | db/seed.js:351-360 | no rows without bookings; otherwise one row per booking, in order, with id i+1 and the tuple's property, guest, dates and creation time |
| Seed.ResolvePositive | db/seed.js:163-164 | with ids from 1, a name resolves exactly when it is a key of the lookup |
| Seed.ResolvedUserExists | db/seed.js:243-244 | a resolved guest or host name names an existing user |
| Seed.ResolvedPropertyExists | db/seed.js:236-237 | a resolved property name names an existing property |
| Seed.SeedIntact | db/seed.js:162-360 | rows built through the two lookups satisfy every foreign key of the schema |
| Seed.BuildUsersRef | db/seed.js:154-158 | usersRef holds ids of inserted users, and a name resolves exactly when it is some fixture user's full name |
| Seed.BuildPropertiesRef | db/seed.js:225-228 | propertiesRef holds ids of inserted properties, and a name resolves exactly when some fixture property has it |
| Seed.InsertedProperties | db/seed.js:162-181 | the inserted properties are numbered in order, keep their names, and carry the id their host's name resolves to |
| Seed.FillTables | db/seed.js:188-360 | the steps that cannot throw fill amenities, links, reviews, favourites and bookings as specified, and leave every foreign key satisfied |
| Seed.FormatAndInsertProperties | db/seed.js:160-181 | the step throws exactly when some host is nobody's full name, naming the first such host; otherwise it inserts one row per fixture, in order, with id i+1, the id its host's name resolves to, and the fixture's name, location, type, price and description |
| Seed.FormatImagesChecked | db/seed.js:268-280 | the step throws exactly when some image's property name matches no property, naming the first such image's property; otherwise image i becomes [the id its property name resolves to, its URL, `alt_text \|\| "Image"`] |
| Seed.InsertUsersAndProperties | db/seed.js:126-228 | it throws exactly when some host is unknown, naming the first unknown host; otherwise it returns the users numbered in order, usersRef built from them, the properties formatted through usersRef and inserted, and propertiesRef built from those |
| Seed.InsertImagesAndRest | db/seed.js:268-360 | it throws exactly when some image's property is unknown, naming the first such property; otherwise the database holds the images formatted through propertiesRef, the links, reviews, favourites and bookings as their fixtures formatted through the two lookups, and satisfies every foreign key |
| Seed.Seed | db/seed.js:112-360 | the seed throws exactly when a host name or an image's property name matches nothing; an unknown host is reported first, naming the first such host, and otherwise the first image of an unknown property; otherwise every foreign key is satisfied and every table is stated: the fixtures' property types, users numbered in order, each amenity once in first-seen order, and the properties, images, links, reviews, favourites and bookings formatted through usersRef and propertiesRef and inserted in order |

## Left out

- Running SQL, the connection pool, `pg-format` escaping, `console.log`, `console.warn` and `console.error` are not modelled. The listing query's execution is a parameter. Every other query is a function over in-memory tables.
- app.js routing is not part of this model, nor are the users model and controller, or the handlers of reviews and of a single property. The booking handlers are modelled on their own. app.js does not mount them.
- Concurrency is not modelled: the race between the clash query and the insert, and interleaved requests. `AddBooking` runs atomically.
- The tests expect 200 with `{ properties: [] }` for an empty listing. The code answers 404 "No properties found with the provided criteria.", and the model follows the code.
- The tests also expect 400 for an invalid sort. The code falls back to `ORDER BY popularity DESC`, and the model does the same.
- There is no check that `check_in_date < check_out_date`. The source has none either.
- Request dates are integers. A date text that PostgreSQL cannot cast makes the clash query reject, and `addBooking` forwards that error to next, which answers 500 (controllers/booking.controller.js:44-50). This error path is not modelled.
- BookingModel.FetchBookingsByProperty and BookingModel.FetchBookingsByUser break `ORDER BY` ties by table order. PostgreSQL leaves the order of equal keys unspecified. The in-place `bookings.sort` is stable, as `Array.prototype.sort` is.
- PropertiesModel.ListingQuery, PropertiesModel.FetchAllProperties and PropertiesControllers.GetAllProperties use the corrected `OrderBy` of the first finding below. On `?sort=constructor&order=ascending` the model orders by popularity, where the code as written puts the text of the Object function into the SQL.
- BookingController.SortByCheckIn is an insertion sort. The engine's own sort algorithm is not modelled, only its result.
- Js.ToNumber covers decimal text with an optional sign and one point, surrounded by white space. Exponents, hexadecimal, `Infinity` and other JavaScript white space are not modelled.
- Js.ToNumber and Js.IsNumeric carry no contract of their own. Their properties are ToNumberCases, IsNumericCases and IntToStringToNumber, each a lemma.
- Js.ToLower folds ASCII letters just as `LOWER` would in a C collation. Other Unicode case folding is not modelled.
- Integer columns are unbounded: int4 overflow of ids and of a cast text is not modelled.
- PropertiesModel.ListingSelect: the SQL text is normalised to single spaces. The source's line breaks and indentation are not kept.
- PropertiesModel.CoerceRows has no contract of its own. Its row-wise meaning is `CoerceRow`'s contract.
- BookingController.GetBookingsByProperty and BookingController.UserBookingsAnswer are specification functions. Their properties are the lemmas listed under them.
- BookingController.AddBooking: the driver's `RETURNING booking_id` row is modelled as the table's next id. A database error during the insert is not modelled.
- The ids that `checkExists` receives are compared by their text form. This is the corrected comparison of the second finding below. PostgreSQL's text-to-integer cast of a route id is `ParseInt`: optional sign, decimal digits, surrounding ASCII white space.
- Seed: the `DROP TABLE` and `CREATE TABLE` statements are left out. They are modelled only as fresh tables whose ids start at 1.
- Seed: the tables left partly filled when the seed throws are not modelled. The error alone is the result.
- Seed: reviews, images and favourites are held as the tuples inserted, without their `SERIAL` ids.
- Seed: `usersRef` and `propertiesRef` are plain objects in the source. A fixture name such as `constructor` would read an inherited member. The model's maps hold own keys only.
- Seed: `pg-format` on an empty batch is not modelled. Reviews, favourites and amenities with no rows are held as empty tables.
- ErrorHandlers.ErrorHandler: the client receives the `message` of any `Error`, driver errors included. The model states this as it is.

## Findings

| source | as written | input that shows it | evidently intended | confidence | as-written member | corrected member |
|---|---|---|---|---|---|---|
| models/properties.models.js:81-82 | `sorting[sort] && ordering[order]` on object literals also finds members inherited from Object.prototype, which are truthy, and interpolates them into the SQL | `?sort=constructor&order=ascending` yields `ORDER BY function Object() { [native code] } ASC` | only the whitelists' own keys select the ordering; anything else falls back to `popularity DESC` | not executed | PropertiesModel.OrderByAsWrittenLeaksPrototype | PropertiesModel.OrderBy |
| utils.js:7 | `LOWER(%I)` is applied to integer columns when the handlers call `checkExists("properties", "property_id", id)` and `checkExists("users", "user_id", id)`; PostgreSQL has no `lower(integer)` | `GET /api/properties/1/bookings` for an existing property 1 fails with a driver error, which becomes a 500 | compare the column's text form, so an existing id is found | not executed | Utils.CheckExistsAsWrittenFailsOnIds | Utils.CheckExists |
