/**
 * controllers/booking.controller.js: the per-property listing, the booking
 * request and the per-guest listing. Route ids arrive as text; the database
 * casts them to integers, modelled by ParseInt.
 */
module BookingController {
  import opened Js
  import opened Seqs
  import opened Schema
  import opened Http
  import opened Utils
  import opened BookingModel

  /** `id && !isNaN(id)`. */
  predicate ValidId(id: Option<string>) {
    Truthy(id) && IsNumeric(id.value)
  }

  /** The driver's rejection of a `$n` parameter that is not an integer. */
  const BadIntegerInput: JsError := Thrown("invalid input syntax for type integer")

  const ClashMsg: string := "Booking dates clash with an existing booking"

  /** An id that matched the existence check is the decimal form of a key, and casts to it. */
  lemma MatchedKeyParses(rows: seq<Row>, column: string, value: string)
    requires forall i :: 0 <= i < |rows| ==> column in rows[i]
    requires forall i :: 0 <= i < |rows| ==> exists n :: rows[i][column] == IntToString(n)
    requires CheckExists(rows, column, value).Ok?
    ensures exists i :: 0 <= i < |rows| && ParseInt(value).Some? && rows[i][column] == IntToString(ParseInt(value).value)
  {
    CheckExistsByKey(rows, column, value);
    var i, n :| 0 <= i < |rows| && rows[i][column] == IntToString(n) && value == IntToString(n);
    IntToStringParses(n);
  }

  lemma PropertiesTableKeys(properties: seq<Property>)
    ensures var t := PropertiesTable(properties);
            forall i :: 0 <= i < |t| ==> "property_id" in t[i] && exists n :: t[i]["property_id"] == IntToString(n)
  {
    var t := PropertiesTable(properties);
    forall i | 0 <= i < |t| ensures exists n :: t[i]["property_id"] == IntToString(n) {
      assert t[i]["property_id"] == IntToString(properties[i].property_id);
    }
  }

  lemma UsersTableKeys(users: seq<User>)
    ensures var t := UsersTable(users);
            forall i :: 0 <= i < |t| ==> "user_id" in t[i] && exists n :: t[i]["user_id"] == IntToString(n)
  {
    var t := UsersTable(users);
    forall i | 0 <= i < |t| ensures exists n :: t[i]["user_id"] == IntToString(n) {
      assert t[i]["user_id"] == IntToString(users[i].user_id);
    }
  }

  // ---------------------------------------------------------------------------
  // GET /api/properties/:id/bookings
  // ---------------------------------------------------------------------------

  /**
   * getBookingsByProperty. The four-field projection of each row is the
   * identity on the columns the query selects.
   */
  function GetBookingsByProperty(id: Option<string>, properties: seq<Property>, bookings: seq<Booking>): Outcome {
    if !ValidId(id) then Reply(400, "Invalid property ID")
    else match CheckExists(PropertiesTable(properties), "property_id", id.value)
      case Err(e) => Forward(e)
      case Ok(_) =>
        match ParseInt(id.value)
        case None => Forward(BadIntegerInput)
        case Some(property_id) =>
          Respond(Response(200, PropertyBookings(ToNumber(id.value), FetchBookingsByProperty(bookings, property_id))))
  }

  /** A missing or non-numeric id is refused before anything is looked up. */
  lemma BookingsByPropertyInvalidId(id: Option<string>, properties: seq<Property>, bookings: seq<Booking>)
    requires !ValidId(id)
    ensures GetBookingsByProperty(id, properties, bookings) == Reply(400, "Invalid property ID")
  {
  }

  /** A numeric id that no property has is passed on as the existence check's 404. */
  lemma BookingsByPropertyUnknown(id: string, properties: seq<Property>, bookings: seq<Booking>)
    requires id != "" && IsNumeric(id)
    requires forall k :: 0 <= k < |properties| ==> !EqualsIgnoringCase(IntToString(properties[k].property_id), id)
    ensures GetBookingsByProperty(Some(id), properties, bookings) == Forward(NotFound("property_id"))
  {
    var t := PropertiesTable(properties);
    assert forall k :: 0 <= k < |t| ==> t[k]["property_id"] == IntToString(properties[k].property_id);
  }

  /** The id of an existing property lists that property's bookings under its numeric id. */
  lemma BookingsByPropertyFound(properties: seq<Property>, bookings: seq<Booking>, k: nat)
    requires k < |properties|
    ensures var p := properties[k].property_id;
            GetBookingsByProperty(Some(IntToString(p)), properties, bookings) ==
            Respond(Response(200, PropertyBookings(Finite(p as real), FetchBookingsByProperty(bookings, p))))
  {
    var p := properties[k].property_id;
    var t := PropertiesTable(properties);
    IntToStringToNumber(p);
    IntToStringParses(p);
    assert t[k]["property_id"] == IntToString(p);
  }

  /** Whatever the id's text, a 200 lists the bookings of a property that exists. */
  lemma BookingsByPropertyOnlyExisting(id: Option<string>, properties: seq<Property>, bookings: seq<Booking>)
    requires GetBookingsByProperty(id, properties, bookings).Respond?
    requires GetBookingsByProperty(id, properties, bookings).response.status == 200
    ensures ParseInt(id.value).Some?
    ensures exists k :: 0 <= k < |properties| && properties[k].property_id == ParseInt(id.value).value
  {
    var t := PropertiesTable(properties);
    PropertiesTableKeys(properties);
    MatchedKeyParses(t, "property_id", id.value);
    var k :| 0 <= k < |t| && t[k]["property_id"] == IntToString(ParseInt(id.value).value);
    IntToStringInjective(properties[k].property_id, ParseInt(id.value).value);
  }

  lemma IntToStringInjective(a: int, b: int)
    requires IntToString(a) == IntToString(b)
    ensures a == b
  {
    IntToStringParses(a);
    IntToStringParses(b);
  }

  // ---------------------------------------------------------------------------
  // POST /api/properties/:id/booking
  // ---------------------------------------------------------------------------

  /**
   * The request body's fields; None marks a falsy value (absent, null, 0,
   * "" or false). A truthy guest_id is carried as its text.
   */
  datatype BookingRequest = BookingRequest(guest_id: Option<string>, check_in_date: Option<Date>, check_out_date: Option<Date>)

  /** What addBooking decides before it touches the table: answer now, or insert these values. */
  datatype Plan =
    | Answer(outcome: Outcome)
    | Insert(property_id: int, guest_id: int, check_in: Date, check_out: Date)

  predicate FieldsPresent(body: BookingRequest) {
    Truthy(body.guest_id) && body.check_in_date.Some? && body.check_out_date.Some?
  }

  /** The checks of addBooking, in their order: id, fields, property, guest, clash. */
  function AddBookingPlan(id: Option<string>, body: BookingRequest, properties: seq<Property>, users: seq<User>,
                          bookings: seq<Booking>): (p: Plan)
    ensures p.Answer? && p.outcome.Respond? ==> p.outcome.response.status == 400
    ensures p.Answer? && p.outcome.Forward? ==>
              p.outcome.error in {NotFound("property_id"), NotFound("user_id"), BadIntegerInput}
    ensures p.Insert? ==> LookupsPass(id, body, properties, users)
  {
    if !ValidId(id) then Answer(Reply(400, "Invalid property ID"))
    else if !FieldsPresent(body) then Answer(Reply(400, "Missing required fields"))
    else match CheckExists(PropertiesTable(properties), "property_id", id.value)
      case Err(e) => Answer(Forward(e))
      case Ok(_) =>
        match CheckExists(UsersTable(users), "user_id", body.guest_id.value)
        case Err(e) => Answer(Forward(e))
        case Ok(_) => DecideInsert(id.value, body, bookings)
  }

  /** The clash query and the insert, once both ids were found. */
  function DecideInsert(id: string, body: BookingRequest, bookings: seq<Booking>): (p: Plan)
    requires FieldsPresent(body)
    ensures p.Answer? && p.outcome.Respond? ==> p.outcome.response.status == 400
    ensures p.Answer? && p.outcome.Forward? ==> p.outcome.error == BadIntegerInput
  {
    match ParseInt(id)
    case None => Answer(Forward(BadIntegerInput))
    case Some(property_id) =>
      if CheckBookingClash(bookings, property_id, body.check_in_date.value, body.check_out_date.value)
      then Answer(Reply(400, ClashMsg))
      else
        match ParseInt(body.guest_id.value)
        case None => Answer(Forward(BadIntegerInput))
        case Some(guest_id) => Insert(property_id, guest_id, body.check_in_date.value, body.check_out_date.value)
  }

  /** The id is checked first: nothing else matters when it is missing or not a number. */
  lemma AddBookingInvalidIdFirst(id: Option<string>, body: BookingRequest, properties: seq<Property>,
                                 users: seq<User>, bookings: seq<Booking>)
    requires !ValidId(id)
    ensures AddBookingPlan(id, body, properties, users, bookings) == Answer(Reply(400, "Invalid property ID"))
  {
  }

  /** Missing fields are refused after the id check and before any lookup. */
  lemma AddBookingMissingFieldsSecond(id: Option<string>, body: BookingRequest, properties: seq<Property>,
                                      users: seq<User>, bookings: seq<Booking>)
    requires ValidId(id) && !FieldsPresent(body)
    ensures AddBookingPlan(id, body, properties, users, bookings) == Answer(Reply(400, "Missing required fields"))
  {
  }

  /** An unknown property is reported before the guest is looked up. */
  lemma AddBookingPropertyBeforeGuest(id: Option<string>, body: BookingRequest, properties: seq<Property>,
                                      users: seq<User>, bookings: seq<Booking>)
    requires ValidId(id) && FieldsPresent(body)
    requires CheckExists(PropertiesTable(properties), "property_id", id.value).Err?
    ensures AddBookingPlan(id, body, properties, users, bookings) == Answer(Forward(NotFound("property_id")))
  {
  }

  /** An unknown guest of an existing property is reported as the user check's 404. */
  lemma AddBookingUnknownGuest(id: Option<string>, body: BookingRequest, properties: seq<Property>,
                               users: seq<User>, bookings: seq<Booking>)
    requires ValidId(id) && FieldsPresent(body)
    requires CheckExists(PropertiesTable(properties), "property_id", id.value).Ok?
    requires CheckExists(UsersTable(users), "user_id", body.guest_id.value).Err?
    ensures AddBookingPlan(id, body, properties, users, bookings) == Answer(Forward(NotFound("user_id")))
  {
  }

  /**
   * A booking is inserted exactly when every earlier check passes: then it
   * is for an existing property and an existing guest, with the requested
   * dates, and no booking of that property overlaps them.
   */
  lemma AddBookingInsertsOnlyAfterChecks(id: Option<string>, body: BookingRequest, properties: seq<Property>,
                                         users: seq<User>, bookings: seq<Booking>)
    requires AddBookingPlan(id, body, properties, users, bookings).Insert?
    ensures var plan := AddBookingPlan(id, body, properties, users, bookings);
            ValidId(id) && FieldsPresent(body) &&
            plan.check_in == body.check_in_date.value && plan.check_out == body.check_out_date.value &&
            (exists k :: 0 <= k < |properties| && properties[k].property_id == plan.property_id) &&
            (exists k :: 0 <= k < |users| && users[k].user_id == plan.guest_id) &&
            !CheckBookingClash(bookings, plan.property_id, plan.check_in, plan.check_out)
  {
    var plan := AddBookingPlan(id, body, properties, users, bookings);
    assert LookupsPass(id, body, properties, users);
    PlanAfterLookups(id, body, properties, users, bookings);
    DecideInsertValues(id.value, body, bookings);
    ExistingKey(properties, id.value, plan.property_id);
    ExistingUser(users, body.guest_id.value, plan.guest_id);
  }

  /** An insert carries the cast ids and the requested dates, and the clash query found nothing. */
  lemma DecideInsertValues(id: string, body: BookingRequest, bookings: seq<Booking>)
    requires FieldsPresent(body) && DecideInsert(id, body, bookings).Insert?
    ensures var plan := DecideInsert(id, body, bookings);
            ParseInt(id) == Some(plan.property_id) && ParseInt(body.guest_id.value) == Some(plan.guest_id) &&
            plan.check_in == body.check_in_date.value && plan.check_out == body.check_out_date.value &&
            !CheckBookingClash(bookings, plan.property_id, plan.check_in, plan.check_out)
  {
  }

  /** A property id text that passed the existence check casts to the id of an existing property. */
  lemma ExistingKey(properties: seq<Property>, id: string, n: int)
    requires CheckExists(PropertiesTable(properties), "property_id", id).Ok?
    requires ParseInt(id) == Some(n)
    ensures exists k :: 0 <= k < |properties| && properties[k].property_id == n
  {
    var pt := PropertiesTable(properties);
    PropertiesTableKeys(properties);
    MatchedKeyParses(pt, "property_id", id);
    var i :| 0 <= i < |pt| && pt[i]["property_id"] == IntToString(n);
    IntToStringInjective(properties[i].property_id, n);
  }

  /** A guest id text that passed the existence check casts to the id of an existing user. */
  lemma ExistingUser(users: seq<User>, id: string, n: int)
    requires CheckExists(UsersTable(users), "user_id", id).Ok?
    requires ParseInt(id) == Some(n)
    ensures exists k :: 0 <= k < |users| && users[k].user_id == n
  {
    var ut := UsersTable(users);
    UsersTableKeys(users);
    MatchedKeyParses(ut, "user_id", id);
    var j :| 0 <= j < |ut| && ut[j]["user_id"] == IntToString(n);
    IntToStringInjective(users[j].user_id, n);
  }

  /** The decimal form of an existing property's id passes the id check and the property check. */
  lemma KnownPropertyPasses(properties: seq<Property>, k: nat)
    requires k < |properties|
    ensures ValidId(Some(IntToString(properties[k].property_id)))
    ensures CheckExists(PropertiesTable(properties), "property_id", IntToString(properties[k].property_id)).Ok?
  {
    IntToStringToNumber(properties[k].property_id);
    assert PropertiesTable(properties)[k]["property_id"] == IntToString(properties[k].property_id);
  }

  /** The decimal form of an existing user's id passes the user check. */
  lemma KnownUserPasses(users: seq<User>, g: nat)
    requires g < |users|
    ensures CheckExists(UsersTable(users), "user_id", IntToString(users[g].user_id)).Ok?
  {
    assert UsersTable(users)[g]["user_id"] == IntToString(users[g].user_id);
  }

  /** The id check, the fields check and both existence checks all pass. */
  predicate LookupsPass(id: Option<string>, body: BookingRequest, properties: seq<Property>, users: seq<User>) {
    ValidId(id) && FieldsPresent(body) &&
    CheckExists(PropertiesTable(properties), "property_id", id.value).Ok? &&
    CheckExists(UsersTable(users), "user_id", body.guest_id.value).Ok?
  }

  /** Once both lookups succeed, what remains is the clash query and the insert. */
  lemma PlanAfterLookups(id: Option<string>, body: BookingRequest, properties: seq<Property>, users: seq<User>,
                         bookings: seq<Booking>)
    requires LookupsPass(id, body, properties, users)
    ensures AddBookingPlan(id, body, properties, users, bookings) == DecideInsert(id.value, body, bookings)
  {
  }

  /** A request naming an existing property and an existing user by their ids passes every lookup. */
  lemma KnownIdsPass(properties: seq<Property>, users: seq<User>, k: nat, g: nat, check_in: Date, check_out: Date)
    requires k < |properties| && g < |users|
    ensures LookupsPass(Some(IntToString(properties[k].property_id)),
                        BookingRequest(Some(IntToString(users[g].user_id)), Some(check_in), Some(check_out)),
                        properties, users)
  {
    var id := IntToString(properties[k].property_id);
    var guest := IntToString(users[g].user_id);
    KnownPropertyPasses(properties, k);
    KnownUserPasses(users, g);
    assert FieldsPresent(BookingRequest(Some(guest), Some(check_in), Some(check_out)));
  }

  /** Booking an existing property for an existing guest on free dates is accepted. */
  lemma AddBookingAccepted(properties: seq<Property>, users: seq<User>, bookings: seq<Booking>,
                           k: nat, g: nat, check_in: Date, check_out: Date)
    requires k < |properties| && g < |users|
    requires !CheckBookingClash(bookings, properties[k].property_id, check_in, check_out)
    ensures AddBookingPlan(Some(IntToString(properties[k].property_id)),
                           BookingRequest(Some(IntToString(users[g].user_id)), Some(check_in), Some(check_out)),
                           properties, users, bookings) ==
            Insert(properties[k].property_id, users[g].user_id, check_in, check_out)
  {
    var p := properties[k].property_id;
    var u := users[g].user_id;
    var body := BookingRequest(Some(IntToString(u)), Some(check_in), Some(check_out));
    KnownIdsPass(properties, users, k, g, check_in, check_out);
    PlanAfterLookups(Some(IntToString(p)), body, properties, users, bookings);
    IntToStringParses(p);
    IntToStringParses(u);
  }

  /** Dates that overlap a booking of the same property are refused with the clash message. */
  lemma AddBookingClashRefused(properties: seq<Property>, users: seq<User>, bookings: seq<Booking>,
                               k: nat, g: nat, check_in: Date, check_out: Date)
    requires k < |properties| && g < |users|
    requires CheckBookingClash(bookings, properties[k].property_id, check_in, check_out)
    ensures AddBookingPlan(Some(IntToString(properties[k].property_id)),
                           BookingRequest(Some(IntToString(users[g].user_id)), Some(check_in), Some(check_out)),
                           properties, users, bookings) == Answer(Reply(400, ClashMsg))
  {
    var p := properties[k].property_id;
    var u := users[g].user_id;
    var body := BookingRequest(Some(IntToString(u)), Some(check_in), Some(check_out));
    KnownIdsPass(properties, users, k, g, check_in, check_out);
    PlanAfterLookups(Some(IntToString(p)), body, properties, users, bookings);
    IntToStringParses(p);
  }

  /**
   * addBooking: runs the checks and, only when all pass, appends the booking
   * and answers 201 with its new id; otherwise the table is unchanged. A
   * table without overlapping bookings stays so.
   */
  method AddBooking(id: Option<string>, body: BookingRequest, properties: seq<Property>, users: seq<User>,
                    table: BookingsTable, now: Timestamp)
    returns (o: Outcome)
    requires table.Valid()
    modifies table
    ensures table.Valid()
    ensures match AddBookingPlan(id, body, properties, users, old(table.rows))
            case Answer(answer) =>
              o == answer && table.rows == old(table.rows) && table.nextId == old(table.nextId)
            case Insert(property_id, guest_id, check_in, check_out) =>
              table.rows == old(table.rows) + [Booking(old(table.nextId), property_id, Some(guest_id), check_in, check_out, now)] &&
              o == Respond(Response(201, BookingCreated("Booking successful", old(table.nextId))))
    ensures NoOverlaps(old(table.rows)) ==> NoOverlaps(table.rows)
  {
    var plan := AddBookingPlan(id, body, properties, users, table.rows);
    match plan
    case Answer(answer) =>
      o := answer;
    case Insert(property_id, guest_id, check_in, check_out) =>
      ghost var before := table.rows;
      var booking_id := table.CreateBooking(property_id, Some(guest_id), check_in, check_out, now);
      o := Respond(Response(201, BookingCreated("Booking successful", booking_id)));
      AddBookingInsertsOnlyAfterChecks(id, body, properties, users, before);
      if NoOverlaps(before) {
        InsertAfterNoClashKeepsNoOverlaps(before, Booking(booking_id, property_id, Some(guest_id), check_in, check_out, now));
      }
  }

  // ---------------------------------------------------------------------------
  // GET /api/users/:id/bookings
  // ---------------------------------------------------------------------------

  /** The response shape of one row; `property_image || null` turns an empty URL into null. */
  function View(r: UserBookingRow): (v: UserBookingView)
    ensures v.booking_id == r.booking_id
    ensures v.check_in_date == r.check_in_date && v.check_out_date == r.check_out_date
    ensures v.property_id == r.property_id && v.property_name == r.property_name
    ensures v.host == r.host_name
    ensures Truthy(r.property_image) ==> v.image == r.property_image
    ensures !Truthy(r.property_image) ==> v.image.None?
  {
    UserBookingView(r.booking_id, r.check_in_date, r.check_out_date, r.property_id, r.property_name, r.host_name,
                    if Truthy(r.property_image) then r.property_image else None)
  }

  function Views(rows: seq<UserBookingRow>): (vs: seq<UserBookingView>)
    ensures |vs| == |rows|
    ensures forall k :: 0 <= k < |rows| ==> vs[k] == View(rows[k])
  {
    seq(|rows|, k requires 0 <= k < |rows| => View(rows[k]))
  }

  /** The answer to a guest listing: the model's rows, in the model's order, reshaped. */
  function UserBookingsAnswer(id: Option<string>, users: seq<User>, bookings: seq<Booking>,
                              properties: seq<Property>, images: seq<Image>): Outcome {
    if !ValidId(id) then Reply(400, "Invalid user ID")
    else match CheckExists(UsersTable(users), "user_id", id.value)
      case Err(e) => Forward(e)
      case Ok(_) =>
        match ParseInt(id.value)
        case None => Forward(BadIntegerInput)
        case Some(user_id) =>
          Respond(Response(200, UserBookings(Views(FetchBookingsByUser(bookings, properties, users, images, user_id)))))
  }

  /**
   * `bookings.sort((a, b) => new Date(a.check_in_date) - new Date(b.check_in_date))`:
   * an insertion sort from the right end, stable on equal check-in dates.
   */
  method SortByCheckIn(a: array<UserBookingRow>)
    modifies a
    ensures a[..] == SortBy(old(a[..]), CheckIn)
  {
    ghost var s := a[..];
    var i := a.Length;
    while i > 0
      invariant 0 <= i <= a.Length
      invariant a[..] == s[..i] + SortBy(s[i..], CheckIn)
    {
      i := i - 1;
      SortByCons(s, i, CheckIn);
      InsertInto(a, i, CheckIn);
    }
  }

  /**
   * getBookingsByUser. The rows come back from the query already in
   * check-in order, so sorting them again in place changes nothing.
   */
  method GetBookingsByUser(id: Option<string>, users: seq<User>, bookings: seq<Booking>,
                           properties: seq<Property>, images: seq<Image>)
    returns (o: Outcome)
    ensures o == UserBookingsAnswer(id, users, bookings, properties, images)
  {
    if !ValidId(id) {
      return Reply(400, "Invalid user ID");
    }
    var found := CheckExists(UsersTable(users), "user_id", id.value);
    if found.Err? {
      return Forward(found.error);
    }
    var user_id := ParseInt(id.value);
    if user_id.None? {
      return Forward(BadIntegerInput);
    }
    var rows := FetchBookingsByUser(bookings, properties, users, images, user_id.value);
    var a := new UserBookingRow[|rows|](k requires 0 <= k < |rows| => rows[k]);
    assert a[..] == rows;
    SortByCheckIn(a);
    SortBySortedIsIdentity(rows, CheckIn);
    o := Respond(Response(200, UserBookings(Views(a[..]))));
  }

  /** A missing or non-numeric user id is refused before anything is looked up. */
  lemma UserBookingsInvalidId(id: Option<string>, users: seq<User>, bookings: seq<Booking>,
                              properties: seq<Property>, images: seq<Image>)
    requires !ValidId(id)
    ensures UserBookingsAnswer(id, users, bookings, properties, images) == Reply(400, "Invalid user ID")
  {
  }

  /** A numeric id that no user has is passed on as the existence check's 404. */
  lemma UserBookingsUnknown(id: string, users: seq<User>, bookings: seq<Booking>,
                            properties: seq<Property>, images: seq<Image>)
    requires id != "" && IsNumeric(id)
    requires forall k :: 0 <= k < |users| ==> !EqualsIgnoringCase(IntToString(users[k].user_id), id)
    ensures UserBookingsAnswer(Some(id), users, bookings, properties, images) == Forward(NotFound("user_id"))
  {
    var t := UsersTable(users);
    assert forall k :: 0 <= k < |t| ==> t[k]["user_id"] == IntToString(users[k].user_id);
  }

  /** An existing user's id lists that user's rows from the booking model. */
  lemma UserBookingsFound(users: seq<User>, bookings: seq<Booking>, properties: seq<Property>,
                          images: seq<Image>, g: nat)
    requires g < |users|
    ensures var u := users[g].user_id;
            UserBookingsAnswer(Some(IntToString(u)), users, bookings, properties, images) ==
            Respond(Response(200, UserBookings(Views(FetchBookingsByUser(bookings, properties, users, images, u)))))
  {
    var u := users[g].user_id;
    IntToStringToNumber(u);
    IntToStringParses(u);
    assert UsersTable(users)[g]["user_id"] == IntToString(u);
  }

  /** The guest listing is in check-in order and holds only that guest's bookings. */
  lemma UserViewsOfGuest(bookings: seq<Booking>, properties: seq<Property>, users: seq<User>,
                         images: seq<Image>, u: int)
    ensures var vs := Views(FetchBookingsByUser(bookings, properties, users, images, u));
            (forall i, j :: 0 <= i < j < |vs| ==> vs[i].check_in_date <= vs[j].check_in_date) &&
            (forall k :: 0 <= k < |vs| ==> exists b :: b in bookings && b.guest_id == Some(u) &&
                                                b.booking_id == vs[k].booking_id)
  {
    var rows := FetchBookingsByUser(bookings, properties, users, images, u);
    var vs := Views(rows);
    forall k | 0 <= k < |vs|
      ensures exists b :: b in bookings && b.guest_id == Some(u) && b.booking_id == vs[k].booking_id
    {
      FetchBookingsByUserOnlyGuest(bookings, properties, users, images, u, rows[k]);
    }
    assert forall i, j :: 0 <= i < j < |rows| ==> CheckIn(rows[i]) <= CheckIn(rows[j]);
  }
}
