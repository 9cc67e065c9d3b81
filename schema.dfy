/**
 * The tables created by db/seed.js, as in-memory rows, and the rows the
 * booking queries return. SERIAL keys are plain integers; DATE and TIMESTAMP
 * columns are abstract ordered instants.
 */
module Schema {
  import opened Js

  /** A DATE column: a day number. */
  type Date = int

  /** A TIMESTAMP column: an abstract ordered instant. */
  type Timestamp = int

  datatype PropertyType = PropertyType(property_type: string, description: string)

  datatype User = User(
    user_id: int,
    first_name: string,
    surname: string,
    email: string,
    phone_number: Option<string>,
    is_host: bool,
    avatar: Option<string>,
    created_at: Timestamp)

  datatype Property = Property(
    property_id: int,
    host_id: int,
    name: string,
    location: string,
    property_type: string,
    price_per_night: real,
    description: Option<string>)

  datatype Review = Review(
    review_id: int,
    property_id: int,
    guest_id: int,
    rating: int,
    comment: Option<string>,
    created_at: Timestamp)

  datatype Image = Image(image_id: int, property_id: int, image_url: string, alt_text: string)

  datatype Favourite = Favourite(favourite_id: int, guest_id: int, property_id: Option<int>)

  datatype Booking = Booking(
    booking_id: int,
    property_id: int,
    guest_id: Option<int>,
    check_in_date: Date,
    check_out_date: Date,
    created_at: Timestamp)

  datatype PropertyAmenity = PropertyAmenity(properties_amenity: int, property_id: int, amenity_slug: string)

  /** `SELECT booking_id, check_in_date, check_out_date, created_at FROM bookings`. */
  datatype BookingDates = BookingDates(
    booking_id: int,
    check_in_date: Date,
    check_out_date: Date,
    created_at: Timestamp)

  /** One row of the per-user booking join: booking, property, host name and one image (or NULL). */
  datatype UserBookingRow = UserBookingRow(
    booking_id: int,
    check_in_date: Date,
    check_out_date: Date,
    property_id: int,
    property_name: string,
    host_name: string,
    property_image: Option<string>)

  // ---------------------------------------------------------------------------
  // Rows as the case-insensitive existence check reads them: column -> text
  // ---------------------------------------------------------------------------

  type Row = map<string, string>

  /** The integer-typed columns among those the rows carry. */
  predicate IntegerColumn(column: string) {
    column == "property_id" || column == "host_id" || column == "user_id"
  }

  function PropertyRow(p: Property): (r: Row)
    ensures "property_id" in r && "property_type" in r && "name" in r
    ensures r["property_id"] == IntToString(p.property_id)
    ensures r["property_type"] == p.property_type
  {
    map["property_id" := IntToString(p.property_id),
        "host_id" := IntToString(p.host_id),
        "name" := p.name,
        "location" := p.location,
        "property_type" := p.property_type]
  }

  function UserRow(u: User): (r: Row)
    ensures "user_id" in r
    ensures r["user_id"] == IntToString(u.user_id)
  {
    map["user_id" := IntToString(u.user_id),
        "first_name" := u.first_name,
        "surname" := u.surname,
        "email" := u.email]
  }

  function PropertiesTable(ps: seq<Property>): (t: seq<Row>)
    ensures |t| == |ps|
    ensures forall i :: 0 <= i < |ps| ==> t[i] == PropertyRow(ps[i])
  {
    seq(|ps|, i requires 0 <= i < |ps| => PropertyRow(ps[i]))
  }

  function UsersTable(us: seq<User>): (t: seq<Row>)
    ensures |t| == |us|
    ensures forall i :: 0 <= i < |us| ==> t[i] == UserRow(us[i])
  {
    seq(|us|, i requires 0 <= i < |us| => UserRow(us[i]))
  }
}
