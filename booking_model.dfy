/**
 * models/booking.models.js over an in-memory bookings table: the clash
 * query, the two booking listings and the insert.
 */
module BookingModel {
  import opened Js
  import opened Seqs
  import opened Schema

  // ---------------------------------------------------------------------------
  // Clash
  // ---------------------------------------------------------------------------

  /** Two stays overlap: each starts before the other ends (both tests strict). */
  predicate Overlaps(in1: Date, out1: Date, in2: Date, out2: Date) {
    out1 > in2 && in1 < out2
  }

  /** `property_id = $1 AND check_out_date > $2 AND check_in_date < $3`. */
  predicate Clashes(b: Booking, property_id: int, check_in: Date, check_out: Date) {
    b.property_id == property_id && Overlaps(b.check_in_date, b.check_out_date, check_in, check_out)
  }

  function ClashingRows(bookings: seq<Booking>, property_id: int, check_in: Date, check_out: Date): seq<Booking> {
    Filter(bookings, (b: Booking) => Clashes(b, property_id, check_in, check_out))
  }

  /** checkBookingClash: true when the query returns at least one row. */
  function CheckBookingClash(bookings: seq<Booking>, property_id: int, check_in: Date, check_out: Date): (clash: bool)
    ensures clash <==> exists i :: 0 <= i < |bookings| && Clashes(bookings[i], property_id, check_in, check_out)
  {
    var rows := ClashingRows(bookings, property_id, check_in, check_out);
    assert forall i :: 0 <= i < |bookings| && Clashes(bookings[i], property_id, check_in, check_out) ==>
                       bookings[i] in rows;
    assert |rows| > 0 ==> rows[0] in bookings;
    |rows| > 0
  }

  /** Overlap does not depend on which stay is the existing one. */
  lemma OverlapsSymmetric(in1: Date, out1: Date, in2: Date, out2: Date)
    ensures Overlaps(in1, out1, in2, out2) == Overlaps(in2, out2, in1, out1)
  {
  }

  /** Stays that meet on a single day do not clash: the tests are strict. */
  lemma BackToBackStaysDoNotClash(b: Booking, check_in: Date, check_out: Date)
    ensures !Clashes(b, b.property_id, b.check_out_date, check_out)
    ensures !Clashes(b, b.property_id, check_in, b.check_in_date)
  {
  }

  /** Day d is a night of the stay [check_in, check_out). */
  predicate NightOf(d: Date, check_in: Date, check_out: Date) {
    check_in <= d < check_out
  }

  /**
   * For non-empty stays, the overlap test says exactly that the two stays
   * share a night.
   */
  lemma OverlapsIffSharedNight(in1: Date, out1: Date, in2: Date, out2: Date)
    requires in1 < out1 && in2 < out2
    ensures Overlaps(in1, out1, in2, out2) <==> exists d :: NightOf(d, in1, out1) && NightOf(d, in2, out2)
  {
    if Overlaps(in1, out1, in2, out2) {
      var d := if in1 < in2 then in2 else in1;
      assert NightOf(d, in1, out1) && NightOf(d, in2, out2);
    }
  }

  /** Bookings of other properties never make a clash. */
  lemma {:induction false} OtherPropertiesNeverClash(bookings: seq<Booking>, others: seq<Booking>,
                                                     property_id: int, check_in: Date, check_out: Date)
    requires forall i :: 0 <= i < |others| ==> others[i].property_id != property_id
    ensures ClashingRows(bookings + others, property_id, check_in, check_out) ==
            ClashingRows(bookings, property_id, check_in, check_out)
    ensures CheckBookingClash(bookings + others, property_id, check_in, check_out) ==
            CheckBookingClash(bookings, property_id, check_in, check_out)
  {
    var p := (b: Booking) => Clashes(b, property_id, check_in, check_out);
    FilterAppend(bookings, others, p);
    FilterCongruent(others, p, (b: Booking) => false);
    FilterNone(others);
  }

  lemma {:induction false} FilterNone<T(!new)>(s: seq<T>)
    ensures Filter(s, (x: T) => false) == []
  {
    if s != [] {
      FilterNone(s[1..]);
    }
  }

  /** No two bookings of one property overlap. */
  predicate NoOverlaps(bookings: seq<Booking>) {
    forall i, j :: 0 <= i < j < |bookings| && bookings[i].property_id == bookings[j].property_id ==>
      !Overlaps(bookings[i].check_in_date, bookings[i].check_out_date,
                bookings[j].check_in_date, bookings[j].check_out_date)
  }

  /** Appending a booking that the clash query lets through keeps the table free of overlaps. */
  lemma InsertAfterNoClashKeepsNoOverlaps(bookings: seq<Booking>, b: Booking)
    requires NoOverlaps(bookings)
    requires !CheckBookingClash(bookings, b.property_id, b.check_in_date, b.check_out_date)
    ensures NoOverlaps(bookings + [b])
  {
    var t := bookings + [b];
    forall i, j | 0 <= i < j < |t| && t[i].property_id == t[j].property_id
      ensures !Overlaps(t[i].check_in_date, t[i].check_out_date, t[j].check_in_date, t[j].check_out_date)
    {
      if j == |bookings| {
        assert t[i] == bookings[i] && t[j] == b;
        assert !Clashes(bookings[i], b.property_id, b.check_in_date, b.check_out_date);
      } else {
        assert t[i] == bookings[i] && t[j] == bookings[j];
      }
    }
  }

  // ---------------------------------------------------------------------------
  // Bookings of a property
  // ---------------------------------------------------------------------------

  /** The four columns the per-property query selects. */
  function Dates(b: Booking): BookingDates {
    BookingDates(b.booking_id, b.check_in_date, b.check_out_date, b.created_at)
  }

  function DatesOf(bs: seq<Booking>): (r: seq<BookingDates>)
    ensures |r| == |bs|
    ensures forall k :: 0 <= k < |bs| ==> r[k] == Dates(bs[k])
  {
    seq(|bs|, k requires 0 <= k < |bs| => Dates(bs[k]))
  }

  /** `ORDER BY check_out_date DESC` as an ascending sort on the negated date. */
  function LaterCheckOutFirst(d: BookingDates): int {
    -d.check_out_date
  }

  function OfProperty(property_id: int): Booking -> bool {
    (b: Booking) => b.property_id == property_id
  }

  /** fetchBookingsByProperty: the property's bookings, latest check-out first; ties keep table order. */
  function FetchBookingsByProperty(bookings: seq<Booking>, property_id: int): (r: seq<BookingDates>)
    ensures multiset(r) == multiset(DatesOf(Filter(bookings, OfProperty(property_id))))
    ensures forall i, j :: 0 <= i < j < |r| ==> r[i].check_out_date >= r[j].check_out_date
  {
    var r := SortBy(DatesOf(Filter(bookings, OfProperty(property_id))), LaterCheckOutFirst);
    assert forall i, j :: 0 <= i < j < |r| ==> LaterCheckOutFirst(r[i]) <= LaterCheckOutFirst(r[j]);
    r
  }

  /** The listing holds exactly the dates of the property's bookings. */
  lemma FetchBookingsByPropertyMembers(bookings: seq<Booking>, property_id: int, x: BookingDates)
    ensures x in FetchBookingsByProperty(bookings, property_id) <==>
            exists b :: b in bookings && b.property_id == property_id && x == Dates(b)
  {
    var mine := Filter(bookings, OfProperty(property_id));
    var ds := DatesOf(mine);
    assert x in FetchBookingsByProperty(bookings, property_id) <==> x in multiset(ds);
    if x in ds {
      var k :| 0 <= k < |ds| && ds[k] == x;
      assert mine[k] in mine;
    }
    forall b | b in bookings && b.property_id == property_id && x == Dates(b) ensures x in ds {
      assert b in mine;
      var k :| 0 <= k < |mine| && mine[k] == b;
      assert ds[k] == x;
    }
  }

  // ---------------------------------------------------------------------------
  // Bookings of a guest
  // ---------------------------------------------------------------------------

  /** The images of one property, in table order. */
  function OwnImages(images: seq<Image>, property_id: int): seq<Image> {
    Filter(images, (i: Image) => i.property_id == property_id)
  }

  /**
   * `LEFT JOIN images i ON p.property_id = i.property_id`, image column only:
   * the URLs of the property's own images in table order, or a single NULL
   * when it has none.
   */
  function ImageColumn(images: seq<Image>, property_id: int): (r: seq<Option<string>>)
    ensures var own := OwnImages(images, property_id);
            |r| == (if |own| == 0 then 1 else |own|) &&
            (own == [] ==> r == [None]) &&
            (forall k :: 0 <= k < |own| ==> r[k] == Some(own[k].image_url))
    ensures forall x :: x in r && x.Some? ==>
              exists i :: 0 <= i < |images| && images[i].property_id == property_id && x.value == images[i].image_url
  {
    var own := OwnImages(images, property_id);
    var r := if own == [] then [None] else seq(|own|, k requires 0 <= k < |own| => Some(own[k].image_url));
    assert forall k :: 0 <= k < |own| ==> own[k] in images && own[k].property_id == property_id;
    r
  }

  /** `u.first_name || ' ' || u.surname AS host_name`. */
  function HostName(host: User): string {
    host.first_name + " " + host.surname
  }

  /**
   * The join rows of one booking with its property, host and one image
   * column value each: row k carries the booking's id and dates, the
   * property's id and name, the host's full name and the k-th image value.
   */
  function RowsWithImages(b: Booking, p: Property, host: User, images: seq<Image>): (r: seq<UserBookingRow>)
    ensures |r| == |ImageColumn(images, p.property_id)|
    ensures forall k :: 0 <= k < |r| ==>
              r[k].booking_id == b.booking_id &&
              r[k].check_in_date == b.check_in_date && r[k].check_out_date == b.check_out_date &&
              r[k].property_id == p.property_id && r[k].property_name == p.name &&
              r[k].host_name == HostName(host) &&
              r[k].property_image == ImageColumn(images, p.property_id)[k]
  {
    var urls := ImageColumn(images, p.property_id);
    seq(|urls|, k requires 0 <= k < |urls| =>
      UserBookingRow(b.booking_id, b.check_in_date, b.check_out_date, p.property_id, p.name, HostName(host), urls[k]))
  }

  /** Rows of the host join for one property: one block per user whose id is the host id. */
  function HostRows(b: Booking, p: Property, users: seq<User>, images: seq<Image>): (r: seq<UserBookingRow>)
    ensures forall x :: x in r ==> x.booking_id == b.booking_id && x.check_in_date == b.check_in_date
  {
    Flatten(seq(|users|, j requires 0 <= j < |users| =>
      if users[j].user_id == p.host_id then RowsWithImages(b, p, users[j], images) else []))
  }

  /** `bookings b JOIN properties p ... JOIN users u ... LEFT JOIN images i ...` for one booking. */
  function JoinBooking(b: Booking, properties: seq<Property>, users: seq<User>, images: seq<Image>): (r: seq<UserBookingRow>)
    ensures forall x :: x in r ==> x.booking_id == b.booking_id && x.check_in_date == b.check_in_date
  {
    Flatten(seq(|properties|, i requires 0 <= i < |properties| =>
      if properties[i].property_id == b.property_id then HostRows(b, properties[i], users, images) else []))
  }

  function OfGuest(user_id: int): Booking -> bool {
    (b: Booking) => b.guest_id == Some(user_id)
  }

  function CheckIn(r: UserBookingRow): int {
    r.check_in_date
  }

  /** The join rows of the guest's bookings, in table order. */
  function GuestRows(bookings: seq<Booking>, properties: seq<Property>, users: seq<User>, images: seq<Image>,
                     user_id: int): seq<UserBookingRow> {
    var mine := Filter(bookings, OfGuest(user_id));
    Flatten(seq(|mine|, k requires 0 <= k < |mine| => JoinBooking(mine[k], properties, users, images)))
  }

  /** fetchBookingsByUser: the guest's join rows, earliest check-in first; ties keep table order. */
  function FetchBookingsByUser(bookings: seq<Booking>, properties: seq<Property>, users: seq<User>,
                               images: seq<Image>, user_id: int): (r: seq<UserBookingRow>)
    ensures SortedBy(r, CheckIn)
    ensures multiset(r) == multiset(GuestRows(bookings, properties, users, images, user_id))
  {
    SortBy(GuestRows(bookings, properties, users, images, user_id), CheckIn)
  }

  /** Every row the guest listing returns comes from one of that guest's bookings. */
  lemma FetchBookingsByUserOnlyGuest(bookings: seq<Booking>, properties: seq<Property>, users: seq<User>,
                                     images: seq<Image>, user_id: int, x: UserBookingRow)
    requires x in FetchBookingsByUser(bookings, properties, users, images, user_id)
    ensures exists b :: b in bookings && b.guest_id == Some(user_id) &&
                        x.booking_id == b.booking_id && x.check_in_date == b.check_in_date
  {
    var mine := Filter(bookings, OfGuest(user_id));
    var blocks := seq(|mine|, k requires 0 <= k < |mine| => JoinBooking(mine[k], properties, users, images));
    assert x in multiset(FetchBookingsByUser(bookings, properties, users, images, user_id));
    assert x in Flatten(blocks);
    var k :| 0 <= k < |blocks| && x in blocks[k];
    assert mine[k] in mine;
  }

  /** Flattening blocks that are empty except at index k gives block k. */
  lemma {:induction false} FlattenSingleBlock<T(!new)>(ss: seq<seq<T>>, k: nat)
    requires k < |ss|
    requires forall i :: 0 <= i < |ss| && i != k ==> ss[i] == []
    ensures Flatten(ss) == ss[k]
  {
    if k > 0 {
      assert ss[0] == [];
      FlattenSingleBlock(ss[1..], k - 1);
    } else {
      FlattenNoBlocks(ss[1..]);
    }
  }

  lemma {:induction false} FlattenNoBlocks<T(!new)>(ss: seq<seq<T>>)
    requires forall i :: 0 <= i < |ss| ==> ss[i] == []
    ensures Flatten(ss) == []
  {
    if ss != [] {
      FlattenNoBlocks(ss[1..]);
    }
  }

  /**
   * With unique property and user ids, a booking joins to its one property
   * and its one host and appears once per image of the property, or once
   * with a NULL image when the property has none.
   */
  lemma JoinBookingPerImage(b: Booking, properties: seq<Property>, users: seq<User>, images: seq<Image>,
                            pi: nat, ui: nat)
    requires pi < |properties| && properties[pi].property_id == b.property_id
    requires forall i :: 0 <= i < |properties| && i != pi ==> properties[i].property_id != b.property_id
    requires ui < |users| && users[ui].user_id == properties[pi].host_id
    requires forall j :: 0 <= j < |users| && j != ui ==> users[j].user_id != properties[pi].host_id
    ensures JoinBooking(b, properties, users, images) == RowsWithImages(b, properties[pi], users[ui], images)
    ensures |JoinBooking(b, properties, users, images)| ==
            var n := |OwnImages(images, b.property_id)|;
            if n == 0 then 1 else n
  {
    var p := properties[pi];
    var us := seq(|users|, j requires 0 <= j < |users| =>
      if users[j].user_id == p.host_id then RowsWithImages(b, p, users[j], images) else []);
    FlattenSingleBlock(us, ui);
    var ps := seq(|properties|, i requires 0 <= i < |properties| =>
      if properties[i].property_id == b.property_id then HostRows(b, properties[i], users, images) else []);
    FlattenSingleBlock(ps, pi);
  }

  // ---------------------------------------------------------------------------
  // The bookings table
  // ---------------------------------------------------------------------------

  /** The bookings table and the next value of its SERIAL booking_id sequence. */
  class BookingsTable {
    var rows: seq<Booking>
    var nextId: int

    /** Booking ids are positive, increase along the table and stay below the sequence's next value. */
    ghost predicate Valid()
      reads this
    {
      nextId >= 1 &&
      (forall i :: 0 <= i < |rows| ==> 1 <= rows[i].booking_id < nextId) &&
      (forall i, j :: 0 <= i < j < |rows| ==> rows[i].booking_id < rows[j].booking_id)
    }

    /** A freshly created, empty table. */
    constructor ()
      ensures Valid() && rows == [] && nextId == 1
    {
      rows := [];
      nextId := 1;
    }

    /**
     * createBooking: `INSERT ... VALUES ($1, $2, $3, $4, NOW()) RETURNING booking_id`
     * appends one row and returns its id, one no existing row has.
     */
    method CreateBooking(property_id: int, guest_id: Option<int>, check_in: Date, check_out: Date, now: Timestamp)
      returns (booking_id: int)
      requires Valid()
      modifies this
      ensures Valid()
      ensures rows == old(rows) + [Booking(booking_id, property_id, guest_id, check_in, check_out, now)]
      ensures booking_id == old(nextId) && nextId == old(nextId) + 1
      ensures forall i :: 0 <= i < |old(rows)| ==> old(rows)[i].booking_id != booking_id
    {
      booking_id := nextId;
      rows := rows + [Booking(booking_id, property_id, guest_id, check_in, check_out, now)];
      nextId := nextId + 1;
    }
  }
}
