/**
 * db/seed.js: turning the fixture data into table rows. Each INSERT into a
 * freshly created table is modelled by numbering its rows 1, 2, ... (the
 * SERIAL keys); `new Date()` is the parameter `now`.
 */
module Seed {
  import opened Js
  import opened Seqs
  import opened Schema
  import opened Http

  // ---------------------------------------------------------------------------
  // Fixture data
  // ---------------------------------------------------------------------------

  datatype UserData = UserData(
    first_name: string,
    surname: string,
    email: string,
    phone_number: Option<string>,
    is_host: bool,
    avatar: Option<string>,
    created_at: Option<Timestamp>)

  /** A property as the fixtures describe it; `amenities` may be absent. */
  datatype PropertyData = PropertyData(
    name: string,
    property_type: string,
    location: string,
    price_per_night: real,
    description: Option<string>,
    host_name: string,
    amenities: Option<seq<string>>)

  datatype ReviewData = ReviewData(
    guest_name: string,
    property_name: string,
    rating: int,
    comment: Option<string>,
    created_at: Option<Timestamp>)

  datatype ImageData = ImageData(property_name: string, image_url: string, alt_text: Option<string>)

  datatype FavouriteData = FavouriteData(guest_name: string, property_name: string)

  datatype BookingData = BookingData(
    property_name: string,
    guest_name: string,
    check_in_date: Date,
    check_out_date: Date,
    created_at: Option<Timestamp>)

  /** `created_at || new Date()`; None marks a falsy created_at. */
  function CreatedOr(created_at: Option<Timestamp>, now: Timestamp): (t: Timestamp)
    ensures created_at.Some? ==> t == created_at.value
    ensures created_at.None? ==> t == now
  {
    if created_at.Some? then created_at.value else now
  }

  // ---------------------------------------------------------------------------
  // Users and the name -> id lookups
  // ---------------------------------------------------------------------------

  /** `INSERT INTO users ... RETURNING *`. */
  function InsertUsers(data: seq<UserData>, now: Timestamp): (rows: seq<User>)
    ensures |rows| == |data|
    ensures forall i :: 0 <= i < |data| ==>
              rows[i].user_id == i + 1 && rows[i].first_name == data[i].first_name && rows[i].surname == data[i].surname
    ensures forall i :: 0 <= i < |data| ==>
              rows[i].email == data[i].email && rows[i].phone_number == data[i].phone_number &&
              rows[i].is_host == data[i].is_host && rows[i].avatar == data[i].avatar &&
              rows[i].created_at == CreatedOr(data[i].created_at, now)
  {
    seq(|data|, i requires 0 <= i < |data| =>
      var u := data[i];
      User(i + 1, u.first_name, u.surname, u.email, u.phone_number, u.is_host, u.avatar, CreatedOr(u.created_at, now)))
  }

  /** `${first_name} ${surname}`. */
  function FullName(u: User): string {
    u.first_name + " " + u.surname
  }

  function UserId(u: User): int {
    u.user_id
  }

  /** The object `ref[key(row)] = id(row)` leaves after visiting the rows in order. */
  function RefOf<T>(rows: seq<T>, key: T -> string, id: T -> int): map<string, int> {
    if rows == [] then map[]
    else RefOf(rows[..|rows| - 1], key, id)[key(rows[|rows| - 1]) := id(rows[|rows| - 1])]
  }

  /**
   * Visiting the rows in order leaves every key of some row present, mapped to
   * the id of a row with that key, and the last row with a key wins.
   */
  lemma {:induction false} RefOfKeys<T>(rows: seq<T>, key: T -> string, id: T -> int)
    ensures var ref := RefOf(rows, key, id);
            (forall k :: k in ref <==> exists i :: 0 <= i < |rows| && key(rows[i]) == k) &&
            (forall k :: k in ref ==> exists i :: 0 <= i < |rows| && key(rows[i]) == k && ref[k] == id(rows[i])) &&
            (forall i :: 0 <= i < |rows| && (forall j :: i < j < |rows| ==> key(rows[j]) != key(rows[i])) ==>
               ref[key(rows[i])] == id(rows[i]))
  {
    if rows != [] {
      var n := |rows| - 1;
      var init := rows[..n];
      RefOfKeys(init, key, id);
      assert forall i :: 0 <= i < n ==> init[i] == rows[i];
    }
  }

  /** The forEach that fills a plain object by key, one row at a time. */
  method BuildRef<T>(rows: seq<T>, key: T -> string, id: T -> int) returns (ref: map<string, int>)
    ensures ref == RefOf(rows, key, id)
    ensures forall k :: k in ref <==> exists i :: 0 <= i < |rows| && key(rows[i]) == k
    ensures forall k :: k in ref ==> exists i :: 0 <= i < |rows| && key(rows[i]) == k && ref[k] == id(rows[i])
    ensures forall i :: 0 <= i < |rows| && (forall j :: i < j < |rows| ==> key(rows[j]) != key(rows[i])) ==>
              ref[key(rows[i])] == id(rows[i])
  {
    ref := map[];
    var n := 0;
    while n < |rows|
      invariant 0 <= n <= |rows|
      invariant ref == RefOf(rows[..n], key, id)
    {
      assert rows[..n + 1][..n] == rows[..n];
      ref := ref[key(rows[n]) := id(rows[n])];
      n := n + 1;
    }
    assert rows[..n] == rows;
    RefOfKeys(rows, key, id);
  }

  /** `ref[name]` tested for truthiness: an absent name (or an id of 0) resolves to nothing. */
  function Resolve(ref: map<string, int>, name: string): (r: Option<int>)
    ensures r.Some? <==> name in ref && ref[name] != 0
    ensures r.Some? ==> r.value == ref[name]
  {
    if name in ref && ref[name] != 0 then Some(ref[name]) else None
  }

  // ---------------------------------------------------------------------------
  // Mapping that stops at the first thrown error
  // ---------------------------------------------------------------------------

  /** Element i is the first whose conversion throws. */
  predicate FirstFailure<T, U>(s: seq<T>, f: T -> Result<U>, i: int) {
    0 <= i < |s| && f(s[i]).Err? && forall j :: 0 <= j < i ==> f(s[j]).Ok?
  }

  /** `s.map(f)` where f may throw: all results, or the error of the first element that throws. */
  function MapAll<T, U>(s: seq<T>, f: T -> Result<U>): (r: Result<seq<U>>)
    ensures r.Ok? <==> forall i :: 0 <= i < |s| ==> f(s[i]).Ok?
    ensures r.Ok? ==> |r.value| == |s| && forall i :: 0 <= i < |s| ==> r.value[i] == f(s[i]).value
    ensures r.Err? ==> exists i :: FirstFailure(s, f, i) && r.error == f(s[i]).error
  {
    if s == [] then Ok([])
    else match f(s[0])
      case Err(e) =>
        assert FirstFailure(s, f, 0);
        Err(e)
      case Ok(y) =>
        var rest := MapAll(s[1..], f);
        assert forall i :: 1 <= i < |s| ==> s[1..][i - 1] == s[i];
        match rest
        case Err(e) =>
          var i :| FirstFailure(s[1..], f, i) && e == f(s[1..][i]).error;
          assert FirstFailure(s, f, i + 1);
          Err(e)
        case Ok(ys) => Ok([y] + ys)
  }

  // ---------------------------------------------------------------------------
  // Properties
  // ---------------------------------------------------------------------------

  /** [host_id, name, location, property_type, price_per_night, description]. */
  datatype PropertyTuple = PropertyTuple(
    host_id: int,
    name: string,
    location: string,
    property_type: string,
    price_per_night: real,
    description: Option<string>)

  function HostNotFound(host_name: string): JsError {
    Thrown("No user found for host_name: " + host_name)
  }

  /** One property with its host name replaced by the host's id, or the error thrown for it. */
  function FormatProperty(usersRef: map<string, int>, p: PropertyData): Result<PropertyTuple> {
    match Resolve(usersRef, p.host_name)
    case None => Err(HostNotFound(p.host_name))
    case Some(host_id) => Ok(PropertyTuple(host_id, p.name, p.location, p.property_type, p.price_per_night, p.description))
  }

  function FormatProperties(ps: seq<PropertyData>, usersRef: map<string, int>): Result<seq<PropertyTuple>> {
    MapAll(ps, (p: PropertyData) => FormatProperty(usersRef, p))
  }

  /**
   * Formatting the properties succeeds exactly when every host name
   * resolves, and each tuple carries its host's id; otherwise the error names
   * the first host that does not resolve.
   */
  lemma FormatPropertiesResult(ps: seq<PropertyData>, usersRef: map<string, int>)
    ensures var r := FormatProperties(ps, usersRef);
            (r.Ok? <==> forall i :: 0 <= i < |ps| ==> Resolve(usersRef, ps[i].host_name).Some?) &&
            (r.Ok? ==> |r.value| == |ps| &&
                       forall i :: 0 <= i < |ps| ==>
                         r.value[i] == PropertyTuple(Resolve(usersRef, ps[i].host_name).value, ps[i].name,
                                                     ps[i].location, ps[i].property_type,
                                                     ps[i].price_per_night, ps[i].description)) &&
            (r.Err? ==> exists i :: 0 <= i < |ps| && Resolve(usersRef, ps[i].host_name).None? &&
                                    (forall j :: 0 <= j < i ==> Resolve(usersRef, ps[j].host_name).Some?) &&
                                    r.error == HostNotFound(ps[i].host_name))
  {
    var f := (p: PropertyData) => FormatProperty(usersRef, p);
    var r := FormatProperties(ps, usersRef);
    if r.Err? {
      var i :| FirstFailure(ps, f, i) && r.error == f(ps[i]).error;
      assert forall j :: 0 <= j < i ==> f(ps[j]).Ok?;
    }
  }

  /** `INSERT INTO properties ... RETURNING *`. */
  function InsertProperties(ts: seq<PropertyTuple>): (rows: seq<Property>)
    ensures |rows| == |ts|
    ensures forall i :: 0 <= i < |ts| ==>
              rows[i].property_id == i + 1 && rows[i].host_id == ts[i].host_id && rows[i].name == ts[i].name
    ensures forall i :: 0 <= i < |ts| ==>
              rows[i].location == ts[i].location && rows[i].property_type == ts[i].property_type &&
              rows[i].price_per_night == ts[i].price_per_night && rows[i].description == ts[i].description
  {
    seq(|ts|, i requires 0 <= i < |ts| =>
      var t := ts[i];
      Property(i + 1, t.host_id, t.name, t.location, t.property_type, t.price_per_night, t.description))
  }

  function PropertyName(p: Property): string {
    p.name
  }

  function PropertyId(p: Property): int {
    p.property_id
  }

  // ---------------------------------------------------------------------------
  // Amenities
  // ---------------------------------------------------------------------------

  /** `property.amenities`, empty when absent. */
  function AmenitiesOf(p: PropertyData): seq<string> {
    if p.amenities.Some? then p.amenities.value else []
  }

  /** Every amenity of every property, in order, duplicates included. */
  function AllAmenities(ps: seq<PropertyData>): seq<string> {
    if ps == [] then [] else AllAmenities(ps[..|ps| - 1]) + AmenitiesOf(ps[|ps| - 1])
  }

  lemma AllAmenitiesPrefix(ps: seq<PropertyData>, i: nat)
    requires i < |ps|
    ensures AllAmenities(ps[..i + 1]) ==
            if ps[i].amenities.Some? then AllAmenities(ps[..i]) + ps[i].amenities.value else AllAmenities(ps[..i])
  {
    assert ps[..i + 1][..i] == ps[..i];
    if ps[i].amenities.None? {
      assert AllAmenities(ps[..i]) + [] == AllAmenities(ps[..i]);
    }
  }

  /**
   * The nested forEach adding each amenity to a Set, listed in insertion
   * order: each distinct amenity once, in the order first seen.
   */
  method CollectAmenities(ps: seq<PropertyData>) returns (unique: seq<string>)
    ensures unique == Dedup(AllAmenities(ps))
  {
    unique := [];
    var i := 0;
    while i < |ps|
      invariant 0 <= i <= |ps|
      invariant unique == Dedup(AllAmenities(ps[..i]))
    {
      AllAmenitiesPrefix(ps, i);
      if ps[i].amenities.Some? {
        unique := AddAll(unique, AllAmenities(ps[..i]), ps[i].amenities.value);
      }
      i := i + 1;
    }
    assert ps[..i] == ps;
  }

  /** `list.forEach(a => set.add(a))` on a Set that holds what was seen so far. */
  method AddAll(unique: seq<string>, ghost seen: seq<string>, list: seq<string>) returns (r: seq<string>)
    requires unique == Dedup(seen)
    ensures r == Dedup(seen + list)
  {
    r := unique;
    var j := 0;
    SnocSlice(seen, list, 0);
    while j < |list|
      invariant 0 <= j <= |list|
      invariant r == Dedup(seen + list[..j])
    {
      DedupSnoc(seen + list[..j], list[j]);
      SnocSlice(seen, list, j + 1);
      if list[j] !in r {
        r := r + [list[j]];
      }
      j := j + 1;
    }
    SnocSlice(seen, list, j);
  }

  /** The prefixes of seen + list, one element at a time. */
  lemma SnocSlice(seen: seq<string>, list: seq<string>, j: nat)
    requires j <= |list|
    ensures j == 0 ==> seen + list[..j] == seen
    ensures j > 0 ==> seen + list[..j] == (seen + list[..j - 1]) + [list[j - 1]]
    ensures j == |list| ==> seen + list[..j] == seen + list
  {
    if j > 0 {
      assert list[..j] == list[..j - 1] + [list[j - 1]];
    }
    if j == |list| {
      assert list[..j] == list;
    }
  }

  /** An amenity is listed exactly when some property has it. */
  lemma {:induction false} AllAmenitiesMembers(ps: seq<PropertyData>, a: string)
    ensures a in AllAmenities(ps) <==> exists k :: 0 <= k < |ps| && a in AmenitiesOf(ps[k])
  {
    if ps != [] {
      var n := |ps| - 1;
      var p := ps[..n];
      AllAmenitiesMembers(p, a);
      assert AllAmenities(ps) == AllAmenities(p) + AmenitiesOf(ps[n]);
      assert forall k :: 0 <= k < n ==> p[k] == ps[k];
      if a in AllAmenities(ps) && a !in AmenitiesOf(ps[n]) {
        var k :| 0 <= k < n && a in AmenitiesOf(p[k]);
        assert a in AmenitiesOf(ps[k]);
      }
      if exists k :: 0 <= k < |ps| && a in AmenitiesOf(ps[k]) {
        var k :| 0 <= k < |ps| && a in AmenitiesOf(ps[k]);
        if k < n {
          assert a in AmenitiesOf(p[k]);
        }
      }
    }
  }

  /** `propertiesData.find(p => p.name === name)`: the first entry with that name. */
  function FindByName(ps: seq<PropertyData>, name: string): (r: Option<PropertyData>)
    ensures r.Some? ==> r.value.name == name
    ensures r.Some? ==> exists k :: 0 <= k < |ps| && ps[k] == r.value && forall j :: 0 <= j < k ==> ps[j].name != name
    ensures r.None? <==> forall k :: 0 <= k < |ps| ==> ps[k].name != name
  {
    if ps == [] then None
    else if ps[0].name == name then Some(ps[0])
    else
      assert forall k :: 1 <= k < |ps| ==> ps[k] == ps[1..][k - 1];
      var r := FindByName(ps[1..], name);
      if r.Some? then
        var k :| 0 <= k < |ps[1..]| && ps[1..][k] == r.value && forall j :: 0 <= j < k ==> ps[1..][j].name != name;
        assert forall j :: 0 <= j < k + 1 ==> ps[j].name != name;
        r
      else r
  }

  /** A [property_id, amenity_slug] pair. */
  datatype AmenityLink = AmenityLink(property_id: int, amenity_slug: string)

  /** One [property_id, amenity] pair per amenity, in order. */
  function LinksOf(property_id: int, list: seq<string>): (r: seq<AmenityLink>)
    ensures |r| == |list|
    ensures forall k :: 0 <= k < |list| ==> r[k] == AmenityLink(property_id, list[k])
  {
    seq(|list|, k requires 0 <= k < |list| => AmenityLink(property_id, list[k]))
  }

  /** The pairs one inserted property contributes: one per amenity of the first fixture with its name. */
  function LinksFor(row: Property, ps: seq<PropertyData>): (r: seq<AmenityLink>)
    ensures forall x :: x in r ==> x.property_id == row.property_id
  {
    match FindByName(ps, row.name)
    case None => []
    case Some(p) => LinksOf(row.property_id, AmenitiesOf(p))
  }

  /** All pairs, property by property in table order. */
  function AmenityLinks(rows: seq<Property>, ps: seq<PropertyData>): seq<AmenityLink> {
    if rows == [] then [] else AmenityLinks(rows[..|rows| - 1], ps) + LinksFor(rows[|rows| - 1], ps)
  }

  lemma AmenityLinksPrefix(rows: seq<Property>, ps: seq<PropertyData>, i: nat)
    requires i < |rows|
    ensures AmenityLinks(rows[..i + 1], ps) == AmenityLinks(rows[..i], ps) + LinksFor(rows[i], ps)
  {
    assert rows[..i + 1][..i] == rows[..i];
  }

  /** The forEach over inserted properties that pushes one pair per amenity. */
  method PropertyAmenityPairs(rows: seq<Property>, ps: seq<PropertyData>) returns (pairs: seq<AmenityLink>)
    ensures pairs == AmenityLinks(rows, ps)
  {
    pairs := [];
    var i := 0;
    while i < |rows|
      invariant 0 <= i <= |rows|
      invariant pairs == AmenityLinks(rows[..i], ps)
    {
      AmenityLinksPrefix(rows, ps, i);
      pairs := PairsOfProperty(pairs, rows[i], ps);
      i := i + 1;
    }
    assert rows[..i] == rows;
  }

  /** One property's turn: find its fixture by name and push a pair per amenity, if it has any. */
  method PairsOfProperty(pairs: seq<AmenityLink>, row: Property, ps: seq<PropertyData>) returns (r: seq<AmenityLink>)
    ensures r == pairs + LinksFor(row, ps)
  {
    var original := FindByName(ps, row.name);
    if original.Some? && original.value.amenities.Some? {
      r := PushLinks(pairs, row.property_id, original.value.amenities.value);
    } else {
      assert LinksFor(row, ps) == [];
      r := pairs;
      assert r == pairs + [];
    }
  }

  /** `amenities.forEach(a => pairs.push([property_id, a]))`. */
  method PushLinks(pairs: seq<AmenityLink>, property_id: int, list: seq<string>) returns (r: seq<AmenityLink>)
    ensures r == pairs + LinksOf(property_id, list)
  {
    r := pairs;
    var j := 0;
    while j < |list|
      invariant 0 <= j <= |list|
      invariant r == pairs + LinksOf(property_id, list)[..j]
    {
      assert LinksOf(property_id, list)[..j + 1] == LinksOf(property_id, list)[..j] + [AmenityLink(property_id, list[j])];
      r := r + [AmenityLink(property_id, list[j])];
      j := j + 1;
    }
    assert LinksOf(property_id, list)[..j] == LinksOf(property_id, list);
  }

  /** Every pair names an inserted property and an amenity that was inserted. */
  lemma {:induction false} AmenityLinksIntact(rows: seq<Property>, ps: seq<PropertyData>, x: AmenityLink)
    requires x in AmenityLinks(rows, ps)
    ensures exists k :: 0 <= k < |rows| && rows[k].property_id == x.property_id
    ensures x.amenity_slug in Dedup(AllAmenities(ps))
  {
    var n := |rows| - 1;
    if x in AmenityLinks(rows[..n], ps) {
      AmenityLinksIntact(rows[..n], ps, x);
      var k :| 0 <= k < n && rows[..n][k].property_id == x.property_id;
      assert rows[k] == rows[..n][k];
    } else {
      assert x in LinksFor(rows[n], ps);
      var p := FindByName(ps, rows[n].name).value;
      var list := AmenitiesOf(p);
      var k :| 0 <= k < |list| && x == AmenityLink(rows[n].property_id, list[k]);
      var m :| 0 <= m < |ps| && ps[m] == p;
      assert x.amenity_slug in AmenitiesOf(ps[m]);
      AllAmenitiesMembers(ps, x.amenity_slug);
      DedupMembers(AllAmenities(ps));
    }
  }

  /** `INSERT INTO properties_amenities ...`, issued only when there is at least one pair. */
  function InsertAmenityLinks(pairs: seq<AmenityLink>): (rows: seq<PropertyAmenity>)
    ensures |rows| == |pairs|
    ensures forall i :: 0 <= i < |pairs| ==>
              rows[i].property_id == pairs[i].property_id && rows[i].amenity_slug == pairs[i].amenity_slug
  {
    if |pairs| == 0 then []
    else seq(|pairs|, i requires 0 <= i < |pairs| => PropertyAmenity(i + 1, pairs[i].property_id, pairs[i].amenity_slug))
  }

  // ---------------------------------------------------------------------------
  // Reviews, images, favourites and bookings
  // ---------------------------------------------------------------------------

  /** [property_id, guest_id, rating, comment, created_at]. */
  datatype ReviewTuple = ReviewTuple(property_id: int, guest_id: int, rating: int, comment: Option<string>,
                                     created_at: Timestamp)

  /** A review with both names resolved, property first; null when either is unknown. */
  function FormatReview(propertiesRef: map<string, int>, usersRef: map<string, int>, now: Timestamp,
                        r: ReviewData): Option<ReviewTuple> {
    match Resolve(propertiesRef, r.property_name)
    case None => None
    case Some(property_id) =>
      match Resolve(usersRef, r.guest_name)
      case None => None
      case Some(guest_id) => Some(ReviewTuple(property_id, guest_id, r.rating, r.comment, CreatedOr(r.created_at, now)))
  }

  /**
   * Reviews whose property and guest both resolve are kept, in order, and
   * the others are dropped; so no more reviews come out than went in.
   */
  function FormatReviews(rs: seq<ReviewData>, propertiesRef: map<string, int>, usersRef: map<string, int>,
                         now: Timestamp): (out: seq<ReviewTuple>)
    ensures |out| <= |rs|
    ensures forall t :: t in out <==>
              exists i :: 0 <= i < |rs| &&
                Resolve(propertiesRef, rs[i].property_name) == Some(t.property_id) &&
                Resolve(usersRef, rs[i].guest_name) == Some(t.guest_id) &&
                t == ReviewTuple(t.property_id, t.guest_id, rs[i].rating, rs[i].comment, CreatedOr(rs[i].created_at, now))
  {
    FilterMap(rs, (r: ReviewData) => FormatReview(propertiesRef, usersRef, now, r))
  }

  /** [property_id, image_url, alt_text]. */
  datatype ImageTuple = ImageTuple(property_id: int, image_url: string, alt_text: string)

  function ImagePropertyNotFound(property_name: string): JsError {
    Thrown("No property_id found for property_name: " + property_name)
  }

  /** An image with its property resolved and `alt_text || "Image"`, or the error thrown for it. */
  function FormatImage(propertiesRef: map<string, int>, img: ImageData): (r: Result<ImageTuple>)
    ensures r.Ok? ==> r.value.alt_text == OrElse(img.alt_text, "Image")
  {
    match Resolve(propertiesRef, img.property_name)
    case None => Err(ImagePropertyNotFound(img.property_name))
    case Some(property_id) => Ok(ImageTuple(property_id, img.image_url, OrElse(img.alt_text, "Image")))
  }

  function FormatImages(imgs: seq<ImageData>, propertiesRef: map<string, int>): Result<seq<ImageTuple>> {
    MapAll(imgs, (img: ImageData) => FormatImage(propertiesRef, img))
  }

  /** An unresolved property aborts the image step; otherwise every image is kept with a non-empty alt text. */
  lemma FormatImagesResult(imgs: seq<ImageData>, propertiesRef: map<string, int>)
    ensures var r := FormatImages(imgs, propertiesRef);
            (r.Ok? <==> forall i :: 0 <= i < |imgs| ==> Resolve(propertiesRef, imgs[i].property_name).Some?) &&
            (r.Ok? ==> |r.value| == |imgs| && forall i :: 0 <= i < |imgs| ==> r.value[i].alt_text != "") &&
            (r.Ok? ==> forall i :: 0 <= i < |imgs| ==>
                         r.value[i] == ImageTuple(Resolve(propertiesRef, imgs[i].property_name).value, imgs[i].image_url,
                                                  OrElse(imgs[i].alt_text, "Image"))) &&
            (r.Err? ==> exists i :: 0 <= i < |imgs| && Resolve(propertiesRef, imgs[i].property_name).None? &&
                                    (forall j :: 0 <= j < i ==> Resolve(propertiesRef, imgs[j].property_name).Some?) &&
                                    r.error == ImagePropertyNotFound(imgs[i].property_name))
  {
    var f := (img: ImageData) => FormatImage(propertiesRef, img);
    var r := FormatImages(imgs, propertiesRef);
    if r.Err? {
      var i :| FirstFailure(imgs, f, i) && r.error == f(imgs[i]).error;
      assert forall j :: 0 <= j < i ==> f(imgs[j]).Ok?;
    }
  }

  /** [guest_id, property_id]. */
  datatype FavouriteTuple = FavouriteTuple(guest_id: int, property_id: int)

  /** A favourite with both names resolved, guest first; null when either is unknown. */
  function FormatFavourite(propertiesRef: map<string, int>, usersRef: map<string, int>, f: FavouriteData): Option<FavouriteTuple> {
    match Resolve(usersRef, f.guest_name)
    case None => None
    case Some(guest_id) =>
      match Resolve(propertiesRef, f.property_name)
      case None => None
      case Some(property_id) => Some(FavouriteTuple(guest_id, property_id))
  }

  /** Exactly the favourites whose guest and property both resolve are kept, carrying the two ids. */
  function FormatFavourites(fs: seq<FavouriteData>, propertiesRef: map<string, int>, usersRef: map<string, int>)
    : (out: seq<FavouriteTuple>)
    ensures |out| <= |fs|
    ensures forall t :: t in out <==>
              exists i :: 0 <= i < |fs| && Resolve(usersRef, fs[i].guest_name) == Some(t.guest_id) &&
                          Resolve(propertiesRef, fs[i].property_name) == Some(t.property_id)
  {
    FilterMap(fs, (f: FavouriteData) => FormatFavourite(propertiesRef, usersRef, f))
  }

  /** [property_id, guest_id, check_in_date, check_out_date, created_at]. */
  datatype BookingTuple = BookingTuple(property_id: int, guest_id: int, check_in_date: Date, check_out_date: Date,
                                       created_at: Timestamp)

  /** A booking with both names resolved, property first; null when either is unknown. */
  function FormatBooking(propertiesRef: map<string, int>, usersRef: map<string, int>, now: Timestamp,
                         b: BookingData): Option<BookingTuple> {
    match Resolve(propertiesRef, b.property_name)
    case None => None
    case Some(property_id) =>
      match Resolve(usersRef, b.guest_name)
      case None => None
      case Some(guest_id) =>
        Some(BookingTuple(property_id, guest_id, b.check_in_date, b.check_out_date, CreatedOr(b.created_at, now)))
  }

  /** Kept bookings carry their fixture's dates and resolved ids; the rest are dropped. */
  function FormatBookings(bs: seq<BookingData>, propertiesRef: map<string, int>, usersRef: map<string, int>,
                          now: Timestamp): (out: seq<BookingTuple>)
    ensures |out| <= |bs|
    ensures forall t :: t in out <==>
              exists i :: 0 <= i < |bs| &&
                Resolve(propertiesRef, bs[i].property_name) == Some(t.property_id) &&
                Resolve(usersRef, bs[i].guest_name) == Some(t.guest_id) &&
                t == BookingTuple(t.property_id, t.guest_id, bs[i].check_in_date, bs[i].check_out_date,
                                  CreatedOr(bs[i].created_at, now))
  {
    FilterMap(bs, (b: BookingData) => FormatBooking(propertiesRef, usersRef, now, b))
  }

  /** `INSERT INTO bookings ...`, issued only when at least one booking remains. */
  function InsertBookings(ts: seq<BookingTuple>): (rows: seq<Booking>)
    ensures |rows| == |ts|
    ensures forall i :: 0 <= i < |ts| ==>
              rows[i].booking_id == i + 1 && rows[i].property_id == ts[i].property_id &&
              rows[i].guest_id == Some(ts[i].guest_id)
    ensures forall i :: 0 <= i < |ts| ==>
              rows[i].check_in_date == ts[i].check_in_date && rows[i].check_out_date == ts[i].check_out_date &&
              rows[i].created_at == ts[i].created_at
  {
    if |ts| == 0 then []
    else
      seq(|ts|, i requires 0 <= i < |ts| =>
        Booking(i + 1, ts[i].property_id, Some(ts[i].guest_id), ts[i].check_in_date, ts[i].check_out_date,
                ts[i].created_at))
  }

  // ---------------------------------------------------------------------------
  // The whole seed
  // ---------------------------------------------------------------------------

  /** The fixture data the seed function receives. */
  datatype Fixtures = Fixtures(
    propertyTypes: seq<PropertyType>,
    users: seq<UserData>,
    properties: seq<PropertyData>,
    reviews: seq<ReviewData>,
    images: seq<ImageData>,
    favourites: seq<FavouriteData>,
    bookings: seq<BookingData>)

  /** What the seed leaves in the tables; reviews, images and favourites are held as the inserted columns. */
  datatype Database = Database(
    property_types: seq<PropertyType>,
    users: seq<User>,
    properties: seq<Property>,
    amenities: seq<string>,
    properties_amenities: seq<PropertyAmenity>,
    reviews: seq<ReviewTuple>,
    images: seq<ImageTuple>,
    favourites: seq<FavouriteTuple>,
    bookings: seq<Booking>)

  predicate UserExists(db: Database, id: int) {
    exists j :: 0 <= j < |db.users| && db.users[j].user_id == id
  }

  predicate PropertyExists(db: Database, id: int) {
    exists j :: 0 <= j < |db.properties| && db.properties[j].property_id == id
  }

  /** Every foreign key of the seeded tables names an existing row. */
  predicate Intact(db: Database) {
    (forall i :: 0 <= i < |db.properties| ==> UserExists(db, db.properties[i].host_id)) &&
    (forall i :: 0 <= i < |db.properties_amenities| ==>
       PropertyExists(db, db.properties_amenities[i].property_id) &&
       db.properties_amenities[i].amenity_slug in db.amenities) &&
    (forall t :: t in db.reviews ==> PropertyExists(db, t.property_id) && UserExists(db, t.guest_id)) &&
    (forall t :: t in db.images ==> PropertyExists(db, t.property_id)) &&
    (forall t :: t in db.favourites ==> UserExists(db, t.guest_id) && PropertyExists(db, t.property_id)) &&
    (forall i :: 0 <= i < |db.bookings| ==>
       PropertyExists(db, db.bookings[i].property_id) && db.bookings[i].guest_id.Some? &&
       UserExists(db, db.bookings[i].guest_id.value))
  }

  /** Some fixture user has this full name. */
  predicate HostKnown(users: seq<UserData>, name: string) {
    exists i :: 0 <= i < |users| && users[i].first_name + " " + users[i].surname == name
  }

  /** Some fixture property has this name. */
  predicate PropertyKnown(ps: seq<PropertyData>, name: string) {
    exists i :: 0 <= i < |ps| && ps[i].name == name
  }

  /** Property i is the first whose host name is nobody's full name. */
  predicate FirstUnknownHost(users: seq<UserData>, ps: seq<PropertyData>, i: int) {
    0 <= i < |ps| && !HostKnown(users, ps[i].host_name) &&
    forall j :: 0 <= j < i ==> HostKnown(users, ps[j].host_name)
  }

  /** Image i is the first whose property name matches no fixture property. */
  predicate FirstUnknownImage(ps: seq<PropertyData>, imgs: seq<ImageData>, i: int) {
    0 <= i < |imgs| && !PropertyKnown(ps, imgs[i].property_name) &&
    forall j :: 0 <= j < i ==> PropertyKnown(ps, imgs[j].property_name)
  }

  /** Every property's host name is some fixture user's full name. */
  predicate HostsKnown(data: Fixtures) {
    forall i :: 0 <= i < |data.properties| ==> HostKnown(data.users, data.properties[i].host_name)
  }

  /** Every image's property name is some fixture property's name. */
  predicate ImagesKnown(data: Fixtures) {
    forall i :: 0 <= i < |data.images| ==> PropertyKnown(data.properties, data.images[i].property_name)
  }

  /** The two ways the seed throws: a host name or an image's property name that matches nothing. */
  predicate SeedSucceeds(data: Fixtures) {
    HostsKnown(data) && ImagesKnown(data)
  }

  /** Every id a lookup holds belongs to one of the rows it was built from. */
  predicate RefersTo<T>(ref: map<string, int>, rows: seq<T>, id: T -> int) {
    forall k :: k in ref ==> exists i :: 0 <= i < |rows| && ref[k] == id(rows[i])
  }

  /** Every property's host id is what some name resolves to in usersRef. */
  ghost predicate HostsResolved(usersRef: map<string, int>, properties: seq<Property>) {
    forall i :: 0 <= i < |properties| ==> exists h :: Resolve(usersRef, h) == Some(properties[i].host_id)
  }

  /** With positive ids, a name resolves exactly when it is a key. */
  lemma ResolvePositive<T>(ref: map<string, int>, rows: seq<T>, id: T -> int, name: string)
    requires RefersTo(ref, rows, id)
    requires forall i :: 0 <= i < |rows| ==> id(rows[i]) >= 1
    ensures Resolve(ref, name).Some? <==> name in ref
  {
    if name in ref {
      var i :| 0 <= i < |rows| && ref[name] == id(rows[i]);
    }
  }

  lemma ResolvedUserExists(db: Database, usersRef: map<string, int>, name: string, id: int)
    requires RefersTo(usersRef, db.users, UserId)
    requires Resolve(usersRef, name) == Some(id)
    ensures UserExists(db, id)
  {
    var j :| 0 <= j < |db.users| && usersRef[name] == UserId(db.users[j]);
  }

  lemma ResolvedPropertyExists(db: Database, propertiesRef: map<string, int>, name: string, id: int)
    requires RefersTo(propertiesRef, db.properties, PropertyId)
    requires Resolve(propertiesRef, name) == Some(id)
    ensures PropertyExists(db, id)
  {
    var j :| 0 <= j < |db.properties| && propertiesRef[name] == PropertyId(db.properties[j]);
  }

  /** The rows the seed derives through the two lookups only ever name rows that exist. */
  lemma SeedIntact(data: Fixtures, now: Timestamp, db: Database, usersRef: map<string, int>,
                   propertiesRef: map<string, int>, pairs: seq<AmenityLink>)
    requires RefersTo(usersRef, db.users, UserId)
    requires RefersTo(propertiesRef, db.properties, PropertyId)
    requires HostsResolved(usersRef, db.properties)
    requires pairs == AmenityLinks(db.properties, data.properties)
    requires db.amenities == Dedup(AllAmenities(data.properties))
    requires db.properties_amenities == InsertAmenityLinks(pairs)
    requires db.reviews == FormatReviews(data.reviews, propertiesRef, usersRef, now)
    requires forall t :: t in db.images ==> exists n :: Resolve(propertiesRef, n) == Some(t.property_id)
    requires db.favourites == FormatFavourites(data.favourites, propertiesRef, usersRef)
    requires db.bookings == InsertBookings(FormatBookings(data.bookings, propertiesRef, usersRef, now))
    ensures Intact(db)
  {
    forall i | 0 <= i < |db.properties| ensures UserExists(db, db.properties[i].host_id) {
      var h :| Resolve(usersRef, h) == Some(db.properties[i].host_id);
      ResolvedUserExists(db, usersRef, h, db.properties[i].host_id);
    }
    forall i | 0 <= i < |db.properties_amenities|
      ensures PropertyExists(db, db.properties_amenities[i].property_id)
      ensures db.properties_amenities[i].amenity_slug in db.amenities
    {
      assert pairs[i] in pairs;
      AmenityLinksIntact(db.properties, data.properties, pairs[i]);
    }
    forall t | t in db.reviews ensures PropertyExists(db, t.property_id) && UserExists(db, t.guest_id) {
      var i :| 0 <= i < |data.reviews| &&
               Resolve(propertiesRef, data.reviews[i].property_name) == Some(t.property_id) &&
               Resolve(usersRef, data.reviews[i].guest_name) == Some(t.guest_id) &&
               t == ReviewTuple(t.property_id, t.guest_id, data.reviews[i].rating, data.reviews[i].comment,
                                CreatedOr(data.reviews[i].created_at, now));
      ResolvedPropertyExists(db, propertiesRef, data.reviews[i].property_name, t.property_id);
      ResolvedUserExists(db, usersRef, data.reviews[i].guest_name, t.guest_id);
    }
    forall t | t in db.images ensures PropertyExists(db, t.property_id) {
      var n :| Resolve(propertiesRef, n) == Some(t.property_id);
      ResolvedPropertyExists(db, propertiesRef, n, t.property_id);
    }
    forall t | t in db.favourites ensures UserExists(db, t.guest_id) && PropertyExists(db, t.property_id) {
      var i :| 0 <= i < |data.favourites| && Resolve(usersRef, data.favourites[i].guest_name) == Some(t.guest_id) &&
               Resolve(propertiesRef, data.favourites[i].property_name) == Some(t.property_id);
      ResolvedPropertyExists(db, propertiesRef, data.favourites[i].property_name, t.property_id);
      ResolvedUserExists(db, usersRef, data.favourites[i].guest_name, t.guest_id);
    }
    var bs := FormatBookings(data.bookings, propertiesRef, usersRef, now);
    forall i | 0 <= i < |db.bookings|
      ensures PropertyExists(db, db.bookings[i].property_id) && db.bookings[i].guest_id.Some? &&
              UserExists(db, db.bookings[i].guest_id.value)
    {
      var t := bs[i];
      assert t in bs;
      var k :| 0 <= k < |data.bookings| &&
               Resolve(propertiesRef, data.bookings[k].property_name) == Some(t.property_id) &&
               Resolve(usersRef, data.bookings[k].guest_name) == Some(t.guest_id) &&
               t == BookingTuple(t.property_id, t.guest_id, data.bookings[k].check_in_date,
                                 data.bookings[k].check_out_date, CreatedOr(data.bookings[k].created_at, now));
      ResolvedPropertyExists(db, propertiesRef, data.bookings[k].property_name, t.property_id);
      ResolvedUserExists(db, usersRef, data.bookings[k].guest_name, t.guest_id);
    }
  }

  /** usersRef: keyed by full name; a name resolves exactly when some fixture user has it. */
  method BuildUsersRef(users: seq<User>, ghost data: seq<UserData>) returns (usersRef: map<string, int>)
    requires |users| == |data|
    requires forall i :: 0 <= i < |data| ==>
               users[i].user_id == i + 1 && users[i].first_name == data[i].first_name && users[i].surname == data[i].surname
    ensures usersRef == RefOf(users, FullName, UserId)
    ensures RefersTo(usersRef, users, UserId)
    ensures forall name :: Resolve(usersRef, name).Some? <==> HostKnown(data, name)
  {
    usersRef := BuildRef(users, FullName, UserId);
    UserNamesResolve(usersRef, users, data);
  }

  lemma UserNamesResolve(usersRef: map<string, int>, users: seq<User>, data: seq<UserData>)
    requires |users| == |data|
    requires forall i :: 0 <= i < |data| ==>
               users[i].user_id == i + 1 && users[i].first_name == data[i].first_name && users[i].surname == data[i].surname
    requires forall k :: k in usersRef <==> exists i :: 0 <= i < |users| && FullName(users[i]) == k
    requires RefersTo(usersRef, users, UserId)
    ensures forall name :: Resolve(usersRef, name).Some? <==> HostKnown(data, name)
  {
    forall name ensures Resolve(usersRef, name).Some? <==> HostKnown(data, name) {
      ResolvePositive(usersRef, users, UserId, name);
      assert forall i :: 0 <= i < |users| ==> FullName(users[i]) == data[i].first_name + " " + data[i].surname;
    }
  }

  /** propertiesRef: keyed by name; a name resolves exactly when some fixture property has it. */
  method BuildPropertiesRef(properties: seq<Property>, ghost data: seq<PropertyData>) returns (propertiesRef: map<string, int>)
    requires |properties| == |data|
    requires forall i :: 0 <= i < |data| ==> properties[i].property_id == i + 1 && properties[i].name == data[i].name
    ensures propertiesRef == RefOf(properties, PropertyName, PropertyId)
    ensures RefersTo(propertiesRef, properties, PropertyId)
    ensures forall name :: Resolve(propertiesRef, name).Some? <==> PropertyKnown(data, name)
  {
    propertiesRef := BuildRef(properties, PropertyName, PropertyId);
    PropertyNamesResolve(propertiesRef, properties, data);
  }

  lemma PropertyNamesResolve(propertiesRef: map<string, int>, properties: seq<Property>, data: seq<PropertyData>)
    requires |properties| == |data|
    requires forall i :: 0 <= i < |data| ==> properties[i].property_id == i + 1 && properties[i].name == data[i].name
    requires forall k :: k in propertiesRef <==> exists i :: 0 <= i < |properties| && PropertyName(properties[i]) == k
    requires RefersTo(propertiesRef, properties, PropertyId)
    ensures forall name :: Resolve(propertiesRef, name).Some? <==> PropertyKnown(data, name)
  {
    forall name ensures Resolve(propertiesRef, name).Some? <==> PropertyKnown(data, name) {
      ResolvePositive(propertiesRef, properties, PropertyId, name);
      assert forall i :: 0 <= i < |properties| ==> PropertyName(properties[i]) == data[i].name;
    }
  }

  /** The properties table once the host names are resolved: every host id came out of usersRef. */
  lemma InsertedProperties(ps: seq<PropertyData>, usersRef: map<string, int>)
    requires FormatProperties(ps, usersRef).Ok?
    ensures var rows := InsertProperties(FormatProperties(ps, usersRef).value);
            |rows| == |ps| &&
            (forall i :: 0 <= i < |ps| ==> rows[i].property_id == i + 1 && rows[i].name == ps[i].name) &&
            (forall i :: 0 <= i < |rows| ==> Resolve(usersRef, ps[i].host_name) == Some(rows[i].host_id))
  {
    FormatPropertiesResult(ps, usersRef);
  }

  /**
   * The steps after the properties insert that cannot throw: amenities and
   * their links to properties, reviews, favourites and bookings, each
   * looked up through usersRef and propertiesRef.
   */
  method FillTables(data: Fixtures, now: Timestamp, users: seq<User>, usersRef: map<string, int>,
                    properties: seq<Property>, propertiesRef: map<string, int>, images: seq<ImageTuple>)
    returns (db: Database)
    requires RefersTo(usersRef, users, UserId)
    requires RefersTo(propertiesRef, properties, PropertyId)
    requires HostsResolved(usersRef, properties)
    requires forall t :: t in images ==> exists n :: Resolve(propertiesRef, n) == Some(t.property_id)
    ensures Intact(db)
    ensures db.property_types == data.propertyTypes && db.users == users && db.properties == properties &&
            db.images == images && db.amenities == Dedup(AllAmenities(data.properties))
    ensures db.properties_amenities == InsertAmenityLinks(AmenityLinks(properties, data.properties))
    ensures db.reviews == FormatReviews(data.reviews, propertiesRef, usersRef, now)
    ensures db.favourites == FormatFavourites(data.favourites, propertiesRef, usersRef)
    ensures db.bookings == InsertBookings(FormatBookings(data.bookings, propertiesRef, usersRef, now))
  {
    var amenities := CollectAmenities(data.properties);
    var pairs := PropertyAmenityPairs(properties, data.properties);
    var propertyAmenities := InsertAmenityLinks(pairs);
    var reviews := FormatReviews(data.reviews, propertiesRef, usersRef, now);
    var favourites := FormatFavourites(data.favourites, propertiesRef, usersRef);
    var bookings := InsertBookings(FormatBookings(data.bookings, propertiesRef, usersRef, now));
    db := Database(data.propertyTypes, users, properties, amenities, propertyAmenities,
                   reviews, images, favourites, bookings);
    SeedIntact(data, now, db, usersRef, propertiesRef, pairs);
  }

  /** The host names resolved through usersRef, then `INSERT INTO properties ... RETURNING *`. */
  method FormatAndInsertProperties(ps: seq<PropertyData>, ghost users: seq<UserData>, usersRef: map<string, int>)
    returns (r: Result<seq<Property>>)
    requires forall name :: Resolve(usersRef, name).Some? <==> HostKnown(users, name)
    ensures r.Ok? <==> forall i :: 0 <= i < |ps| ==> HostKnown(users, ps[i].host_name)
    ensures r.Err? ==> exists i :: FirstUnknownHost(users, ps, i) && r.error == HostNotFound(ps[i].host_name)
    ensures r.Ok? ==> |r.value| == |ps| && HostsResolved(usersRef, r.value) &&
                      forall i :: 0 <= i < |ps| ==> r.value[i].property_id == i + 1 && r.value[i].name == ps[i].name
    ensures r.Ok? ==> forall i :: 0 <= i < |ps| ==>
                        Resolve(usersRef, ps[i].host_name) == Some(r.value[i].host_id) &&
                        r.value[i].location == ps[i].location && r.value[i].property_type == ps[i].property_type &&
                        r.value[i].price_per_night == ps[i].price_per_night && r.value[i].description == ps[i].description
    ensures r.Ok? ==> FormatProperties(ps, usersRef).Ok? && r.value == InsertProperties(FormatProperties(ps, usersRef).value)
  {
    var formatted := FormatProperties(ps, usersRef);
    FormatPropertiesResult(ps, usersRef);
    if formatted.Err? {
      var i :| 0 <= i < |ps| && Resolve(usersRef, ps[i].host_name).None? &&
               (forall j :: 0 <= j < i ==> Resolve(usersRef, ps[j].host_name).Some?) &&
               formatted.error == HostNotFound(ps[i].host_name);
      assert FirstUnknownHost(users, ps, i);
      return Err(formatted.error);
    }
    forall i | 0 <= i < |ps| ensures HostKnown(users, ps[i].host_name) {
      assert Resolve(usersRef, ps[i].host_name).Some?;
    }
    InsertedProperties(ps, usersRef);
    r := Ok(InsertProperties(formatted.value));
  }

  /** The images with their property ids, or the error for the first image whose property name matches nothing. */
  method FormatImagesChecked(imgs: seq<ImageData>, ghost ps: seq<PropertyData>, propertiesRef: map<string, int>)
    returns (r: Result<seq<ImageTuple>>)
    requires forall name :: Resolve(propertiesRef, name).Some? <==> PropertyKnown(ps, name)
    ensures r.Ok? <==> forall i :: 0 <= i < |imgs| ==> PropertyKnown(ps, imgs[i].property_name)
    ensures r.Err? ==> exists i :: FirstUnknownImage(ps, imgs, i) && r.error == ImagePropertyNotFound(imgs[i].property_name)
    ensures r.Ok? ==> |r.value| == |imgs| &&
                      forall t :: t in r.value ==> exists n :: Resolve(propertiesRef, n) == Some(t.property_id)
    ensures r.Ok? ==> forall i :: 0 <= i < |imgs| ==>
                        Resolve(propertiesRef, imgs[i].property_name) == Some(r.value[i].property_id) &&
                        r.value[i].image_url == imgs[i].image_url &&
                        r.value[i].alt_text == OrElse(imgs[i].alt_text, "Image")
    ensures r == FormatImages(imgs, propertiesRef)
  {
    r := FormatImages(imgs, propertiesRef);
    FormatImagesResult(imgs, propertiesRef);
    if r.Err? {
      var i :| 0 <= i < |imgs| && Resolve(propertiesRef, imgs[i].property_name).None? &&
               (forall j :: 0 <= j < i ==> Resolve(propertiesRef, imgs[j].property_name).Some?) &&
               r.error == ImagePropertyNotFound(imgs[i].property_name);
      assert FirstUnknownImage(ps, imgs, i);
      return;
    }
    forall i | 0 <= i < |imgs| ensures PropertyKnown(ps, imgs[i].property_name) {
      assert Resolve(propertiesRef, imgs[i].property_name).Some?;
    }
  }

  /** The users and properties once inserted, with the two name lookups built from them. */
  datatype Inserted = Inserted(users: seq<User>, usersRef: map<string, int>,
                               properties: seq<Property>, propertiesRef: map<string, int>)

  /**
   * The users are the fixture users numbered in order, there is one property
   * per fixture, both lookups only hold ids of inserted rows, every host id
   * came out of usersRef, and a property name resolves exactly when some
   * fixture property has it.
   */
  ghost predicate UsersAndPropertiesReady(data: Fixtures, now: Timestamp, ins: Inserted) {
    ins.users == InsertUsers(data.users, now) && |ins.properties| == |data.properties| &&
    ins.usersRef == UsersRef(data, now) && PropertiesFormatted(data, now) &&
    ins.properties == PropertyRows(data, now) && ins.propertiesRef == PropertiesRef(data, now) &&
    RefersTo(ins.usersRef, ins.users, UserId) && RefersTo(ins.propertiesRef, ins.properties, PropertyId) &&
    HostsResolved(ins.usersRef, ins.properties) &&
    forall name :: Resolve(ins.propertiesRef, name).Some? <==> PropertyKnown(data.properties, name)
  }

  /** usersRef: full names of the inserted users to their ids. */
  function UsersRef(data: Fixtures, now: Timestamp): map<string, int> {
    RefOf(InsertUsers(data.users, now), FullName, UserId)
  }

  /** Every host name resolves through usersRef. */
  predicate PropertiesFormatted(data: Fixtures, now: Timestamp) {
    FormatProperties(data.properties, UsersRef(data, now)).Ok?
  }

  /** The properties insert, once every host resolved. */
  function PropertyRows(data: Fixtures, now: Timestamp): seq<Property>
    requires PropertiesFormatted(data, now)
  {
    InsertProperties(FormatProperties(data.properties, UsersRef(data, now)).value)
  }

  /** propertiesRef: names of the inserted properties to their ids. */
  function PropertiesRef(data: Fixtures, now: Timestamp): map<string, int>
    requires PropertiesFormatted(data, now)
  {
    RefOf(PropertyRows(data, now), PropertyName, PropertyId)
  }

  /**
   * The tables a successful seed leaves: every foreign key is satisfied; the
   * property types are the fixtures'; the users are the fixture users
   * numbered in order; each distinct amenity is listed once in first-seen
   * order; and the properties, images, links, reviews, favourites and
   * bookings are the inserts of their fixtures formatted through usersRef
   * and propertiesRef.
   */
  predicate Seeded(data: Fixtures, now: Timestamp, db: Database) {
    Intact(db) && db.property_types == data.propertyTypes && db.users == InsertUsers(data.users, now) &&
    db.amenities == Dedup(AllAmenities(data.properties)) &&
    |db.properties| == |data.properties| && |db.images| == |data.images| &&
    PropertiesFormatted(data, now) && db.properties == PropertyRows(data, now) &&
    FormatImages(data.images, PropertiesRef(data, now)).Ok? &&
    db.images == FormatImages(data.images, PropertiesRef(data, now)).value &&
    db.properties_amenities == InsertAmenityLinks(AmenityLinks(db.properties, data.properties)) &&
    db.reviews == FormatReviews(data.reviews, PropertiesRef(data, now), UsersRef(data, now), now) &&
    db.favourites == FormatFavourites(data.favourites, PropertiesRef(data, now), UsersRef(data, now)) &&
    db.bookings == InsertBookings(FormatBookings(data.bookings, PropertiesRef(data, now), UsersRef(data, now), now))
  }

  /**
   * The users insert, usersRef, the properties insert and propertiesRef:
   * throws for the first host name that is nobody's full name.
   */
  method InsertUsersAndProperties(data: Fixtures, now: Timestamp) returns (r: Result<Inserted>)
    ensures r.Ok? <==> HostsKnown(data)
    ensures r.Err? ==> exists i :: FirstUnknownHost(data.users, data.properties, i) &&
                                   r.error == HostNotFound(data.properties[i].host_name)
    ensures r.Ok? ==> UsersAndPropertiesReady(data, now, r.value)
  {
    var users := InsertUsers(data.users, now);
    var usersRef := BuildUsersRef(users, data.users);
    var properties := FormatAndInsertProperties(data.properties, data.users, usersRef);
    if properties.Err? {
      return Err(properties.error);
    }
    var propertiesRef := BuildPropertiesRef(properties.value, data.properties);
    r := Ok(Inserted(users, usersRef, properties.value, propertiesRef));
  }

  /**
   * The images step, which throws for the first image whose property name
   * matches no property, then the remaining inserts.
   */
  method InsertImagesAndRest(data: Fixtures, now: Timestamp, ins: Inserted) returns (r: Result<Database>)
    requires UsersAndPropertiesReady(data, now, ins)
    ensures r.Ok? <==> ImagesKnown(data)
    ensures r.Err? ==> exists i :: FirstUnknownImage(data.properties, data.images, i) &&
                                   r.error == ImagePropertyNotFound(data.images[i].property_name)
    ensures r.Ok? ==> Seeded(data, now, r.value)
  {
    var images := FormatImagesChecked(data.images, data.properties, ins.propertiesRef);
    if images.Err? {
      return Err(images.error);
    }
    var db := FillTables(data, now, ins.users, ins.usersRef, ins.properties, ins.propertiesRef, images.value);
    r := Ok(db);
  }

  /**
   * `seed(data)` run against empty tables: it rejects with the first host or
   * image property that does not resolve, and otherwise leaves tables whose
   * every foreign key is satisfied.
   */
  method Seed(data: Fixtures, now: Timestamp) returns (r: Result<Database>)
    ensures r.Ok? <==> SeedSucceeds(data)
    ensures !HostsKnown(data) ==> exists i :: FirstUnknownHost(data.users, data.properties, i) &&
                                             r.error == HostNotFound(data.properties[i].host_name)
    ensures HostsKnown(data) && !ImagesKnown(data) ==>
              exists i :: FirstUnknownImage(data.properties, data.images, i) &&
                          r.error == ImagePropertyNotFound(data.images[i].property_name)
    ensures r.Ok? ==> Seeded(data, now, r.value)
  {
    var inserted := InsertUsersAndProperties(data, now);
    if inserted.Err? {
      return Err(inserted.error);
    }
    r := InsertImagesAndRest(data, now, inserted.value);
  }
}
