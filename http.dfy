/**
 * What the Express handlers exchange: duck-typed error objects, JSON
 * response bodies, and the two ways a handler ends (a response, or
 * `next(err)`).
 */
module Http {
  import opened Js
  import opened Schema

  /**
   * A thrown or rejected value, reduced to the three properties the handlers
   * read: `{ status, msg }` objects set the first two, `Error` objects (ours
   * and the driver's) set `message`.
   */
  datatype JsError = JsError(status: Option<int>, msg: Option<string>, message: Option<string>)

  /** A plain `{ status, msg }` object. */
  function StatusError(status: int, msg: string): JsError {
    JsError(Some(status), Some(msg), None)
  }

  /** `new Error(message)`, or an error raised by the database driver. */
  function Thrown(message: string): JsError {
    JsError(None, None, Some(message))
  }

  /** A resolved value or a rejection. */
  datatype Result<+T> = Ok(value: T) | Err(error: JsError)

  /** The shape of one booking in the per-user response. */
  datatype UserBookingView = UserBookingView(
    booking_id: int,
    check_in_date: Date,
    check_out_date: Date,
    property_id: int,
    property_name: string,
    host: string,
    image: Option<string>)

  datatype Body =
    | Msg(msg: Option<string>)                 // { msg }; an undefined msg serialises as {}
    | Text(text: string)                       // a plain string body
    | Properties(properties: seq<JsObject>)   // { properties }
    | PropertyBookings(property_id: JsNumber, bookings: seq<BookingDates>)
    | BookingCreated(confirmation: string, booking_id: int)   // { msg, booking_id }
    | UserBookings(guestBookings: seq<UserBookingView>)      // { bookings }

  datatype Response = Response(status: int, body: Body)

  /** A handler either answers or passes an error on with `next(err)`. */
  datatype Outcome = Respond(response: Response) | Forward(error: JsError)

  /** `res.status(status).json({ msg })`. */
  function Reply(status: int, msg: string): Outcome {
    Respond(Response(status, Msg(Some(msg))))
  }
}
