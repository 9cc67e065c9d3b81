/** controllers/errors.handlers.js: the unknown-path handler and the fallback error responder. */
module ErrorHandlers {
  import opened Js
  import opened Http

  /** notFoundHandler: any path no route matches. */
  function NotFoundHandler(): (r: Response)
    ensures r.status == 404 && r.body == Msg(Some("Path not found"))
  {
    Response(404, Msg(Some("Path not found")))
  }

  /** `x || fallback` on an optional status: undefined and 0 are falsy. */
  function StatusOr(status: Option<int>, fallback: int): (r: int)
    ensures status.Some? && status.value != 0 ==> r == status.value
    ensures status.None? || status.value == 0 ==> r == fallback
  {
    if status.Some? && status.value != 0 then status.value else fallback
  }

  /**
   * errorHandler: the status is `err.status || 500` and the body's msg is
   * `err.message || "Internal Server Error"`; a `msg` property is not read.
   */
  function ErrorHandler(err: JsError): (r: Response)
    ensures r.status == StatusOr(err.status, 500)
    ensures r.body == Msg(Some(OrElse(err.message, "Internal Server Error")))
  {
    Response(StatusOr(err.status, 500), Msg(Some(OrElse(err.message, "Internal Server Error"))))
  }

  /** What the client receives once a handler has finished: its own response, or the fallback's. */
  function Finish(o: Outcome): (r: Response)
    ensures o.Respond? ==> r == o.response
    ensures o.Forward? ==> r == ErrorHandler(o.error)
  {
    match o
    case Respond(response) => response
    case Forward(err) => ErrorHandler(err)
  }

  /**
   * A forwarded `{ status, msg }` object keeps its status but loses its
   * message: the responder reads `message`, which such objects lack.
   */
  lemma ForwardedStatusErrorLosesMsg(status: int, msg: string)
    requires status != 0
    ensures Finish(Forward(StatusError(status, msg))) == Response(status, Msg(Some("Internal Server Error")))
  {
  }

  /** An `Error` (from the driver or `new Error`) becomes a 500 that carries its message. */
  lemma ForwardedThrownIs500(message: string)
    requires message != ""
    ensures Finish(Forward(Thrown(message))) == Response(500, Msg(Some(message)))
  {
  }
}
