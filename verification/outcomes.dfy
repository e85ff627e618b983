/** Values shared by every handler of the gateway: optional values, the
    outcome of an opaque crawler call, the HTTP verb of a request and the
    reply a handler produces. */
module Outcomes {

  datatype Option<+T> = None | Some(value: T)

  /** The exception classes the handlers tell apart. */
  datatype Exception = AttributeError | OtherException

  /** What one call into a crawler did: it returned a value, or it raised. */
  datatype Step<+T> = Returned(value: T) | Raised(exception: Exception)

  /** The request verbs the handlers compare against. Every comparison in
      the handlers is against POST, so any other verb behaves as GET. */
  datatype Verb = Get | Post

  const NotFound: nat := 404
  const BadRequest: nat := 400
  const InternalServerError: nat := 500

  /** A handler's reply: a JSON body with status 200, a flagged
      `{error: true, message}` body with the status it is sent with, or an
      `abort` with a bare status (an uncaught exception aborts with 500). */
  datatype Reply<+T> = Body(value: T) | Flagged(message: string, status: nat) | Aborted(status: nat)
}
