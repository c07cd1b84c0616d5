/** The error a controller method throws: a message, a status code and optional error details. */
module ControllerErrors {
  import opened Common

  datatype ControllerError<E> = ControllerError(message: string, code: int, errors: Option<E>)

  /** `new ControllerError(message, code = 400, errors)`: stored verbatim, with no range check on the code. */
  function New<E>(message: string, code: Option<int>, errors: Option<E>): (e: ControllerError<E>)
    ensures e.message == message && e.errors == errors
    ensures code.Some? ==> e.code == code.value
    ensures code.None? ==> e.code == 400
  {
    ControllerError(message, code.GetOr(400), errors)
  }

  /** `badRequest(message = "Bad Request", errors)`. */
  function BadRequest<E>(message: Option<string>, errors: Option<E>): (e: ControllerError<E>)
    ensures e.code == 400 && e.errors == errors
    ensures message.Some? ==> e.message == message.value
    ensures message.None? ==> e.message == "Bad Request"
  {
    New(message.GetOr("Bad Request"), Some(400), errors)
  }

  /** `unauthorized(message = "Unauthorized")`: 401, no details. */
  function Unauthorized<E>(message: Option<string>): (e: ControllerError<E>)
    ensures e.code == 401 && e.errors == None
    ensures message.Some? ==> e.message == message.value
    ensures message.None? ==> e.message == "Unauthorized"
  {
    New(message.GetOr("Unauthorized"), Some(401), None)
  }

  /** `forbidden(message = "Forbidden")`: 403, no details. */
  function Forbidden<E>(message: Option<string>): (e: ControllerError<E>)
    ensures e.code == 403 && e.errors == None
    ensures message.Some? ==> e.message == message.value
    ensures message.None? ==> e.message == "Forbidden"
  {
    New(message.GetOr("Forbidden"), Some(403), None)
  }

  /** `notFound(message = "Not Found")`: 404, no details. */
  function NotFound<E>(message: Option<string>): (e: ControllerError<E>)
    ensures e.code == 404 && e.errors == None
    ensures message.Some? ==> e.message == message.value
    ensures message.None? ==> e.message == "Not Found"
  {
    New(message.GetOr("Not Found"), Some(404), None)
  }

  /** `error(message = "Something went wrong")`: the same 400 as `badRequest`, without details. */
  function Error<E>(message: Option<string>): (e: ControllerError<E>)
    ensures e.code == 400 && e.errors == None
    ensures message.Some? ==> e.message == message.value
    ensures message.None? ==> e.message == "Something went wrong"
  {
    New(message.GetOr("Something went wrong"), Some(400), None)
  }

  /**
   * Every preset carries a 4xx client-error code, and `error` differs from `badRequest`
   * without details only in its default message.
   */
  lemma PresetsAreClientErrors<E>(message: Option<string>, errors: Option<E>)
    ensures 400 <= BadRequest(message, errors).code < 500
    ensures 400 <= Unauthorized<E>(message).code < 500
    ensures 400 <= Forbidden<E>(message).code < 500
    ensures 400 <= NotFound<E>(message).code < 500
    ensures 400 <= Error<E>(message).code < 500
    ensures message.Some? ==> Error<E>(message) == BadRequest(message, None)
    ensures Error<E>(None) != BadRequest<E>(None, None)
  {
  }

  /** The constructor performs no range check: any code, valid status or not, is stored. */
  lemma NoRangeCheck<E>(message: string, code: int, errors: Option<E>)
    ensures New(message, Some(code), errors).code == code
  {
  }
}
