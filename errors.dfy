/**
 * The API error type of errors/api_error.go, its constructors in errors/errors.go,
 * and the kinds of Go `error` values the rest of the model passes around.
 */
module Errors {

  const StatusBadRequest: int := 400
  const StatusNotFound: int := 404
  const StatusInternalServerError: int := 500

  /** An error that can be sent in an error response. */
  datatype APIError = APIError(status: int, errorCode: string, message: string) {

    /** The error message, as Go's `error` interface reports it. */
    function Error(): (m: string)
      ensures m == message
    {
      message
    }

    /** The HTTP status code the response carries. */
    function StatusCode(): (s: int)
      ensures s == status
    {
      status
    }
  }

  /** The rendered text of an ozzo `validation.Errors` value (its formatting is library code). */
  datatype ValidationErrors = ValidationErrors(text: string)

  /**
   * The kinds of `error` value the request pipeline meets: this repository's
   * `*APIError`, ozzo's `validation.Errors`, any error that also reports an HTTP
   * status (ozzo-routing's `HTTPError`), and every other error.
   */
  datatype Fault =
    | API(api: APIError)
    | Validation(errs: ValidationErrors)
    | HTTP(status: int, text: string)
    | Other(text: string)

  /** What `err.Error()` returns for each kind. */
  function Text(err: Fault): string
  {
    match err
    case API(e) => e.Error()
    case Validation(errs) => errs.text
    case HTTP(_, t) => t
    case Other(t) => t
  }

  /** Builds an APIError from its three parts, storing each as given. */
  function NewAPIError(status: int, code: string, message: string): (e: APIError)
    ensures e.StatusCode() == status && e.errorCode == code && e.Error() == message
  {
    APIError(status, code, message)
  }

  /** HTTP 500 carrying the message of the error that caused it. */
  function InternalServerError(err: Fault): (e: APIError)
    ensures e.StatusCode() == 500 && e.errorCode == "INTERNAL_SERVER_ERROR"
    ensures e.Error() == Text(err)
  {
    NewAPIError(StatusInternalServerError, "INTERNAL_SERVER_ERROR", Text(err))
  }

  /** HTTP 404 with the given message. */
  function NotFound(message: string): (e: APIError)
    ensures e.StatusCode() == 404 && e.errorCode == "NOT_FOUND" && e.Error() == message
  {
    NewAPIError(StatusNotFound, "NOT_FOUND", message)
  }

  /** HTTP 400 carrying the text of a set of field validation errors. */
  function InvalidData(errs: ValidationErrors): (e: APIError)
    ensures e.StatusCode() == 400 && e.errorCode == "INVALID_DATA" && e.Error() == errs.text
  {
    NewAPIError(StatusBadRequest, "INVALID_DATA", errs.text)
  }

  /** HTTP 400 with a plain message. */
  function SimpleInvalidData(message: string): (e: APIError)
    ensures e.StatusCode() == 400 && e.errorCode == "INVALID_DATA" && e.Error() == message
  {
    NewAPIError(StatusBadRequest, "INVALID_DATA", message)
  }
}
