/**
 * The error record the client utilities inspect: an axios-style error with
 * an optional `code`, an optional `message` and an optional `response`
 * carrying the HTTP status and the parsed body.
 */
module Errors {
  import opened Wrappers
  import opened Js
  import Text

  datatype ErrorResponse = ErrorResponse(status: int, data: Value)

  datatype HttpError = HttpError(code: Option<string>, message: Option<string>, response: Option<ErrorResponse>)

  /** `error.message?.includes(needle)`. */
  predicate MessageIncludes(e: HttpError, needle: string) {
    e.message.Some? && Text.Contains(e.message.value, needle)
  }

  /** The transport-failure test both the retry policy and the formatter apply first. */
  predicate IsNetworkError(e: HttpError) {
    e.code == Some("ERR_NETWORK") || MessageIncludes(e, "Network Error")
  }
}
