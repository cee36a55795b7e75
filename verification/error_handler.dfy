/**
 * The user-facing error formatter (`formatError` in
 * `frontend/src/utils/errorHandler.js`): a first-match classification of an
 * error record into a message. The checks run in this order: absent error,
 * transport failure, blocked cross-origin request, HTTP status, raw message.
 */
module ErrorHandler {
  import opened Wrappers
  import opened Js
  import opened Errors
  import Text

  const UnknownMessage: string := "An unknown error occurred"
  const NetworkMessage: string := "Network error: Unable to connect to the ledger. Please check your connection."
  const BlockedMessage: string := "Connection blocked: Please contact support if this issue persists."
  const NotFoundMessage: string := "Resource not found. The requested item may not exist."
  const ForbiddenMessage: string := "Access denied. You may not have permission to perform this action."
  const AuthMessage: string := "Authentication required. Please connect your wallet."
  const ServerMessage: string := "Server error: The ledger encountered an issue. Please try again later."
  const UnexpectedMessage: string := "An unexpected error occurred"

  /** A message mentioning a blocked cross-origin request. */
  predicate IsCorsError(e: HttpError) {
    MessageIncludes(e, "CORS") || MessageIncludes(e, "Access-Control")
  }

  /** The statuses with a fixed message. */
  function StatusMessage(status: int): Option<string> {
    if status == 404 then Some(NotFoundMessage)
    else if status == 403 then Some(ForbiddenMessage)
    else if status == 401 then Some(AuthMessage)
    else if status == 500 then Some(ServerMessage)
    else None
  }

  /** `data?.field`: `undefined` when the body itself is null or undefined. */
  function OptionalField(data: Value, field: string): Value {
    if data.Undefined? || data.Null? then Undefined else Prop(data, field).value
  }

  /** `${error.message}` inside a template literal. */
  function MessageText(e: HttpError): string {
    e.message.GetOr("undefined")
  }

  /** The body fields a server message may come from are strings or absent. */
  predicate StringFields(e: HttpError) {
    e.response.Some? ==>
      var d := e.response.value.data;
      (OptionalField(d, "error").Str? || OptionalField(d, "error").Undefined?)
      && (OptionalField(d, "message").Str? || OptionalField(d, "message").Undefined?)
  }

  /**
   * `formatError(error)`. The result is never falsy (never empty, null or
   * undefined), and it is a string whenever the server-provided fields are.
   */
  function FormatError(error: Option<HttpError>): (r: Value)
    ensures Truthy(r)
    ensures error.None? || StringFields(error.value) ==> r.Str? && r.s != ""
  {
    match error
    case None => Str(UnknownMessage)
    case Some(e) =>
      if IsNetworkError(e) then Str(NetworkMessage)
      else if IsCorsError(e) then Str(BlockedMessage)
      else if e.response.Some? then
        var status := e.response.value.status;
        var data := e.response.value.data;
        var message := Or(OptionalField(data, "error"), OptionalField(data, "message"));
        match StatusMessage(status)
        case Some(m) => Str(m)
        case None => Or(message, Str("Error " + Text.IntToString(status) + ": " + MessageText(e)))
      else if e.message.Some? && e.message.value != "" then Str(e.message.value)
      else Str(UnexpectedMessage)
  }

  /** No error at all gives the unknown-error message. */
  lemma AbsentError()
    ensures FormatError(None) == Str(UnknownMessage)
  {
  }

  /** A transport failure is reported as such whatever its message or response say. */
  lemma NetworkFirst(e: HttpError)
    requires IsNetworkError(e)
    ensures FormatError(Some(e)) == Str(NetworkMessage)
  {
  }

  /** A blocked cross-origin request is reported before any status is looked at. */
  lemma CorsBeforeStatus(e: HttpError)
    requires !IsNetworkError(e) && IsCorsError(e)
    ensures FormatError(Some(e)) == Str(BlockedMessage)
  {
  }

  /** 404, 403, 401 and 500 map to their fixed messages whatever the response body holds. */
  lemma FixedStatusIgnoresBody(e: HttpError, otherData: Value)
    requires !IsNetworkError(e) && !IsCorsError(e)
    requires e.response.Some? && StatusMessage(e.response.value.status).Some?
    ensures FormatError(Some(e)) == Str(StatusMessage(e.response.value.status).value)
    ensures FormatError(Some(e)) == FormatError(Some(e.(response := Some(e.response.value.(data := otherData)))))
  {
  }

  /**
   * Any other status (502 and 503 included) gives the body's `error`, else
   * its `message`, else `"Error <status>: <message>"`.
   */
  lemma OtherStatusPassesThrough(e: HttpError)
    requires !IsNetworkError(e) && !IsCorsError(e)
    requires e.response.Some? && StatusMessage(e.response.value.status).None?
    ensures var d := e.response.value.data;
      && (Truthy(OptionalField(d, "error")) ==> FormatError(Some(e)) == OptionalField(d, "error"))
      && (!Truthy(OptionalField(d, "error")) && Truthy(OptionalField(d, "message")) ==>
            FormatError(Some(e)) == OptionalField(d, "message"))
      && (!Truthy(OptionalField(d, "error")) && !Truthy(OptionalField(d, "message")) ==>
            FormatError(Some(e)) == Str("Error " + Text.IntToString(e.response.value.status) + ": " + MessageText(e)))
  {
  }

  /** A 503 whose body says nothing names the status and the raw message. */
  lemma ServiceUnavailableExample()
    ensures FormatError(Some(HttpError(None, Some("oops"), Some(ErrorResponse(503, Obj([]))))))
      == Str("Error 503: oops")
  {
    var e := HttpError(None, Some("oops"), Some(ErrorResponse(503, Obj([]))));
    assert !Text.Contains("oops", "Network Error");
    assert !Text.Contains("ops", "CORS");
    assert "oops"[1..] == "ops" && "oops"[..4][0] != "CORS"[0];
    assert !Text.Contains("oops", "CORS");
    assert !Text.Contains("oops", "Access-Control");
    assert !IsNetworkError(e) && !IsCorsError(e);
    assert Text.NatToString(5) == "5";
    assert Text.NatToString(50) == "50";
    assert Text.NatToString(503) == "503";
    assert StatusMessage(503).None?;
    assert OptionalField(Obj([]), "error") == Undefined;
  }

  /** Without a response the raw message is shown, or the generic message when there is none. */
  lemma NoResponseUsesMessage(e: HttpError)
    requires !IsNetworkError(e) && !IsCorsError(e) && e.response.None?
    ensures e.message.Some? && e.message.value != "" ==> FormatError(Some(e)) == Str(e.message.value)
    ensures e.message.None? || e.message.value == "" ==> FormatError(Some(e)) == Str(UnexpectedMessage)
  {
  }
}
