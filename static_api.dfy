/**
 * `handleApiResponse` and `handleApiCall` of the main client: how a reply
 * from the backend becomes either the parsed body or an error.
 */
module StaticApi {
  import opened Json
  import opened Http

  const LoginPage := "/login"
  const FallbackMessage := "API request failed"

  /**
   * Why a call failed. `Unauthorized` is the 401 case, which also sends the
   * browser to `LoginPage`; `Rejected` carries the message of the error thrown
   * for any other non-ok status; `Unreadable` is an exception raised while
   * reading the body (an ok reply that is not JSON, or a JSON `null` error body);
   * `Transport` is a `fetch` that rejected.
   */
  datatype ApiError = Unauthorized | Rejected(message: string) | Unreadable | Transport

  datatype ApiOutcome = Ok(data: Value) | Failed(error: ApiError)

  /** The text a JSON value holds under `key`, when it is an object with a string there. */
  function TextAt(v: Value, key: string): Option<string> {
    if v.Obj? && key in v.fields && v.fields[key].Str? then Some(v.fields[key].s) else None
  }

  /**
   * `handleApiResponse(response)`: 401 first, then any non-ok status, whose
   * message is `body.error || body.message`, with the fallback text only when
   * the body does not parse; an ok reply yields its parsed body.
   */
  function HandleApiResponse(status: int, body: Option<Value>): (r: ApiOutcome)
    ensures r == Failed(Unauthorized) <==> status == 401
    ensures r.Ok? <==> IsOk(status) && body.Some?
    ensures r.Ok? ==> r.data == body.value
    ensures r == Failed(Unreadable) <==>
              status != 401 && ((IsOk(status) && body.None?) || (!IsOk(status) && body == Some(Null)))
    ensures r != Failed(Transport)
    ensures r.Failed? && r.error.Rejected? <==> status != 401 && !IsOk(status) && body != Some(Null)
    ensures status != 401 && !IsOk(status) && body.None? ==> r == Failed(Rejected(FallbackMessage))
    ensures (status != 401 && !IsOk(status) && body.Some? && TextAt(body.value, "error").Some? &&
             TextAt(body.value, "error").value != "")
            ==> r == Failed(Rejected(TextAt(body.value, "error").value))
    ensures (status != 401 && !IsOk(status) && body.Some? && body.value.Obj? &&
             !Truthy(Prop(body.value, "error")) && TextAt(body.value, "message").Some?)
            ==> r == Failed(Rejected(TextAt(body.value, "message").value))
    ensures (status != 401 && !IsOk(status) && body.Some? && body.value.Obj? &&
             !Truthy(Prop(body.value, "error")) && "message" in body.value.fields)
            ==> r == Failed(Rejected(ToJsString(body.value.fields["message"])))
    ensures (status != 401 && !IsOk(status) && body.Some? && body.value.Obj? &&
             !Truthy(Prop(body.value, "error")) && "message" !in body.value.fields)
            ==> r == Failed(Rejected(""))
  {
    if status == 401 then
      Failed(Unauthorized)
    else if !IsOk(status) then
      match body
      case None => Failed(Rejected(FallbackMessage))
      case Some(v) =>
        if v.Null? then Failed(Unreadable)
        else Failed(Rejected(ErrorMessage(JsOr(Prop(v, "error"), Prop(v, "message")))))
    else
      match body
      case None => Failed(Unreadable)
      case Some(v) => Ok(v)
  }

  /** `handleApiCall`: a transport failure, or the classified reply. */
  function HandleApiCall(reply: Reply): (r: ApiOutcome)
    ensures reply.NetworkFailure? ==> r == Failed(Transport)
    ensures r.Ok? <==> reply.Reply? && IsOk(reply.status) && reply.body.Some?
    ensures r == Failed(Unauthorized) <==> reply.Reply? && reply.status == 401
  {
    match reply
    case NetworkFailure => Failed(Transport)
    case Reply(status, body) => HandleApiResponse(status, body)
  }

  /** The page the browser is sent to after a call, if any. */
  function RedirectAfter(r: ApiOutcome): (page: Option<string>)
    ensures page.Some? <==> r == Failed(Unauthorized)
    ensures page.Some? ==> page.value == LoginPage
  {
    if r == Failed(Unauthorized) then Some(LoginPage) else None
  }
}
