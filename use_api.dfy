/** `hooks/use-api.ts`: the `get`/`post`/`patch`/`put`/`del` wrappers around the API client
    and their shared `handleError`, which shows at most one notice and always rethrows. */
module UseApi {
  import opened Wrappers
  import opened Http
  import ApiClient

  const TIMEOUT_CODE: string := "ECONNABORTED"
  const BACKEND_DOWN: string := "Backend server is not available"
  const NOT_FOUND_TEXT: string := "The requested resource was not found."
  const FORBIDDEN_TEXT: string := "You don't have permission to perform this action."
  const TIMEOUT_TEXT: string := "The request took too long. Please try again."
  const UNEXPECTED_TEXT: string := "An unexpected error occurred."

  /** `error.code`; only an AxiosError has one. */
  function Code(t: Thrown): Option<string> {
    if t.Axios? then t.error.code else None
  }

  /** `error.response`; only an AxiosError has one. */
  function ResponseOf(t: Thrown): Option<Response> {
    if t.Axios? then t.error.response else None
  }

  /** `error.response?.status === n` */
  predicate HasStatus(t: Thrown, n: int) {
    ResponseOf(t).Some? && ResponseOf(t).value.status == n
  }

  /** `customMessage || text`, with an absent or empty custom message falling through. */
  function CustomOr(custom: Option<string>, text: Message): Message {
    if custom.Some? && custom.value != "" then Text(custom.value) else text
  }

  /** The notice `handleError` shows, if any, and the value it throws. */
  datatype Handled = Handled(notice: Option<Notice>, thrown: Thrown)

  /** `handleError(error, customMessage)`: a timeout code first, then a 404, a 403, no
      response (thrown as a fresh error with no notice), and any other response. Whatever was
      shown, the caller's promise is rejected. */
  function HandleError(t: Thrown, custom: Option<string>): (h: Handled)
    ensures IsError(h.thrown)
    ensures h.notice.None? <==> Code(t) != Some(TIMEOUT_CODE) && ResponseOf(t).None?
    ensures h.notice.None? ==> h.thrown == Failure(BACKEND_DOWN)
    ensures h.notice.Some? ==> h.thrown == t
    ensures Code(t) == Some(TIMEOUT_CODE) ==>
              h.notice == Some(Notice(Timeout, "Request Timeout", Text(TIMEOUT_TEXT)))
    ensures Code(t) != Some(TIMEOUT_CODE) && HasStatus(t, 404) ==>
              h.notice == Some(Notice(NotFound, "Not Found", CustomOr(custom, Text(NOT_FOUND_TEXT))))
    ensures Code(t) != Some(TIMEOUT_CODE) && HasStatus(t, 403) ==>
              h.notice == Some(Notice(Forbidden, "Access Denied", Text(FORBIDDEN_TEXT)))
    ensures Code(t) != Some(TIMEOUT_CODE) && ResponseOf(t).Some? && !HasStatus(t, 404) && !HasStatus(t, 403) ==>
              h.notice == Some(Notice(Unexpected, "Error",
                                      CustomOr(custom, MessageOr(ResponseOf(t).value.message, UNEXPECTED_TEXT))))
  {
    if Code(t) == Some(TIMEOUT_CODE) then
      Handled(Some(Notice(Timeout, "Request Timeout", Text(TIMEOUT_TEXT))), t)
    else if HasStatus(t, 404) then
      Handled(Some(Notice(NotFound, "Not Found", CustomOr(custom, Text(NOT_FOUND_TEXT)))), t)
    else if HasStatus(t, 403) then
      Handled(Some(Notice(Forbidden, "Access Denied", Text(FORBIDDEN_TEXT))), t)
    else if ResponseOf(t).None? then
      Handled(None, Failure(BACKEND_DOWN))
    else
      Handled(Some(Notice(Unexpected, "Error",
                          CustomOr(custom, MessageOr(ResponseOf(t).value.message, UNEXPECTED_TEXT)))), t)
  }

  /** One wrapper call (`get`, `post`, `patch`, `put` or `del`: they differ only in the
      method and body they hand the client). The wrappers never pass a custom message. A reply
      passes through unchanged; a rejection gets `handleError`'s notice and is rethrown. */
  function Call<T>(reply: Result<T, Thrown>): (out: (Option<Notice>, Result<T, Thrown>))
    ensures reply.Ok? ==> out == (None, reply)
    ensures reply.Err? ==> out.1.Err? && IsError(out.1.error)
    ensures reply.Err? ==> out.0 == HandleError(reply.error, None).notice
                           && out.1 == Err(HandleError(reply.error, None).thrown)
  {
    match reply
    case Ok(v) => (None, Ok(v))
    case Err(t) =>
      var h := HandleError(t, None);
      (h.notice, Err(h.thrown))
  }

  /** A caller of a wrapper that records `err instanceof Error ? err.message : fallback`
      never records its fallback: it gets the backend-down text when nothing came back and
      the error's own message otherwise. */
  lemma CallersNeverSeeFallback<T>(t: Thrown, fallback: string)
    ensures var r := Call<T>(Err(t)).1;
      MessageOrFallback(r.error, fallback) ==
        if Code(t) != Some(TIMEOUT_CODE) && ResponseOf(t).None? then BACKEND_DOWN else ErrorMessage(t)
  {
  }

  /** A 5xx response outside the refresh path is announced twice: once by the client's
      classifier and once by the wrapper. */
  lemma ServerErrorAnnouncedTwice(e: ApiError)
    requires e.response.Some? && e.response.value.status >= 500 && e.code != Some(TIMEOUT_CODE)
    ensures !ApiClient.EntersRefreshPath(e)
    ensures |ApiClient.ClientNotices(e)| == 1 && ApiClient.ClientNotices(e)[0].category == Server
    ensures HandleError(Axios(e), None).notice.Some?
    ensures HandleError(Axios(e), None).notice.value.category == Unexpected
  {
  }

  /** A request that got no response is announced once, by the client, and reaches the
      caller as the backend-down error. */
  lemma NetworkErrorAnnouncedOnce(e: ApiError)
    requires e.response.None? && e.code != Some(TIMEOUT_CODE)
    ensures ApiClient.ClientNotices(e) == [Notice(Network, "Network Error", Text(ApiClient.NETWORK_TEXT))]
    ensures HandleError(Axios(e), None) == Handled(None, Failure(BACKEND_DOWN))
  {
  }
}
