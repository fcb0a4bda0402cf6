/** What the HTTP layer hands the core: request configurations, failed responses, the values a
    rejected promise carries, and the notices (toasts) the error handlers emit. */
module Http {
  import opened Wrappers

  /** The header the request interceptor fills from the CSRF cookie. */
  const CSRF_HEADER: string := "X-CSRF-TOKEN"

  /** An outgoing request configuration as the interceptors see it. `tag` names the caller
      awaiting the request (its resolve/reject pair); `retry` is the `_retry` marker, with an
      absent marker read as `false`. */
  datatype Request = Request(tag: nat, url: string, headers: map<string, string>, retry: bool)

  /** One value of the per-field object a 400 response carries: a text or a list of texts. */
  datatype FieldValue = One(text: string) | Many(texts: seq<string>)

  /** `response.data.message`: a plain text, or an object of per-field messages in key order. */
  datatype Message = Text(text: string) | Fields(values: seq<FieldValue>)

  /** JavaScript truthiness of an optional message: an object is truthy, a text unless empty. */
  predicate IsTruthy(m: Option<Message>) {
    m.Some? && (m.value.Fields? || m.value.text != "")
  }

  /** `message || fallback` */
  function MessageOr(m: Option<Message>, fallback: string): (r: Message)
    ensures IsTruthy(m) ==> r == m.value
    ensures !IsTruthy(m) ==> r == Text(fallback)
  {
    if IsTruthy(m) then m.value else Text(fallback)
  }

  /** A response that came back with an error status. */
  datatype Response = Response(status: int, message: Option<Message>)

  /** An AxiosError: its own message, its `code`, the request configuration and the response,
      the last absent when nothing came back. */
  datatype ApiError = ApiError(text: string, code: Option<string>, config: Option<Request>, response: Option<Response>)

  /** The value a rejected promise carries: an AxiosError, another `Error` with a message, or a
      thrown value that is not an `Error` at all. */
  datatype Thrown = Axios(error: ApiError) | Failure(message: string) | NonError

  /** `value instanceof Error` */
  predicate IsError(t: Thrown) {
    !t.NonError?
  }

  function ErrorMessage(t: Thrown): string
    requires IsError(t)
  {
    match t
    case Axios(e) => e.text
    case Failure(m) => m
  }

  /** `err instanceof Error ? err.message : fallback`, the message the providers record. */
  function MessageOrFallback(t: Thrown, fallback: string): (r: string)
    ensures IsError(t) ==> r == ErrorMessage(t)
    ensures !IsError(t) ==> r == fallback
  {
    if IsError(t) then ErrorMessage(t) else fallback
  }

  /** `error.response?.data?.message || fallback`, the text the login and register pages show. */
  function ResponseMessageOr(t: Thrown, fallback: string): (r: Message)
    ensures t.Axios? && t.error.response.Some? && IsTruthy(t.error.response.value.message)
            ==> r == t.error.response.value.message.value
    ensures !(t.Axios? && t.error.response.Some? && IsTruthy(t.error.response.value.message))
            ==> r == Text(fallback)
  {
    match t
    case Axios(ApiError(_, _, _, Some(resp))) => MessageOr(resp.message, fallback)
    case _ => Text(fallback)
  }

  /** The kind of toast a handler shows. */
  datatype Category = Validation | Network | Server | Timeout | NotFound | Forbidden | Unexpected

  datatype Notice = Notice(category: Category, title: string, description: Message)
}
