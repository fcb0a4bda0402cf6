/** `lib/api-client.ts`: the cookie lookup, the request interceptor that attaches the CSRF
    token, the response interceptor's session-refresh coordinator, `refreshToken`,
    `onRefreshed` and the status classifier `handleError`.

    The asynchrony is made explicit: a failed response is an `OnResponseError` event, and the
    settling of the awaited refresh call is an `OnRefreshSettled` event. The cookie string
    (`document.cookie`) is a parameter of every event that reads it. */
module ApiClient {
  import opened Wrappers
  import opened Js
  import opened Http
  import Seqs

  const ACCESS_COOKIE: string := "csrf_access_token"
  const REFRESH_COOKIE: string := "csrf_refresh_token"
  const NO_TOKEN_MESSAGE: string := "Failed to get new CSRF token"

  // ---------------------------------------------------------------------------------------
  // getCookie

  /** The test `.find` applies to each `; `-separated entry. */
  function NamePrefix(name: string): string -> bool {
    row => StartsWith(row, name + "=")
  }

  /** `row.split('=')[1] || null` */
  function RowValue(row: string): (r: Option<string>)
    ensures r.Some? ==> r.value != "" && Avoids(r.value, '=')
  {
    var parts := Split(row, "=");
    if |parts| < 2 || parts[1] == "" then None else Some(parts[1])
  }

  /** `getCookie(name)`: the first `; `-separated entry of the cookie string that starts with
      exactly `name=`, cut at `=` and taking the second piece; `None` for `null`. */
  function GetCookie(cookie: string, name: string): (r: Option<string>)
    ensures r.Some? ==> r.value != "" && Avoids(r.value, '=')
    ensures (forall i :: 0 <= i < |Split(cookie, "; ")| ==> !StartsWith(Split(cookie, "; ")[i], name + "="))
            ==> r.None?
  {
    match Seqs.Find(Split(cookie, "; "), NamePrefix(name))
    case None => None
    case Some(row) => RowValue(row)
  }

  /** `getCSRFToken()`: the access-scoped token, never empty when present. */
  function GetCSRFToken(cookie: string): (r: Option<string>)
    ensures r.Some? ==> r.value != "" && Avoids(r.value, '=')
  {
    GetCookie(cookie, ACCESS_COOKIE)
  }

  /** `getCSRFRefreshToken()`: the refresh-scoped token, never empty when present. */
  function GetCSRFRefreshToken(cookie: string): (r: Option<string>)
    ensures r.Some? ==> r.value != "" && Avoids(r.value, '=')
  {
    GetCookie(cookie, REFRESH_COOKIE)
  }

  /** One `name=value` pair of a cookie string. */
  datatype Cookie = Cookie(name: string, value: string)

  function Rows(jar: seq<Cookie>): (r: seq<string>)
    ensures |r| == |jar|
    ensures forall i :: 0 <= i < |jar| ==> r[i] == jar[i].name + "=" + jar[i].value
  {
    if jar == [] then [] else [jar[0].name + "=" + jar[0].value] + Rows(jar[1..])
  }

  /** The cookie string of a jar: its pairs joined by `; `, the shape of the Cookie header in
      section 5.4 of RFC 6265. */
  function CookieString(jar: seq<Cookie>): string {
    Join(Rows(jar), "; ")
  }

  /** A cookie name or value with neither `;` nor `=` in it. */
  predicate IsPlain(s: string) {
    Avoids(s, ';') && Avoids(s, '=')
  }

  /** The value of the first cookie in the jar called `name`; `None` when there is none or
      its value is empty. */
  function Lookup(jar: seq<Cookie>, name: string): Option<string> {
    if jar == [] then None
    else if jar[0].name == name then (if jar[0].value == "" then None else Some(jar[0].value))
    else Lookup(jar[1..], name)
  }

  /** An entry `n=v` starts with `name=` exactly when its name is `name`: a cookie whose name
      merely extends `name`, or is a prefix of it, is never matched. */
  lemma EntryMatchesOnlyItsName(c: Cookie, name: string)
    requires IsPlain(c.name) && IsPlain(name)
    ensures NamePrefix(name)(c.name + "=" + c.value) <==> c.name == name
  {
    var row := c.name + "=" + c.value;
    var p := name + "=";
    assert NamePrefix(name)(row) == StartsWith(row, p);
    if StartsWith(row, p) {
      assert row[..|p|] == p;
      var k := if |c.name| < |name| then |c.name| else |name|;
      assert row[k] == p[k];
      assert |c.name| == |name|;
      assert row[..|name|] == c.name;
      assert p[..|name|] == name;
    }
    if c.name == name {
      assert row[..|p|] == p;
    }
  }

  lemma RowValueOfEntry(c: Cookie)
    requires IsPlain(c.name) && IsPlain(c.value)
    ensures RowValue(c.name + "=" + c.value) == if c.value == "" then None else Some(c.value)
  {
    SplitAtFirstSeparator(c.name, "=", c.value);
    SplitWithoutSeparator(c.value, "=");
  }

  lemma {:induction false} FindInRows(jar: seq<Cookie>, name: string)
    requires IsPlain(name)
    requires forall i :: 0 <= i < |jar| ==> IsPlain(jar[i].name) && IsPlain(jar[i].value)
    ensures (match Seqs.Find(Rows(jar), NamePrefix(name))
             case None => None
             case Some(row) => RowValue(row)) == Lookup(jar, name)
  {
    if jar != [] {
      var row := jar[0].name + "=" + jar[0].value;
      assert Rows(jar) == [row] + Rows(jar[1..]);
      Seqs.FindCons(row, Rows(jar[1..]), NamePrefix(name));
      EntryMatchesOnlyItsName(jar[0], name);
      if jar[0].name == name {
        RowValueOfEntry(jar[0]);
      } else {
        FindInRows(jar[1..], name);
      }
    }
  }

  /** Looking a name up in a cookie string made of plain pairs finds the first pair with that
      name, and `None` when there is no such pair or its value is empty. */
  lemma GetCookieOfCookieString(jar: seq<Cookie>, name: string)
    requires IsPlain(name)
    requires forall i :: 0 <= i < |jar| ==> IsPlain(jar[i].name) && IsPlain(jar[i].value)
    ensures GetCookie(CookieString(jar), name) == Lookup(jar, name)
  {
    if jar == [] {
      assert Split("", "; ") == [""];
      assert !NamePrefix(name)("");
    } else {
      var rows := Rows(jar);
      forall k | 0 <= k < |rows| ensures Avoids(rows[k], "; "[0]) {
        assert rows[k] == jar[k].name + "=" + jar[k].value;
      }
      SplitJoin(rows, "; ");
      FindInRows(jar, name);
    }
  }

  /** The lookup cuts a value at its first `=`: `a=b=c` gives `b`. */
  lemma GetCookieCutsAtEquals(name: string, v: string, w: string)
    requires IsPlain(name) && IsPlain(v) && v != "" && Avoids(w, ';')
    ensures GetCookie(name + "=" + v + "=" + w, name) == Some(v)
  {
    var row := name + "=" + v + "=" + w;
    assert Avoids(row, ';');
    SplitWithoutSeparator(row, "; ");
    assert StartsWith(row, name + "=") by { assert row[..|name| + 1] == name + "="; }
    assert row == name + "=" + (v + "=" + w);
    SplitAtFirstSeparator(name, "=", v + "=" + w);
    assert Split(v + "=" + w, "=")[0] == v by { SplitAtFirstSeparator(v, "=", w); }
  }

  // ---------------------------------------------------------------------------------------
  // The request interceptor

  /** Headers with `X-CSRF-TOKEN` set to `token` and every other header kept: the
      `{ ...headers, 'X-CSRF-TOKEN': token }` spread. */
  function WithCsrf(headers: map<string, string>, token: string): (h: map<string, string>)
    ensures CSRF_HEADER in h && h[CSRF_HEADER] == token
    ensures forall k :: k != CSRF_HEADER ==> (k in h <==> k in headers)
    ensures forall k :: k != CSRF_HEADER && k in headers ==> h[k] == headers[k]
  {
    headers[CSRF_HEADER := token]
  }

  /** A request re-issued with a new token: `{ ...config, headers: { ...config.headers, 'X-CSRF-TOKEN': token } }`. */
  function Resend(req: Request, token: string): (r: Request)
    ensures r.tag == req.tag && r.url == req.url && r.retry == req.retry
    ensures r.headers == WithCsrf(req.headers, token)
  {
    req.(headers := WithCsrf(req.headers, token))
  }

  /** What the request interceptor does to a request's headers. */
  function InterceptHeaders(headers: map<string, string>, cookie: string): (h: map<string, string>)
    ensures GetCSRFToken(cookie).Some? ==> CSRF_HEADER in h && h[CSRF_HEADER] == GetCSRFToken(cookie).value
    ensures GetCSRFToken(cookie).Some? ==> forall k :: k != CSRF_HEADER ==> (k in h <==> k in headers)
    ensures GetCSRFToken(cookie).Some? ==> forall k :: k != CSRF_HEADER && k in headers ==> h[k] == headers[k]
    ensures GetCSRFToken(cookie).None? ==> h == headers
  {
    match GetCSRFToken(cookie)
    case Some(csrf) => WithCsrf(headers, csrf)
    case None => headers
  }

  /** The request interceptor: attach the access-scoped CSRF token when the cookie has one. */
  function Intercept(req: Request, cookie: string): (r: Request)
    ensures r.tag == req.tag && r.url == req.url && r.retry == req.retry
    ensures r.headers == InterceptHeaders(req.headers, cookie)
  {
    req.(headers := InterceptHeaders(req.headers, cookie))
  }

  // ---------------------------------------------------------------------------------------
  // refreshToken

  /** The headers `refreshToken` gives its `POST /auth/refresh` call: the refresh-scoped CSRF
      token, or the empty string when that cookie is missing. */
  function RefreshCallHeaders(cookie: string): (h: map<string, string>)
    ensures h.Keys == {CSRF_HEADER}
    ensures h[CSRF_HEADER] == GetCSRFRefreshToken(cookie).GetOr("")
  {
    map[CSRF_HEADER := GetCSRFRefreshToken(cookie).GetOr("")]
  }

  /** The headers the refresh call goes out with AS WRITTEN: the call passes through the same
      request interceptor, which runs after the per-call headers are merged in. */
  function RefreshHeadersAsWritten(cookie: string): (h: map<string, string>)
    ensures GetCSRFToken(cookie).Some? ==> h == map[CSRF_HEADER := GetCSRFToken(cookie).value]
    ensures GetCSRFToken(cookie).None? ==> h == RefreshCallHeaders(cookie)
  {
    InterceptHeaders(RefreshCallHeaders(cookie), cookie)
  }

  const REFRESH_URL: string := "/auth/refresh"

  /** The refresh call as written: `POST /auth/refresh` on the client's own instance, so it
      passes through the request interceptor and carries no `_retry` marker. `tag` names the
      request whose interceptor awaits it. */
  function RefreshRequest(tag: nat, cookie: string): (r: Request)
    ensures r.tag == tag && r.url == REFRESH_URL && !r.retry
    ensures r.headers == RefreshHeadersAsWritten(cookie)
  {
    Intercept(Request(tag, REFRESH_URL, RefreshCallHeaders(cookie), false), cookie)
  }

  /** The refresh call as intended: it carries the refresh-scoped token, and it is marked so
      that the response interceptor never treats its 401 as one more request to park. */
  function CorrectedRefreshRequest(tag: nat, cookie: string): (r: Request)
    ensures r.tag == tag && r.url == REFRESH_URL && r.retry
    ensures r.headers == RefreshCallHeaders(cookie)
  {
    Request(tag, REFRESH_URL, RefreshCallHeaders(cookie), true)
  }

  /** As written, whenever the access-token cookie is set the refresh call carries the access
      token in place of the refresh token. */
  lemma RefreshCallCarriesAccessToken(cookie: string)
    requires GetCSRFToken(cookie).Some?
    ensures RefreshHeadersAsWritten(cookie)[CSRF_HEADER] == GetCSRFToken(cookie).value
  {
  }

  lemma AccessAndRefreshNamesArePlain()
    ensures IsPlain(ACCESS_COOKIE) && IsPlain(REFRESH_COOKIE) && IsPlain("A") && IsPlain("R")
  {
    assert forall i :: 0 <= i < |ACCESS_COOKIE| ==> ACCESS_COOKIE[i] != ';' && ACCESS_COOKIE[i] != '=';
    assert forall i :: 0 <= i < |REFRESH_COOKIE| ==> REFRESH_COOKIE[i] != ';' && REFRESH_COOKIE[i] != '=';
  }

  /** A browser jar holding both CSRF cookies, the access one first. */
  function BothTokensJar(): seq<Cookie> {
    [Cookie(ACCESS_COOKIE, "A"), Cookie(REFRESH_COOKIE, "R")]
  }

  lemma BothTokensAccessLookup()
    ensures GetCSRFToken(CookieString(BothTokensJar())) == Some("A")
  {
    AccessAndRefreshNamesArePlain();
    GetCookieOfCookieString(BothTokensJar(), ACCESS_COOKIE);
  }

  lemma BothTokensRefreshLookup()
    ensures GetCSRFRefreshToken(CookieString(BothTokensJar())) == Some("R")
  {
    var jar := BothTokensJar();
    AccessAndRefreshNamesArePlain();
    assert ACCESS_COOKIE != REFRESH_COOKIE by { assert ACCESS_COOKIE[5] != REFRESH_COOKIE[5]; }
    assert jar[1..] == [Cookie(REFRESH_COOKIE, "R")];
    assert Lookup(jar, REFRESH_COOKIE) == Some("R");
    GetCookieOfCookieString(jar, REFRESH_COOKIE);
  }

  /** The cookie string `csrf_access_token=A; csrf_refresh_token=R`: the refresh call is meant
      to carry `R` and, as written, carries `A`. */
  lemma RefreshCallCounterexample()
    ensures var cookie := CookieString([Cookie(ACCESS_COOKIE, "A"), Cookie(REFRESH_COOKIE, "R")]);
      && RefreshCallHeaders(cookie)[CSRF_HEADER] == "R"
      && RefreshHeadersAsWritten(cookie)[CSRF_HEADER] == "A"
  {
    BothTokensAccessLookup();
    BothTokensRefreshLookup();
  }

  /** `refreshToken()`: the outcome of the refresh call and the cookie string right after it
      decide the new token. A failed call rejects with the AxiosError its response
      interceptor passed on. */
  function RefreshToken(post: Result<(), ApiError>, cookieAfter: string): (r: Result<string, Thrown>)
    ensures r.Ok? <==> post.Ok? && GetCSRFToken(cookieAfter).Some?
    ensures r.Ok? ==> r.value != "" && GetCSRFToken(cookieAfter) == Some(r.value)
    ensures post.Err? ==> r == Err(Axios(post.error))
    ensures post.Ok? && GetCSRFToken(cookieAfter).None? ==> r == Err(Failure(NO_TOKEN_MESSAGE))
  {
    match post
    case Err(e) => Err(Axios(e))
    case Ok(_) =>
      var newToken := GetCSRFToken(cookieAfter).GetOr("");
      if newToken == "" then Err(Failure(NO_TOKEN_MESSAGE)) else Ok(newToken)
  }

  // ---------------------------------------------------------------------------------------
  // handleError

  /** `Object.values(s)` of a string: its characters, one text each. */
  function Characters(s: string): (r: seq<string>)
    ensures |r| == |s| && forall i :: 0 <= i < |s| ==> r[i] == [s[i]]
  {
    seq(|s|, i requires 0 <= i < |s| => [s[i]])
  }

  /** `.flat()` of a list of field values. */
  function Flatten(vs: seq<FieldValue>): seq<string> {
    if vs == [] then []
    else (match vs[0] case One(t) => [t] case Many(ts) => ts) + Flatten(vs[1..])
  }

  /** `Object.values(error.response.data?.message || {}).flat()` */
  function ValidationTexts(m: Option<Message>): seq<string> {
    if !IsTruthy(m) then []
    else match m.value
      case Text(s) => Characters(s)
      case Fields(vs) => Flatten(vs)
  }

  const PLEASE_CHECK: string := "Please check your input"
  const NETWORK_TEXT: string := "Unable to connect to server. Please check your connection."
  const SERVER_TEXT: string := "Something went wrong on our end. Please try again later."

  /** The validation notice of a 400 response: the flattened messages joined by `, `, or the
      generic request to check the input when that text is empty. */
  function ValidationNotice(m: Option<Message>): Notice {
    Notice(Validation, "Validation Error", Text(Or(Join(ValidationTexts(m), ", "), PLEASE_CHECK)))
  }

  /** `handleError`: three independent checks, for 400 (section 15.5.1 of RFC 9110), for no
      response, and for a 5xx status (section 15.6 of RFC 9110). */
  function ClientNotices(e: ApiError): (r: seq<Notice>)
    ensures |r| <= 1
    ensures r == [] <==> e.response.Some? && e.response.value.status != 400 && e.response.value.status < 500
    ensures e.response.None? ==> r == [Notice(Network, "Network Error", Text(NETWORK_TEXT))]
    ensures e.response.Some? && e.response.value.status == 400 ==> r == [ValidationNotice(e.response.value.message)]
    ensures e.response.Some? && e.response.value.status >= 500 ==> r == [Notice(Server, "Server Error", Text(SERVER_TEXT))]
  {
    (if e.response.Some? && e.response.value.status == 400
     then [ValidationNotice(e.response.value.message)] else [])
    + (if e.response.None? then [Notice(Network, "Network Error", Text(NETWORK_TEXT))] else [])
    + (if e.response.Some? && e.response.value.status >= 500
       then [Notice(Server, "Server Error", Text(SERVER_TEXT))] else [])
  }

  /** A 400 whose message object holds single texts lists them in key order. */
  lemma {:induction false} FlattenOfSingleTexts(vs: seq<FieldValue>)
    requires forall i :: 0 <= i < |vs| ==> vs[i].One?
    ensures |Flatten(vs)| == |vs| && forall i :: 0 <= i < |vs| ==> Flatten(vs)[i] == vs[i].text
  {
    if vs != [] {
      FlattenOfSingleTexts(vs[1..]);
    }
  }

  // ---------------------------------------------------------------------------------------
  // The session-refresh coordinator

  /** A request parked in `failedQueue`; its resolve/reject pair is named by the request's tag. */
  datatype Pending = Pending(config: Request)

  /** The coordinator's state: `isRefreshing`, `failedQueue`, and the request whose response
      interceptor is suspended awaiting `refreshToken()` (the source keeps it in a closure). */
  datatype Coordinator = Coordinator(isRefreshing: bool, queue: seq<Pending>, suspended: Option<Request>)

  /** A refresh is in flight exactly when some request awaits it, that request carries the
      `_retry` marker, and no parked request does. */
  predicate Consistent(s: Coordinator) {
    && (s.isRefreshing <==> s.suspended.Some?)
    && (s.suspended.Some? ==> s.suspended.value.retry)
    && (forall i :: 0 <= i < |s.queue| ==> !s.queue[i].config.retry)
  }

  const IDLE: Coordinator := Coordinator(false, [], None)

  /** What the response interceptor does with one failed response. */
  datatype Reaction =
    | Queued
    | RefreshStarted(original: Request, refreshCall: Request)
    | Rejected(error: ApiError, notices: seq<Notice>)

  predicate IsStart(r: Reaction) {
    r.RefreshStarted?
  }

  /** The refresh path is taken for a 401 whose request exists and is not yet marked. */
  predicate EntersRefreshPath(e: ApiError) {
    e.response.Some? && e.response.value.status == 401 && e.config.Some? && !e.config.value.retry
  }

  /** Where one failed response leaves the coordinator. */
  function AfterError(s: Coordinator, e: ApiError): Coordinator {
    if !EntersRefreshPath(e) then s
    else if s.isRefreshing then s.(queue := s.queue + [Pending(e.config.value)])
    else Coordinator(true, s.queue, Some(e.config.value.(retry := true)))
  }

  /** The response interceptor's error handler. While a refresh is in flight a qualifying 401
      is parked at the end of the queue; otherwise it marks its request, sets the flag and
      sends the refresh call as written; every other error is classified and rejected
      unchanged. */
  function OnError(s: Coordinator, e: ApiError, cookie: string): (out: (Coordinator, Reaction))
    ensures !EntersRefreshPath(e) ==> out == (s, Rejected(e, ClientNotices(e)))
    ensures EntersRefreshPath(e) && s.isRefreshing ==>
              out == (s.(queue := s.queue + [Pending(e.config.value)]), Queued)
    ensures EntersRefreshPath(e) && !s.isRefreshing ==>
              && out.1.RefreshStarted? && out.1.original == e.config.value.(retry := true)
              && out.1.refreshCall == RefreshRequest(e.config.value.tag, cookie)
              && out.0 == Coordinator(true, s.queue, Some(out.1.original))
    ensures out.0 == AfterError(s, e)
    ensures Consistent(s) ==> Consistent(out.0)
  {
    if EntersRefreshPath(e) then
      if s.isRefreshing then (s.(queue := s.queue + [Pending(e.config.value)]), Queued)
      else
        var marked := e.config.value.(retry := true);
        (Coordinator(true, s.queue, Some(marked)), RefreshStarted(marked, RefreshRequest(marked.tag, cookie)))
    else (s, Rejected(e, ClientNotices(e)))
  }

  /** `onRefreshed(newToken)`: every parked request re-issued with the new token, in queue order. */
  function Replays(queue: seq<Pending>, token: string): (r: seq<Request>)
    ensures |r| == |queue|
    ensures forall i :: 0 <= i < |queue| ==> r[i] == Resend(queue[i].config, token)
  {
    seq(|queue|, i requires 0 <= i < |queue| => Resend(queue[i].config, token))
  }

  /** How the refresh attempt ends for the suspended request: re-issued with the others,
      rejected with the refresh error and the notices the refresh call's own failure raised,
      or stalled because the refresh call itself was parked and never settles. */
  datatype Settled = Reissued(requests: seq<Request>) | RefreshRejected(error: Thrown, notices: seq<Notice>) | Stalled

  /** `refreshToken()` returns or throws. On success the parked requests are re-issued in
      order, then the suspended one, and the queue is emptied; on failure the suspended request
      is rejected with the refresh error and the queue is left as it is. Either way the
      `finally` clears the flag. */
  function Settle(s: Coordinator, token: Result<string, Thrown>, notices: seq<Notice>): (out: (Coordinator, Settled))
    requires Consistent(s) && s.isRefreshing
    ensures !out.0.isRefreshing && out.0.suspended.None? && Consistent(out.0)
    ensures token.Ok? ==> out.0.queue == [] && out.1 == Reissued(Replays(s.queue, token.value) + [Resend(s.suspended.value, token.value)])
    ensures token.Err? ==> out.0.queue == s.queue && out.1 == RefreshRejected(token.error, notices)
  {
    match token
    case Ok(t) => (IDLE, Reissued(Replays(s.queue, t) + [Resend(s.suspended.value, t)]))
    case Err(err) => (Coordinator(false, s.queue, None), RefreshRejected(err, notices))
  }

  /** The refresh call's reply reaches the coordinator. A failure goes first through the same
      response interceptor as every other request: a 401 on the unmarked refresh call is
      parked in the queue while the flag is still set, so `refreshToken()` never settles and
      the flag is never cleared. Any other failure is classified (its notices shown) and passed
      on, and `refreshToken()` then settles as `Settle` describes. */
  function RefreshOutcome(s: Coordinator, post: Result<(), ApiError>, cookieAfter: string): (out: (Coordinator, Settled))
    requires Consistent(s) && s.isRefreshing
    ensures Consistent(out.0)
    ensures out.1 == Stalled <==> post.Err? && EntersRefreshPath(post.error)
    ensures out.1 == Stalled ==> out.0 == s.(queue := s.queue + [Pending(post.error.config.value)])
    ensures out.1 != Stalled ==> !out.0.isRefreshing && out.0.suspended.None?
    ensures post.Ok? ==> out == Settle(s, RefreshToken(post, cookieAfter), [])
    ensures post.Err? && !EntersRefreshPath(post.error) ==>
              out == Settle(s, Err(Axios(post.error)), ClientNotices(post.error))
  {
    match post
    case Ok(_) => Settle(s, RefreshToken(post, cookieAfter), [])
    case Err(e) =>
      var (after, reaction) := OnError(s, e, cookieAfter);
      match reaction
      case Rejected(err, notices) => Settle(s, Err(Axios(err)), notices)
      case _ => (after, Stalled)
  }

  /** As written, a 401 on the refresh call (an expired refresh cookie, say) stalls the
      coordinator for good: the call is parked behind its own refresh, the flag stays set, no
      later 401 can start a refresh, and each one is parked in turn. */
  lemma RefreshCall401Stalls(s: Coordinator, tag: nat, cookie: string, cookieAfter: string, text: string,
                             code: Option<string>, msg: Option<Message>, later: seq<ApiError>)
    requires Consistent(s) && s.isRefreshing
    ensures var call := RefreshRequest(tag, cookie);
      var (stalled, outcome) := RefreshOutcome(s, Err(ApiError(text, code, Some(call), Some(Response(401, msg)))), cookieAfter);
      var (final, rs) := RunErrors(stalled, later, cookie);
      && outcome == Stalled
      && stalled.isRefreshing && stalled.queue == s.queue + [Pending(call)]
      && final.isRefreshing
      && Seqs.Count(rs, IsStart) == 0
      && final.queue == stalled.queue + Parked(Qualifying(later))
  {
    var call := RefreshRequest(tag, cookie);
    var stalled := RefreshOutcome(s, Err(ApiError(text, code, Some(call), Some(Response(401, msg)))), cookieAfter).0;
    SingleFlight(stalled, later, cookie);
  }

  /** With the refresh call as intended, every failure of it settles the attempt: the
      suspended request is rejected with the call's error and notices, and the flag is
      cleared. */
  lemma CorrectedRefreshCallSettles(s: Coordinator, tag: nat, cookie: string, cookieAfter: string, e: ApiError)
    requires Consistent(s) && s.isRefreshing
    requires e.config == Some(CorrectedRefreshRequest(tag, cookie))
    ensures var (after, outcome) := RefreshOutcome(s, Err(e), cookieAfter);
      && outcome == RefreshRejected(Axios(e), ClientNotices(e))
      && !after.isRefreshing && after.suspended.None? && after.queue == s.queue
  {
  }

  /** On success every re-issued request carries the new token and keeps its other headers;
      the parked ones come first in queue order and the suspended one last. */
  lemma ReissuedRequestsCarryToken(s: Coordinator, token: string)
    requires Consistent(s) && s.isRefreshing
    ensures var rs := Settle(s, Ok(token), []).1.requests;
      && |rs| == |s.queue| + 1
      && (forall i :: 0 <= i < |rs| ==> CSRF_HEADER in rs[i].headers && rs[i].headers[CSRF_HEADER] == token)
      && (forall i :: 0 <= i < |s.queue| ==> rs[i].tag == s.queue[i].config.tag && rs[i].url == s.queue[i].config.url)
      && (forall i, k :: 0 <= i < |s.queue| && k != CSRF_HEADER && k in s.queue[i].config.headers ==>
            k in rs[i].headers && rs[i].headers[k] == s.queue[i].config.headers[k])
      && rs[|s.queue|].tag == s.suspended.value.tag && rs[|s.queue|].retry
  {
  }

  /** The suspended request is re-issued with its marker set, so a second 401 on it is
      rejected rather than refreshed again. */
  lemma ReissuedOriginalIsNotRetried(s: Coordinator, token: string, resp: Response, text: string, code: Option<string>)
    requires Consistent(s) && s.isRefreshing
    ensures var rs := Settle(s, Ok(token), []).1.requests;
      !EntersRefreshPath(ApiError(text, code, Some(rs[|rs| - 1]), Some(resp)))
  {
  }

  /** Parked requests are re-issued without the marker (only the request that started the
      refresh is marked), so a parked request that meets a 401 again enters the refresh path a
      second time. */
  lemma ReissuedParkedMayRefreshAgain(s: Coordinator, token: string, i: nat, text: string, code: Option<string>, msg: Option<Message>)
    requires Consistent(s) && s.isRefreshing && i < |s.queue|
    ensures var rs := Settle(s, Ok(token), []).1.requests;
      EntersRefreshPath(ApiError(text, code, Some(rs[i]), Some(Response(401, msg))))
  {
  }

  /** A run of failed responses delivered one after another with no refresh settling in between. */
  function RunErrors(s: Coordinator, es: seq<ApiError>, cookie: string): (out: (Coordinator, seq<Reaction>))
    ensures |out.1| == |es|
    decreases |es|
  {
    if es == [] then (s, [])
    else
      var step := OnError(s, es[0], cookie);
      var rest := RunErrors(step.0, es[1..], cookie);
      (rest.0, [step.1] + rest.1)
  }

  /** The queue entries for a list of failed requests. */
  function Parked(es: seq<ApiError>): seq<Pending> {
    if es == [] then []
    else (if es[0].config.Some? then [Pending(es[0].config.value)] else []) + Parked(es[1..])
  }

  lemma {:induction false} ParkedIndex(es: seq<ApiError>)
    requires forall i :: 0 <= i < |es| ==> es[i].config.Some?
    ensures |Parked(es)| == |es|
    ensures forall i :: 0 <= i < |es| ==> Parked(es)[i] == Pending(es[i].config.value)
  {
    if es != [] {
      ParkedIndex(es[1..]);
      assert forall i :: 1 <= i < |es| ==> es[i] == es[1..][i - 1];
    }
  }

  /** The 401s among `es` that start or join a refresh, in arrival order. */
  function Qualifying(es: seq<ApiError>): (q: seq<ApiError>)
    ensures forall i :: 0 <= i < |q| ==> q[i].config.Some?
  {
    Seqs.Filter(es, EntersRefreshPath)
  }

  /** The qualifying 401s that a run parks: all of them while a refresh is in flight, all but
      the first otherwise. */
  function Waiting(s: Coordinator, es: seq<ApiError>): (w: seq<ApiError>)
    ensures forall i :: 0 <= i < |w| ==> w[i].config.Some?
  {
    var q := Qualifying(es);
    if s.isRefreshing || q == [] then q else q[1..]
  }

  lemma QualifyingCons(es: seq<ApiError>)
    requires es != []
    ensures Qualifying(es) == (if EntersRefreshPath(es[0]) then [es[0]] else []) + Qualifying(es[1..])
  {
  }

  lemma {:induction false} RunKeepsConsistent(s: Coordinator, es: seq<ApiError>, cookie: string)
    requires Consistent(s)
    decreases |es|
    ensures Consistent(RunErrors(s, es, cookie).0)
    ensures RunErrors(s, es, cookie).0.isRefreshing == (s.isRefreshing || Qualifying(es) != [])
  {
    if es != [] {
      QualifyingCons(es);
      RunKeepsConsistent(OnError(s, es[0], cookie).0, es[1..], cookie);
    }
  }

  lemma {:induction false} RunStartsAtMostOne(s: Coordinator, es: seq<ApiError>, cookie: string)
    decreases |es|
    ensures Seqs.Count(RunErrors(s, es, cookie).1, IsStart) == (if s.isRefreshing || Qualifying(es) == [] then 0 else 1)
    ensures forall i :: 0 <= i < |es| ==> (RunErrors(s, es, cookie).1[i].Rejected? <==> !EntersRefreshPath(es[i]))
  {
    if es != [] {
      var (s1, r1) := OnError(s, es[0], cookie);
      var rs1 := RunErrors(s1, es[1..], cookie).1;
      var rs := RunErrors(s, es, cookie).1;
      assert rs == [r1] + rs1;
      assert rs[1..] == rs1;
      QualifyingCons(es);
      RunStartsAtMostOne(s1, es[1..], cookie);
    }
  }

  /** A response that does not qualify leaves the coordinator and the waiting list alone. */
  lemma SkipStep(s: Coordinator, e: ApiError, es: seq<ApiError>)
    requires !EntersRefreshPath(e)
    ensures Waiting(s, [e] + es) == Waiting(s, es)
  {
    QualifyingCons([e] + es);
    assert ([e] + es)[1..] == es;
  }

  /** A qualifying 401 during a refresh joins the queue and leaves the waiting list. */
  lemma QueueStep(s: Coordinator, e: ApiError, es: seq<ApiError>)
    requires EntersRefreshPath(e) && s.isRefreshing
    ensures Parked(Waiting(s, [e] + es)) == [Pending(e.config.value)] + Parked(Waiting(s, es))
  {
    QualifyingCons([e] + es);
    assert ([e] + es)[1..] == es;
    assert ([e] + Qualifying(es))[1..] == Qualifying(es);
  }

  /** A qualifying 401 with no refresh in flight starts one and is not parked. */
  lemma StartStep(s: Coordinator, e: ApiError, es: seq<ApiError>)
    requires EntersRefreshPath(e) && !s.isRefreshing
    ensures Waiting(s, [e] + es) == Waiting(s.(isRefreshing := true), es)
  {
    QualifyingCons([e] + es);
    assert ([e] + es)[1..] == es;
  }

  /** One failed response moves a qualifying 401 from the waiting list to the queue, or
      leaves both alone. */
  lemma ParkStep(s: Coordinator, e: ApiError, es: seq<ApiError>)
    ensures var s1 := AfterError(s, e);
      s1.queue + Parked(Waiting(s1, es)) == s.queue + Parked(Waiting(s, [e] + es))
  {
    if !EntersRefreshPath(e) {
      SkipStep(s, e, es);
    } else if s.isRefreshing {
      QueueStep(s, e, es);
    } else {
      StartStep(s, e, es);
    }
  }

  lemma {:induction false} RunParksInOrder(s: Coordinator, es: seq<ApiError>, cookie: string)
    decreases |es|
    ensures RunErrors(s, es, cookie).0.queue == s.queue + Parked(Waiting(s, es))
  {
    if es == [] {
      assert Waiting(s, es) == [];
      assert s.queue + Parked([]) == s.queue;
    } else {
      var s1 := OnError(s, es[0], cookie).0;
      RunParksInOrder(s1, es[1..], cookie);
      ParkStep(s, es[0], es[1..]);
      assert [es[0]] + es[1..] == es;
    }
  }

  /** Single flight: however many qualifying 401s arrive, at most one refresh starts (none if
      one is already in flight); the others are parked at the end of the queue in arrival
      order, and every other error is rejected. */
  lemma SingleFlight(s: Coordinator, es: seq<ApiError>, cookie: string)
    requires Consistent(s)
    ensures var (final, rs) := RunErrors(s, es, cookie);
      && Consistent(final)
      && final.isRefreshing == (s.isRefreshing || Qualifying(es) != [])
      && Seqs.Count(rs, IsStart) == (if s.isRefreshing || Qualifying(es) == [] then 0 else 1)
      && final.queue == s.queue + Parked(Waiting(s, es))
      && (forall i :: 0 <= i < |es| ==> (rs[i].Rejected? <==> !EntersRefreshPath(es[i])))
  {
    RunKeepsConsistent(s, es, cookie);
    RunStartsAtMostOne(s, es, cookie);
    RunParksInOrder(s, es, cookie);
  }

  /** N concurrent 401s from an idle client start exactly one refresh, for the first of them,
      and park the other N - 1 in order. */
  lemma OneRefreshForConcurrent401s(es: seq<ApiError>, cookie: string)
    requires es != [] && forall i :: 0 <= i < |es| ==> EntersRefreshPath(es[i])
    ensures var (final, rs) := RunErrors(IDLE, es, cookie);
      && Seqs.Count(rs, IsStart) == 1
      && rs[0].RefreshStarted? && rs[0].original == es[0].config.value.(retry := true)
      && |final.queue| == |es| - 1
      && forall i :: 1 <= i < |es| ==> es[i].config == Some(final.queue[i - 1].config)
  {
    Seqs.FilterAll(es, EntersRefreshPath);
    RunStartsAtMostOne(IDLE, es, cookie);
    RunParksInOrder(IDLE, es, cookie);
    var final := RunErrors(IDLE, es, cookie).0;
    assert final.queue == Parked(es[1..]) by {
      assert Waiting(IDLE, es) == es[1..];
      assert [] + Parked(es[1..]) == Parked(es[1..]);
    }
    ParkedIndex(es[1..]);
  }

  /** A failed refresh leaves the parked requests where they are: neither re-issued nor
      rejected. They are re-issued only if a later refresh, started by some other 401,
      succeeds. */
  lemma ParkedRequestsWaitForNextRefresh(s: Coordinator, err: Thrown, e: ApiError, cookie: string, token: string)
    requires Consistent(s) && s.isRefreshing && EntersRefreshPath(e)
    ensures var failed := Settle(s, Err(err), []).0;
      var started := OnError(failed, e, cookie).0;
      && failed.queue == s.queue
      && started.isRefreshing
      && Settle(started, Ok(token), []).1.requests[..|s.queue|] == Replays(s.queue, token)
  {
    var failed := Settle(s, Err(err), []).0;
    var started := OnError(failed, e, cookie).0;
    var rs := Settle(started, Ok(token), []).1.requests;
    assert rs[..|s.queue|] == Replays(started.queue, token);
  }

  // ---------------------------------------------------------------------------------------
  // The client object

  /** The `APIClient` instance: its `isRefreshing` flag and `failedQueue`, and the request whose
      interceptor awaits the refresh. */
  class APIClient {
    var isRefreshing: bool
    var failedQueue: seq<Pending>
    var suspended: Option<Request>

    function State(): Coordinator
      reads this
    {
      Coordinator(isRefreshing, failedQueue, suspended)
    }

    ghost predicate Valid()
      reads this
    {
      Consistent(State())
    }

    constructor ()
      ensures Valid() && State() == IDLE
    {
      isRefreshing := false;
      failedQueue := [];
      suspended := None;
    }

    /** A response came back with an error. */
    method OnResponseError(e: ApiError, cookie: string) returns (reaction: Reaction)
      requires Valid()
      modifies this
      ensures Valid()
      ensures (State(), reaction) == OnError(old(State()), e, cookie)
    {
      if e.response.Some? && e.response.value.status == 401 && e.config.Some? && !e.config.value.retry {
        if isRefreshing {
          failedQueue := failedQueue + [Pending(e.config.value)];
          return Queued;
        }
        var originalRequest := e.config.value.(retry := true);
        isRefreshing := true;
        suspended := Some(originalRequest);
        return RefreshStarted(originalRequest, RefreshRequest(originalRequest.tag, cookie));
      }
      return Rejected(e, ClientNotices(e));
    }

    /** `onRefreshed(newToken)`: re-issue each parked request with the new token, in queue
      order, then reset the queue. */
    method OnRefreshed(newToken: string) returns (reissued: seq<Request>)
      modifies this`failedQueue
      ensures reissued == Replays(old(failedQueue), newToken)
      ensures failedQueue == []
    {
      reissued := [];
      var i := 0;
      while i < |failedQueue|
        invariant 0 <= i <= |failedQueue|
        invariant |reissued| == i
        invariant forall k :: 0 <= k < i ==> reissued[k] == Resend(failedQueue[k].config, newToken)
      {
        var pending := failedQueue[i];
        reissued := reissued + [Resend(pending.config, newToken)];
        i := i + 1;
      }
      failedQueue := [];
    }

    /** The refresh call came back with `post`, leaving the cookie string `cookieAfter`. A
        failure is first handed to this client's own response interceptor; when that parks it,
        `refreshToken()` is left waiting and nothing else happens. */
    method OnRefreshSettled(post: Result<(), ApiError>, cookieAfter: string) returns (outcome: Settled)
      requires Valid() && isRefreshing
      modifies this
      ensures Valid()
      ensures (State(), outcome) == RefreshOutcome(old(State()), post, cookieAfter)
    {
      var notices: seq<Notice> := [];
      if post.Err? {
        var reaction := OnResponseError(post.error, cookieAfter);
        if !reaction.Rejected? {
          return Stalled;
        }
        notices := reaction.notices;
      }
      var newToken := RefreshToken(post, cookieAfter);
      match newToken {
        case Ok(t) =>
          var reissued := OnRefreshed(t);
          var originalRequest := suspended.value;
          outcome := Reissued(reissued + [Resend(originalRequest, t)]);
        case Err(refreshError) =>
          outcome := RefreshRejected(refreshError, notices);
      }
      isRefreshing := false;
      suspended := None;
    }
  }
}
