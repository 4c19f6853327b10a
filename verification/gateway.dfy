/** The shared axios instance (`src/api/core/axios.js`): a request
    interceptor that attaches the stored bearer token, and a response
    interceptor that refreshes the token once on a 401 and replays the
    request, or clears the session and sends the browser to the login page
    when the refresh fails. */
module Gateway {
  import opened Common

  const LoginPath := "/auth/login"
  const RegisterPath := "/auth/register"
  const RefreshPath := "/auth/refresh"
  const LoginPage := "/login"
  const AuthorizationHeader := "Authorization"

  /** A request config as the interceptors see it; `retry` is `_retry`. */
  datatype Request = Request(url: Option<string>, headers: map<string, string>, retry: bool)

  /** The browser state the gateway reads and writes: the `token` and `user`
      entries of localStorage and `window.location.href`. */
  datatype Browser = Browser(token: Option<string>, user: Option<string>, location: string)

  /** How the transport answered: a 2xx response, an error status, or no
      response at all (network failure). */
  datatype Reply = Success | HttpError(status: int) | NoResponse

  /** The answer to `POST /auth/refresh`: a body carrying a new access token,
      or any failure. */
  datatype RefreshReply = Refreshed(accessToken: string) | RefreshFailed

  /** What the response interceptor does with one response. */
  datatype Action =
    | Pass                  // the response is handed to the caller
    | RejectOriginal        // the original error is rejected unchanged
    | Replay(request: Request)  // the marked request is sent again
    | RejectRefreshError    // session cleared, redirected, refresh error rejected

  datatype Step = Step(action: Action, browser: Browser, refreshCalls: nat)

  /** JavaScript truthiness of a localStorage read: null and "" are false. */
  predicate Truthy(v: Option<string>) {
    v.Some? && v.value != ""
  }

  function Bearer(token: string): string {
    "Bearer " + token
  }

  /** `url?.includes(...)` for the login, register and refresh endpoints. */
  predicate IsAuthEndpoint(url: Option<string>) {
    url.Some? &&
    (Contains(url.value, LoginPath) || Contains(url.value, RegisterPath) || Contains(url.value, RefreshPath))
  }

  /** Request interceptor: with a stored token the request carries
      `Authorization: Bearer <token>`; without one it goes out unchanged. */
  function AttachBearer(stored: Option<string>, req: Request): (r: Request)
    ensures r.url == req.url && r.retry == req.retry
    ensures Truthy(stored) ==>
              AuthorizationHeader in r.headers && r.headers[AuthorizationHeader] == Bearer(stored.value)
    ensures !Truthy(stored) ==> r == req
    ensures forall h :: h in req.headers && h != AuthorizationHeader ==> h in r.headers && r.headers[h] == req.headers[h]
    ensures forall h :: h in r.headers ==> h in req.headers || h == AuthorizationHeader
  {
    if Truthy(stored) then req.(headers := req.headers[AuthorizationHeader := Bearer(stored.value)])
    else req
  }

  /** `originalRequest` after the interceptor marked it `_retry` and set its
      bearer to the new token `t`. */
  function Marked(req: Request, t: string): (r: Request)
    ensures r.url == req.url && r.retry
    ensures AuthorizationHeader in r.headers && r.headers[AuthorizationHeader] == Bearer(t)
    ensures forall h :: h in req.headers && h != AuthorizationHeader ==> h in r.headers && r.headers[h] == req.headers[h]
    ensures forall h :: h in r.headers ==> h in req.headers || h == AuthorizationHeader
  {
    req.(retry := true, headers := req.headers[AuthorizationHeader := Bearer(t)])
  }

  /** Response interceptor for one response to `req`. The reply to the
      refresh call is a parameter; it is consulted only when a refresh is
      made. */
  function OnResponse(b: Browser, req: Request, reply: Reply, refresh: RefreshReply): (s: Step)
    // only an unretried 401 off the auth endpoints refreshes, and only once
    ensures s.refreshCalls <= 1
    ensures s.refreshCalls == 1 <==> reply == HttpError(401) && !IsAuthEndpoint(req.url) && !req.retry
    // without a refresh, nothing changes and the reply is passed through
    ensures s.refreshCalls == 0 ==> s.browser == b
    ensures s.refreshCalls == 0 ==> (s.action == Pass <==> reply == Success)
    ensures s.refreshCalls == 0 ==> (s.action == RejectOriginal <==> reply != Success)
    // a successful refresh stores the new token and replays the marked request with it
    ensures s.action.Replay? <==> s.refreshCalls == 1 && refresh.Refreshed?
    ensures s.action.Replay? ==>
              && s.browser == b.(token := Some(refresh.accessToken))
              && s.action.request.retry
              && s.action.request.url == req.url
              && AuthorizationHeader in s.action.request.headers
              && s.action.request.headers[AuthorizationHeader] == Bearer(refresh.accessToken)
    ensures s.action.Replay? ==>
              && (forall h :: h in req.headers && h != AuthorizationHeader ==>
                    h in s.action.request.headers && s.action.request.headers[h] == req.headers[h])
              && (forall h :: h in s.action.request.headers ==> h in req.headers || h == AuthorizationHeader)
    // a failed refresh clears the session, redirects and rejects the refresh error
    ensures s.action == RejectRefreshError <==> s.refreshCalls == 1 && refresh == RefreshFailed
    ensures s.action == RejectRefreshError ==> s.browser == Browser(None, None, LoginPage)
  {
    if reply == HttpError(401) && !IsAuthEndpoint(req.url) && !req.retry then
      match refresh
      case Refreshed(t) =>
        Step(Replay(Marked(req, t)), b.(token := Some(t)), 1)
      case RefreshFailed =>
        Step(RejectRefreshError, b.(token := None, user := None, location := LoginPage), 1)
    else if reply == Success then
      Step(Pass, b, 0)
    else
      Step(RejectOriginal, b, 0)
  }

  /** How one logical call ends for its caller. */
  datatype Final = Resolved | RejectedOriginal | RejectedRefresh

  datatype Outcome = Outcome(final: Final, browser: Browser, sends: nat, refreshCalls: nat)

  /** What the server sees on the second send of a call replayed with the
      new token `t`: the first send, marked, with the request interceptor run
      again over the stored `t`. */
  function ReplaySent(b: Browser, req: Request, t: string): Request {
    AttachBearer(Some(t), Marked(AttachBearer(b.token, req), t))
  }

  /** One `api(req)` call end to end: the request interceptor, the server's
      reply to what was actually sent, the response interceptor, and the
      replay it may ask for. The server is any function of the request. The
      replay is returned, not awaited, inside the interceptor's `try`, so its
      own failure is rejected as it is and never reaches the `catch`. */
  function Call(b: Browser, req: Request, server: Request -> Reply, refresh: RefreshReply): (o: Outcome)
    ensures 1 <= o.sends <= 2
    ensures o.refreshCalls <= 1
    ensures o.sends == 2 <==> o.refreshCalls == 1 && refresh.Refreshed?
    ensures req.retry ==> o.sends == 1 && o.refreshCalls == 0 && o.browser == b
    // only an unretried 401 off the auth urls refreshes; without a refresh the browser is untouched
    ensures o.refreshCalls == 1 <==>
              server(AttachBearer(b.token, req)) == HttpError(401) && !IsAuthEndpoint(req.url) && !req.retry
    ensures o.refreshCalls == 0 ==> o.sends == 1 && o.browser == b
    // sent once: resolved exactly on a successful reply to the first send
    ensures o.sends == 1 ==> (o.final == Resolved <==> server(AttachBearer(b.token, req)) == Success)
    ensures server(AttachBearer(b.token, req)) == Success ==> o == Outcome(Resolved, b, 1, 0)
    // a failed refresh: session cleared, redirected, refresh error rejected
    ensures o.final == RejectedRefresh <==>
              && server(AttachBearer(b.token, req)) == HttpError(401)
              && !IsAuthEndpoint(req.url) && !req.retry && refresh == RefreshFailed
    ensures o.final == RejectedRefresh ==> o.browser == Browser(None, None, LoginPage)
    // a replay keeps the new token whatever its own reply; its failure rejects as it is
    ensures o.sends == 2 ==>
              && o.browser == b.(token := Some(refresh.accessToken))
              && (o.final == Resolved <==> server(ReplaySent(b, req, refresh.accessToken)) == Success)
              && (o.final == RejectedOriginal <==> server(ReplaySent(b, req, refresh.accessToken)) != Success)
    decreases if req.retry then 0 else 1
  {
    var sent := AttachBearer(b.token, req);
    var s := OnResponse(b, sent, server(sent), refresh);
    match s.action
    case Pass => Outcome(Resolved, s.browser, 1, s.refreshCalls)
    case RejectOriginal => Outcome(RejectedOriginal, s.browser, 1, s.refreshCalls)
    case RejectRefreshError => Outcome(RejectedRefresh, s.browser, 1, s.refreshCalls)
    case Replay(r) =>
      var o := Call(s.browser, r, server, refresh);
      o.(sends := o.sends + 1, refreshCalls := o.refreshCalls + s.refreshCalls)
  }

  /** A call to the login, register or refresh endpoint is sent once, never
      refreshes, and leaves the browser state alone, whatever the reply. */
  lemma AuthEndpointCallNeverRefreshes(b: Browser, req: Request, server: Request -> Reply, refresh: RefreshReply)
    requires IsAuthEndpoint(req.url)
    ensures Call(b, req, server, refresh).sends == 1
    ensures Call(b, req, server, refresh).refreshCalls == 0
    ensures Call(b, req, server, refresh).browser == b
    ensures Call(b, req, server, refresh).final != RejectedRefresh
  {
    var sent := AttachBearer(b.token, req);
    assert sent.url == req.url;
  }

  /** A replayed request reaches the server carrying the freshly stored
      token, whatever token the browser held before. */
  lemma ReplayCarriesNewToken(b: Browser, req: Request, reply: Reply, t: string)
    requires OnResponse(b, req, reply, Refreshed(t)).action.Replay?
    ensures var s := OnResponse(b, req, reply, Refreshed(t));
            AttachBearer(s.browser.token, s.action.request).headers[AuthorizationHeader] == Bearer(t)
  {
  }
}
