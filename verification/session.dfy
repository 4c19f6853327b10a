/** The session operations of `AuthProvider` (`src/context/AuthContext.jsx`)
    and the response interceptor it installs. In the app this interceptor and
    the one in `Gateway` are registered on the same axios instance; their
    composition is not modelled, and each policy is modelled on its own. */
module Session {
  import opened Common
  import opened Gateway

  /** The provider's React `token` state together with the browser state. */
  datatype Session = Session(token: Option<string>, browser: Browser)

  /** `logout()`: the backend call may fail (`backendOk` false), but the
      `finally` block always runs: token state and the stored token are
      cleared and the browser goes to the login page. The stored `user`
      entry is not touched. */
  function Logout(s: Session, backendOk: bool): (r: Session)
    ensures r.token == None && r.browser.token == None
    ensures r.browser.location == LoginPage
    ensures r.browser.user == s.browser.user
  {
    Session(None, s.browser.(token := None, location := LoginPage))
  }

  /** The end state of `logout()` does not depend on the backend, and a
      second logout changes nothing. */
  lemma LogoutIdempotent(s: Session, first: bool, second: bool)
    ensures Logout(s, true) == Logout(s, false)
    ensures Logout(Logout(s, first), second) == Logout(s, first)
  {
  }

  /** `login({ accessToken })`. */
  function Login(s: Session, accessToken: string): (r: Session)
    ensures r.token == Some(accessToken) && r.browser.token == Some(accessToken)
    ensures r.browser.user == s.browser.user && r.browser.location == s.browser.location
  {
    Session(Some(accessToken), s.browser.(token := Some(accessToken)))
  }

  /** What `refreshAccessToken()` returns and leaves behind. */
  datatype Refresh = Refresh(returned: Option<string>, session: Session, logouts: nat)

  /** `refreshAccessToken()`: on success state and storage hold the new token
      and it is returned; on failure `logout()` runs and null is returned. */
  function RefreshAccessToken(s: Session, reply: RefreshReply, backendOk: bool): (r: Refresh)
    ensures reply.Refreshed? ==>
              && r.returned == Some(reply.accessToken)
              && r.session.token == Some(reply.accessToken)
              && r.session.browser.token == Some(reply.accessToken)
              && r.session.browser.user == s.browser.user
              && r.session.browser.location == s.browser.location
              && r.logouts == 0
    ensures reply == RefreshFailed ==> r.returned == None && r.logouts == 1
    ensures reply == RefreshFailed ==> r.session == Logout(s, backendOk)
  {
    match reply
    case Refreshed(t) => Refresh(Some(t), Login(s, t), 0)
    case RefreshFailed => Refresh(None, Logout(s, backendOk), 1)
  }

  /** The second check of the interceptor spares only login and register. */
  predicate IsLoginOrRegister(url: Option<string>) {
    url.Some? && (Contains(url.value, LoginPath) || Contains(url.value, RegisterPath))
  }

  /** What the interceptor does with an error: replay the request or reject
      the original error. */
  datatype Verdict = ReplayWith(request: Request) | Reject

  /** `request` is the caller's config after the interceptor marked it. */
  datatype Handled = Handled(verdict: Verdict, request: Request, session: Session, refreshCalls: nat, logouts: nat)

  /** The interceptor's error handler, given the response status (None when
      there was no response), the reply to the refresh call and whether the
      backend logout call succeeds. */
  function OnError(s: Session, req: Request, status: Option<int>, refresh: RefreshReply, backendOk: bool): (h: Handled)
    // `_retry` is set by every unretried 401, auth endpoint or not
    ensures h.request.retry <==> req.retry || status == Some(401)
    ensures h.request.url == req.url
    // exactly one refresh for an unretried 401 off the three auth endpoints, none otherwise
    ensures h.refreshCalls == 1 <==> status == Some(401) && !req.retry && !IsAuthEndpoint(req.url)
    ensures h.refreshCalls <= 1
    // an unretried 401 on an auth endpoint is rejected with no side effect
    ensures status == Some(401) && !req.retry && IsAuthEndpoint(req.url) ==>
              h.verdict == Reject && h.session == s && h.logouts == 0
    // the replay carries the refreshed token, which state and storage now hold
    ensures h.verdict.ReplayWith? <==> h.refreshCalls == 1 && refresh.Refreshed? && refresh.accessToken != ""
    ensures h.verdict.ReplayWith? ==>
              && h.verdict.request.retry
              && AuthorizationHeader in h.verdict.request.headers
              && h.verdict.request.headers[AuthorizationHeader] == Bearer(refresh.accessToken)
              && h.verdict.request.url == req.url
              && (forall k :: k in req.headers && k != AuthorizationHeader ==>
                    k in h.verdict.request.headers && h.verdict.request.headers[k] == req.headers[k])
              && (forall k :: k in h.verdict.request.headers ==> k in req.headers || k == AuthorizationHeader)
              && h.session.token == Some(refresh.accessToken)
              && h.session.browser.token == Some(refresh.accessToken)
              && h.session.browser.user == s.browser.user
              && h.session.browser.location == s.browser.location
              && h.logouts == 0
    // any other 401 or 403 off login/register ends in logout
    ensures h.logouts > 0 <==>
              && (status == Some(401) || status == Some(403))
              && !IsLoginOrRegister(req.url)
              && !h.verdict.ReplayWith?
              && !(status == Some(401) && !req.retry && IsAuthEndpoint(req.url))
    ensures h.logouts > 0 ==> h.session == Logout(s, backendOk) && h.verdict == Reject
    ensures h.logouts <= 2
    ensures h.logouts == 0 && h.verdict == Reject ==> h.session == s
  {
    var early := status == Some(401) && !req.retry;
    var marked := if early then req.(retry := true) else req;
    if early && IsAuthEndpoint(req.url) then
      Handled(Reject, marked, s, 0, 0)
    else
      var r := if early then RefreshAccessToken(s, refresh, backendOk) else Refresh(None, s, 0);
      if early && Truthy(r.returned) then
        Handled(ReplayWith(Marked(req, r.returned.value)), marked, r.session, 1, 0)
      else
        var calls := if early then 1 else 0;
        if (status == Some(401) || status == Some(403)) && !IsLoginOrRegister(req.url) then
          Handled(Reject, marked, Logout(r.session, backendOk), calls, r.logouts + 1)
        else
          Handled(Reject, marked, r.session, calls, r.logouts)
  }

  /** A 403 never refreshes; off login and register it always logs out, and
      on them it is rejected with the session untouched. */
  lemma ForbiddenNeverRefreshes(s: Session, req: Request, refresh: RefreshReply, backendOk: bool)
    ensures var h := OnError(s, req, Some(403), refresh, backendOk);
            && h.refreshCalls == 0
            && h.verdict == Reject
            && (h.logouts == 1 <==> !IsLoginOrRegister(req.url))
            && (IsLoginOrRegister(req.url) ==> h.session == s && h.logouts == 0)
  {
  }

  /** When the refresh fails, `logout()` runs twice (inside the refresh and
      at the 401 check); the end state is that of a single logout. */
  lemma FailedRefreshLogsOutOnce(s: Session, req: Request, backendOk: bool)
    requires !req.retry && !IsAuthEndpoint(req.url)
    ensures var h := OnError(s, req, Some(401), RefreshFailed, backendOk);
            && h.refreshCalls == 1
            && h.logouts == 2
            && h.verdict == Reject
            && h.session == Logout(s, backendOk)
  {
    assert !IsLoginOrRegister(req.url);
  }

  /** `user`: the decoded claims of the current token; null without a token
      or when decoding fails. `decode` stands for `jwtDecode`. */
  function User<C>(token: Option<string>, decode: string -> Option<C>): (u: Option<C>)
    ensures !Truthy(token) ==> u == None
    ensures Truthy(token) ==> u == decode(token.value)
    ensures u.Some? ==> token.Some? && decode(token.value) == u
  {
    if Truthy(token) then decode(token.value) else None
  }

  /** Identity always follows the token: after login and after a successful
      refresh it is the new token's claims, after logout there is none. */
  lemma IdentityFollowsToken<C>(s: Session, t: string, backendOk: bool, decode: string -> Option<C>)
    requires t != ""
    ensures User(Login(s, t).token, decode) == decode(t)
    ensures User(RefreshAccessToken(s, Refreshed(t), backendOk).session.token, decode) == decode(t)
    ensures User(Logout(s, backendOk).token, decode) == None
  {
  }
}
