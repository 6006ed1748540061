/**
 * `SessionManager` (src/modules/session_manager.py): one lazily created HTTP
 * session shared by every request of the bot. On first use it probes the
 * stored cookies against the home page and logs in again when they are
 * stale; every request goes out with the default headers merged with the
 * caller's, then the cookies are saved and a pacing wait runs.
 *
 * The network is the `server` of a `World`: a function from everything the
 * session has done so far (its event log, which also stands for the cookie
 * jar) and the request to the response. The random user agent, the clock and
 * the environment are in the `World` too.
 */
module Sessions {
  import opened Results
  import opened Pages

  const BaseUrl: string := "http://tycoon.airlines-manager.com"
  const HomeUrl: string := BaseUrl + "/home"
  const LoginUrl: string := BaseUrl + "/login"
  const LoginCheckUrl: string := BaseUrl + "/login_check"

  /** `SessionManager.Methods`: the names of the session's verb functions. */
  const Get: string := "get"
  const Post: string := "post"
  const Patch: string := "patch"
  const Delete: string := "delete"
  const Options: string := "options"

  /** The HTTP verb functions a `requests.Session` has, the names `hasattr(session, method)` finds. */
  predicate IsSessionMethod(verb: string) {
    verb in {"get", "options", "head", "post", "put", "patch", "delete"}
  }

  type Headers = map<string, string>

  /** A request as it goes on the wire. */
  datatype HttpRequest = HttpRequest(
    verb: string, url: string, headers: Headers, payload: Option<map<string, string>>, allowRedirects: bool)

  /** What the session does, in order: read the cookie file, send a request, save the cookies, wait. */
  datatype Event =
    | CookiesLoaded
    | Sent(request: HttpRequest, response: Response)
    | CookiesSaved
    | Waited

  /** The arguments of one `request(...)` call. */
  datatype Call = Call(
    verb: string, url: string, extraHeaders: Option<Headers>, payload: Option<map<string, string>>, allowRedirects: bool)

  /** One `request(...)` call and what it returned or raised. */
  datatype Exchange = Exchange(call: Call, outcome: Result<Response>)

  /**
   * Everything outside the program: the game server, the clock (seconds, as
   * `datetime.now()` reads it after the given events), the user agent
   * `get_random_user_agent` picks, `get_base_headers` of modules.user_agent
   * (that module is not part of this model) and the environment variables.
   */
  datatype World = World(
    server: (seq<Event>, HttpRequest) -> Response,
    clock: seq<Event> -> int,
    agentChoice: string,
    baseHeaders: Headers -> Headers,
    env: map<string, string>)

  /**
   * The session manager's state: whether the session exists, the cached user
   * agent, every event of the session, and every `request` call with its outcome.
   */
  datatype SessionState = SessionState(
    hasSession: bool, userAgent: Option<string>, log: seq<Event>, exchanges: seq<Exchange>)

  /** A fresh manager: no session, no user agent, nothing done. */
  function Initial(): (s: SessionState)
    ensures !s.hasSession && s.userAgent.None? && s.log == [] && s.exchanges == []
  {
    SessionState(false, None, [], [])
  }

  // ------------------------------------------------------------ user agent

  /**
   * `get_user_agent` as written: the cached agent when there is one;
   * otherwise it caches a fresh choice but falls off the end of the function
   * and returns None. The result is (returned value, new cache).
   */
  function UserAgentAsWritten(cached: Option<string>, choice: string): (r: (Option<string>, Option<string>))
    ensures r.1.Some?
    ensures cached.Some? ==> r == (cached, cached)
  {
    if cached.Some? then (cached, cached) else (None, Some(choice))
  }

  /** The first call of the as-written `get_user_agent` returns None, not the agent it has just chosen. */
  lemma UserAgentAsWrittenLosesFirstChoice(choice: string)
    ensures UserAgentAsWritten(None, choice) == (None, Some(choice))
    ensures UserAgent(None, choice).0 == choice
  {
  }

  /** `get_user_agent` with its missing `return`: the cached agent, chosen once. */
  function UserAgent(cached: Option<string>, choice: string): (r: (string, Option<string>))
    ensures r.1 == Some(r.0)
    ensures cached.Some? ==> r.0 == cached.value
    ensures cached.None? ==> r.0 == choice
  {
    if cached.Some? then (cached.value, cached) else (choice, Some(choice))
  }

  /** Once chosen, the agent never changes, whatever a later random pick would be. */
  lemma UserAgentIsStable(cached: Option<string>, choice: string, later: string)
    ensures var (agent, cache) := UserAgent(cached, choice); UserAgent(cache, later) == (agent, cache)
  {
  }

  // ---------------------------------------------------------------- headers

  const AcceptHeader: string :=
    "text/html,application/xhtml+xml,application/xml;q=0.9,image/avif,image/webp,image/apng,*/*;q=0.8,application/signed-exchange;v=b3;q=0.9"

  /** The default headers of `get_headers`. */
  function DefaultHeaders(agent: string): (h: Headers)
    ensures h.Keys == {"Accept", "Accept-Encoding", "Accept-Language", "Cache-Control", "User-Agent"}
    ensures h["User-Agent"] == agent
  {
    map["Accept" := AcceptHeader, "Accept-Encoding" := "gzip, deflate", "Accept-Language" := "en-US,en;q=0.9",
        "Cache-Control" := "max-age=0", "User-Agent" := agent]
  }

  /** `dict(default_headers, **extra_headers)`, or the defaults alone when there are no extras. */
  function MergeHeaders(defaults: Headers, extra: Option<Headers>): (h: Headers)
    ensures extra.None? ==> h == defaults
    ensures extra.Some? ==> h.Keys == defaults.Keys + extra.value.Keys
    ensures extra.Some? ==> forall k :: k in extra.value ==> h[k] == extra.value[k]
    ensures extra.Some? ==> forall k :: k in defaults && k !in extra.value ==> h[k] == defaults[k]
  {
    if extra.None? then defaults else defaults + extra.value
  }

  /** `get_headers(extra)`: the merged headers, and the state with the user agent cached. */
  function HeadersFor(w: World, s: SessionState, extra: Option<Headers>): (r: (SessionState, Headers))
    ensures r.0 == s.(userAgent := r.0.userAgent) && r.0.userAgent.Some?
    ensures "User-Agent" in r.1
    ensures r.1["User-Agent"] == (if extra.Some? && "User-Agent" in extra.value then extra.value["User-Agent"] else r.0.userAgent.value)
  {
    var (agent, cache) := UserAgent(s.userAgent, w.agentChoice);
    (s.(userAgent := cache), MergeHeaders(DefaultHeaders(agent), extra))
  }

  // ---------------------------------------------------------------- sending

  /** One request through the session's verb function: the server answers, the exchange is logged. */
  function Send(w: World, s: SessionState, req: HttpRequest): (r: (SessionState, Response))
    ensures r.0 == s.(log := s.log + [Sent(req, r.1)])
    ensures r.1 == w.server(s.log, req)
  {
    var resp := w.server(s.log, req);
    (s.(log := s.log + [Sent(req, resp)]), resp)
  }

  /**
   * `check_cookies_file_sanity`: load the cookie file, then GET the home page
   * without following redirects; the cookies are good iff it answers 200.
   */
  function CheckCookies(w: World, s: SessionState): (r: (SessionState, bool))
    ensures r.0.hasSession == s.hasSession && r.0.exchanges == s.exchanges
    ensures |r.0.log| == |s.log| + 2 && r.0.log[..|s.log|] == s.log && r.0.log[|s.log|] == CookiesLoaded
    ensures var e := r.0.log[|s.log| + 1];
            e.Sent? && e.request.verb == Get && e.request.url == HomeUrl && !e.request.allowRedirects
            && (r.1 <==> e.response.status == 200)
  {
    var loaded := s.(log := s.log + [CookiesLoaded]);
    var (s1, headers) := HeadersFor(w, loaded, None);
    var (s2, resp) := Send(w, s1, HttpRequest(Get, HomeUrl, headers, None, false));
    (s2, resp.status == 200)
  }

  /** The CSRF token of the login form, when the page has one. */
  function CsrfToken(p: Page): Option<string> {
    if p.LoginForm? then p.csrfToken else None
  }

  /** The login form's fields. */
  function LoginPayload(email: string, password: string, token: string): (m: map<string, string>)
    ensures m.Keys == {"_remember_me", "_username", "_password", "_csrf_token"}
    ensures m["_remember_me"] == "off" && m["_username"] == email && m["_password"] == password && m["_csrf_token"] == token
  {
    map["_remember_me" := "off", "_username" := email, "_password" := password, "_csrf_token" := token]
  }

  /**
   * `refresh_login_cookies`: GET the login page for its CSRF token, then POST
   * the credentials. Without a token it is a ReferenceError and nothing is posted.
   */
  function RefreshLogin(w: World, s: SessionState, email: string, password: string): (r: (SessionState, Option<Error>))
    ensures r.0.hasSession == s.hasSession && r.0.exchanges == s.exchanges
    ensures |r.0.log| > |s.log| && r.0.log[..|s.log|] == s.log
    ensures var e := r.0.log[|s.log|]; e.Sent? && e.request.verb == Get && e.request.url == LoginUrl
    ensures var token := CsrfToken(r.0.log[|s.log|].response.page);
            (token.None? ==> r.1 == Some(ReferenceError) && |r.0.log| == |s.log| + 1)
            && (token.Some? ==>
                  r.1.None? && |r.0.log| == |s.log| + 2
                  && var e := r.0.log[|s.log| + 1];
                  e.Sent? && e.request.verb == Post && e.request.url == LoginCheckUrl
                  && e.request.payload == Some(LoginPayload(email, password, token.value)))
  {
    var (s1, headers) := HeadersFor(w, s, None);
    var (s2, page) := Send(w, s1, HttpRequest(Get, LoginUrl, headers, None, true));
    match CsrfToken(page.page)
    case None => (s2, Some(ReferenceError))
    case Some(token) =>
      var (s3, _) := Send(w, s2, HttpRequest(Post, LoginCheckUrl, map[], Some(LoginPayload(email, password, token)), true));
      (s3, None)
  }

  /** The credentials `get_session` reads from the environment; a missing one is a KeyError. */
  function Credentials(env: map<string, string>): (r: Result<(string, string)>)
    ensures r.Ok? <==> "AM_USER_EMAIL" in env && "AM_USER_PASSWORD" in env
    ensures r.Ok? ==> r.value == (env["AM_USER_EMAIL"], env["AM_USER_PASSWORD"])
    ensures r.Err? ==> r.error == KeyError
  {
    if "AM_USER_EMAIL" !in env then Err(KeyError)
    else if "AM_USER_PASSWORD" !in env then Err(KeyError)
    else Ok((env["AM_USER_EMAIL"], env["AM_USER_PASSWORD"]))
  }

  /**
   * `get_session`: the existing session, or a new one whose cookies are
   * probed and, when stale, refreshed by logging in. The session is kept even
   * when logging in fails.
   */
  function OpenSession(w: World, s: SessionState): (r: (SessionState, Option<Error>))
    ensures r.0.hasSession && r.0.exchanges == s.exchanges
    ensures |r.0.log| >= |s.log| && r.0.log[..|s.log|] == s.log
  {
    if s.hasSession then (s, None)
    else
      var (s1, ok) := CheckCookies(w, s.(hasSession := true));
      if ok then (s1, None)
      else match Credentials(w.env)
        case Err(e) => (s1, Some(e))
        case Ok((email, password)) => RefreshLogin(w, s1, email, password)
  }

  /** Once the session exists, `get_session` returns it without probing or logging in. */
  lemma OpenSessionReuses(w: World, s: SessionState)
    requires s.hasSession
    ensures OpenSession(w, s) == (s, None)
  {
  }

  /**
   * On first use the cookies are probed; the login page is requested exactly
   * when the probe fails and the credentials are set.
   */
  lemma OpenSessionLogsInIffProbeFails(w: World, s: SessionState)
    requires !s.hasSession
    ensures var (probed, ok) := CheckCookies(w, s.(hasSession := true));
            var (s', err) := OpenSession(w, s);
            s'.log[..|probed.log|] == probed.log
            && (ok ==> s' == probed && err.None?)
            && (!ok && Credentials(w.env).Err? ==> s' == probed && err == Some(KeyError))
            && (!ok && Credentials(w.env).Ok? ==>
                  |s'.log| > |probed.log| && s'.log[|probed.log|].Sent? && s'.log[|probed.log|].request.url == LoginUrl)
  {
  }

  /**
   * `request(...)`: get the session, reject a method the session does not
   * have, send with the merged headers, then save the cookies and wait. The
   * call and its outcome are appended to the exchanges whatever happens.
   */
  function DoRequest(w: World, s: SessionState, c: Call): (r: (SessionState, Result<Response>))
    ensures r.0.exchanges == s.exchanges + [Exchange(c, r.1)]
    ensures r.0.hasSession
    ensures var started := OpenSession(w, s).0;
            |r.0.log| >= |started.log| && r.0.log[..|started.log|] == started.log
            && (r.1.Err? ==> r.0.log == started.log)
            && (OpenSession(w, s).1.Some? ==> r.1 == Err(OpenSession(w, s).1.value))
            && (OpenSession(w, s).1.None? && !IsSessionMethod(c.verb) ==> r.1 == Err(ValueError))
            && (OpenSession(w, s).1.None? && IsSessionMethod(c.verb) ==>
                  r.1.Ok? && |r.0.log| > |started.log| && r.0.log[|started.log|].Sent?
                  && r.0.log[|started.log|].request.headers == HeadersFor(w, started, c.extraHeaders).1)
            && (r.1.Ok? ==>
                  |r.0.log| == |started.log| + 3
                  && var e := r.0.log[|started.log|];
                  e.Sent? && e.request.verb == c.verb && e.request.url == c.url && e.request.payload == c.payload
                  && e.request.allowRedirects == c.allowRedirects && e.response == r.1.value
                  && e.response == w.server(started.log, e.request)
                  && r.0.log[|started.log| + 1..] == [CookiesSaved, Waited])
  {
    var (s1, err) := OpenSession(w, s);
    if err.Some? then (s1.(exchanges := s1.exchanges + [Exchange(c, Err(err.value))]), Err(err.value))
    else if !IsSessionMethod(c.verb) then (s1.(exchanges := s1.exchanges + [Exchange(c, Err(ValueError))]), Err(ValueError))
    else
      var (s2, headers) := HeadersFor(w, s1, c.extraHeaders);
      var (s3, resp) := Send(w, s2, HttpRequest(c.verb, c.url, headers, c.payload, c.allowRedirects));
      (s3.(log := s3.log + [CookiesSaved, Waited], exchanges := s3.exchanges + [Exchange(c, Ok(resp))]), Ok(resp))
  }

  /** `after` is a later state of the same manager: every earlier call is still there, in order. */
  predicate Extends(before: SessionState, after: SessionState) {
    |before.exchanges| <= |after.exchanges| && after.exchanges[..|before.exchanges|] == before.exchanges
  }

  /** The calls of a stretch of exchanges, in order. */
  function Calls(xs: seq<Exchange>): (cs: seq<Call>)
    ensures |cs| == |xs|
  {
    if xs == [] then [] else Calls(xs[..|xs| - 1]) + [xs[|xs| - 1].call]
  }

  /** The calls of two stretches are those of the first followed by those of the second. */
  lemma {:induction false} CallsAppend(xs: seq<Exchange>, ys: seq<Exchange>)
    ensures Calls(xs + ys) == Calls(xs) + Calls(ys)
  {
    if ys != [] {
      assert (xs + ys)[..|xs + ys| - 1] == xs + ys[..|ys| - 1];
      CallsAppend(xs, ys[..|ys| - 1]);
    } else {
      assert xs + ys == xs;
    }
  }

  /** Each call of a stretch is the call of the exchange at the same place. */
  lemma {:induction false} CallsAt(xs: seq<Exchange>, i: nat)
    requires i < |xs|
    ensures Calls(xs)[i] == xs[i].call
  {
    if i < |xs| - 1 {
      CallsAt(xs[..|xs| - 1], i);
      assert xs[..|xs| - 1][i] == xs[i];
    }
  }

  /** The calls made between two states of the manager, in order. */
  function CallsSince(before: SessionState, after: SessionState): (cs: seq<Call>)
    requires |before.exchanges| <= |after.exchanges|
    ensures |cs| == |after.exchanges| - |before.exchanges|
  {
    Calls(after.exchanges[|before.exchanges|..])
  }

  /** Calls made over two stretches are those of the first followed by those of the second. */
  lemma CallsSinceChain(a: SessionState, b: SessionState, c: SessionState)
    requires Extends(a, b) && Extends(b, c)
    ensures Extends(a, c)
    ensures CallsSince(a, c) == CallsSince(a, b) + CallsSince(b, c)
  {
    assert c.exchanges[..|a.exchanges|] == b.exchanges[..|a.exchanges|];
    assert c.exchanges[|a.exchanges|..] == b.exchanges[|a.exchanges|..] + c.exchanges[|b.exchanges|..];
    CallsAppend(b.exchanges[|a.exchanges|..], c.exchanges[|b.exchanges|..]);
  }

  /**
   * What the other modules use of the session manager: its `request`, as a
   * function from the manager's state and the call to the new state and the
   * outcome.
   */
  type Requester = (SessionState, Call) -> (SessionState, Result<Response>)

  /** The manager's own `request`. */
  function RequesterOf(w: World): Requester {
    (s, c) => DoRequest(w, s, c)
  }

  /** A `request` that records every call with its outcome, after the calls made before it. */
  ghost predicate Records(req: Requester) {
    forall s: SessionState, c: Call :: req(s, c).0.exchanges == s.exchanges + [Exchange(c, req(s, c).1)]
  }

  /** The manager's `request` records its calls. */
  lemma DoRequestRecords(w: World)
    ensures Records(RequesterOf(w))
  {
    forall s: SessionState, c: Call ensures RequesterOf(w)(s, c).0.exchanges == s.exchanges + [Exchange(c, RequesterOf(w)(s, c).1)] {
      assert RequesterOf(w)(s, c) == DoRequest(w, s, c);
    }
  }

  /** A recorded request extends the state by exactly its own call. */
  lemma RequestExtends(req: Requester, s: SessionState, c: Call)
    requires Records(req)
    ensures Extends(s, req(s, c).0)
    ensures CallsSince(s, req(s, c).0) == [c]
  {
    var s' := req(s, c).0;
    assert s'.exchanges[..|s.exchanges|] == s.exchanges;
    assert s'.exchanges[|s.exchanges|..] == [Exchange(c, req(s, c).1)];
  }

  /** The session manager object: its state changes with every call. */
  class SessionManager {
    const world: World
    var hasSession: bool
    var userAgent: Option<string>
    var log: seq<Event>
    var exchanges: seq<Exchange>

    /** The whole state as one value. */
    function State(): SessionState
      reads this
    {
      SessionState(hasSession, userAgent, log, exchanges)
    }

    /** A manager with neither session nor user agent. */
    constructor (world: World)
      ensures this.world == world && State() == Initial()
    {
      this.world := world;
      hasSession, userAgent, log, exchanges := false, None, [], [];
    }

    /** `get_user_agent`. */
    method GetUserAgent() returns (agent: string)
      modifies this
      ensures (agent, userAgent) == UserAgent(old(userAgent), world.agentChoice)
      ensures State() == old(State()).(userAgent := userAgent)
    {
      if userAgent.Some? {
        return userAgent.value;
      }
      agent := world.agentChoice;
      userAgent := Some(agent);
    }

    /** `get_headers(extra)`. */
    method GetHeaders(extra: Option<Headers>) returns (headers: Headers)
      modifies this
      ensures (State(), headers) == HeadersFor(world, old(State()), extra)
    {
      var agent := GetUserAgent();
      headers := MergeHeaders(DefaultHeaders(agent), extra);
    }

    /** A call of one of the session's verb functions. */
    method SendRequest(req: HttpRequest) returns (resp: Response)
      modifies this
      ensures (State(), resp) == Send(world, old(State()), req)
    {
      resp := world.server(log, req);
      log := log + [Sent(req, resp)];
    }

    /** `check_cookies_file_sanity`. */
    method CheckCookiesFileSanity() returns (ok: bool)
      modifies this
      ensures (State(), ok) == CheckCookies(world, old(State()))
    {
      log := log + [CookiesLoaded];
      var headers := GetHeaders(None);
      var home := SendRequest(HttpRequest(Get, HomeUrl, headers, None, false));
      ok := home.status == 200;
    }

    /** `refresh_login_cookies(email, password)`. */
    method RefreshLoginCookies(email: string, password: string) returns (err: Option<Error>)
      modifies this
      ensures (State(), err) == RefreshLogin(world, old(State()), email, password)
    {
      var headers := GetHeaders(None);
      var page := SendRequest(HttpRequest(Get, LoginUrl, headers, None, true));
      var token := CsrfToken(page.page);
      if token.None? {
        return Some(ReferenceError);
      }
      var _ := SendRequest(HttpRequest(Post, LoginCheckUrl, map[], Some(LoginPayload(email, password, token.value)), true));
      return None;
    }

    /** `get_session`. */
    method GetSession() returns (err: Option<Error>)
      modifies this
      ensures (State(), err) == OpenSession(world, old(State()))
    {
      if hasSession {
        return None;
      }
      hasSession := true;
      var ok := CheckCookiesFileSanity();
      if ok {
        return None;
      }
      var credentials := Credentials(world.env);
      if credentials.Err? {
        return Some(credentials.error);
      }
      err := RefreshLoginCookies(credentials.value.0, credentials.value.1);
    }

    /** `request(url, method, extra_headers, payload, allow_redirects)`. */
    method Request(c: Call) returns (outcome: Result<Response>)
      modifies this
      ensures (State(), outcome) == DoRequest(world, old(State()), c)
    {
      var err := GetSession();
      if err.Some? {
        outcome := Err(err.value);
      } else if !IsSessionMethod(c.verb) {
        outcome := Err(ValueError);
      } else {
        var headers := GetHeaders(c.extraHeaders);
        var resp := SendRequest(HttpRequest(c.verb, c.url, headers, c.payload, c.allowRedirects));
        log := log + [CookiesSaved, Waited];
        outcome := Ok(resp);
      }
      exchanges := exchanges + [Exchange(c, outcome)];
    }
  }
}
