/**
 * The session store of the OAuth routes: the module-level `sessions`
 * dictionary from session id to user, read through the `session_id` cookie,
 * filled by the callback and emptied by logout. Request cookies and query
 * parameters are maps and options; the `uuid4` values are parameters, the
 * session id one assumed fresh.
 */
module Auth {
  import opened Wrappers
  import opened Strings

  /** The user record the callback stores; the three ids are `user_` plus eight hex digits of a fresh uuid. */
  datatype User = User(id: string, username: string, email: string, isAuthenticated: bool)

  datatype HttpError = HttpError(status: nat, detail: string)

  /** A redirect and the cookies it sets and deletes. */
  datatype Redirect = Redirect(url: string, setCookies: map<string, string>, deleteCookies: set<string>)

  type Cookies = map<string, string>

  const SessionCookie := "session_id"
  const StateCookie := "auth_state"

  /** Python truthiness of an optional string: present and not empty. */
  predicate Truthy(s: Option<string>) {
    s.Some? && s.value != []
  }

  /** `cookies.get(name)`. */
  function Cookie(cookies: Cookies, name: string): Option<string> {
    if name in cookies then Some(cookies[name]) else None
  }

  /** `get_current_user` over a given store: the session of a non-empty known cookie, else none. */
  function UserIn(sessions: map<string, User>, cookies: Cookies): (u: Option<User>)
    ensures u.Some? <==> SessionCookie in cookies && cookies[SessionCookie] != [] && cookies[SessionCookie] in sessions
    ensures u.Some? ==> u.value == sessions[cookies[SessionCookie]]
  {
    var sessionId := Cookie(cookies, SessionCookie);
    if !Truthy(sessionId) || sessionId.value !in sessions then None
    else Some(sessions[sessionId.value])
  }

  /** The store after `logout`: the cookie's session is gone when it was there. */
  function LoggedOut(sessions: map<string, User>, cookies: Cookies): map<string, User> {
    var sessionId := Cookie(cookies, SessionCookie);
    if Truthy(sessionId) && sessionId.value in sessions then sessions - {sessionId.value} else sessions
  }

  /** After logout the same cookie finds no user, and every other session is kept. */
  lemma LogoutForgetsUser(sessions: map<string, User>, cookies: Cookies)
    ensures UserIn(LoggedOut(sessions, cookies), cookies).None?
    ensures forall id | id in sessions && (SessionCookie !in cookies || id != cookies[SessionCookie]) ::
      id in LoggedOut(sessions, cookies) && LoggedOut(sessions, cookies)[id] == sessions[id]
  {
  }

  /** Logging out twice with one cookie is logging out once. */
  lemma LogoutIdempotent(sessions: map<string, User>, cookies: Cookies)
    ensures LoggedOut(LoggedOut(sessions, cookies), cookies) == LoggedOut(sessions, cookies)
  {
    var once := LoggedOut(sessions, cookies);
    var sessionId := Cookie(cookies, SessionCookie);
    if Truthy(sessionId) {
      assert sessionId.value !in once;
    }
  }

  /** The state check of the callback: both the query's state and the cookie's are set and equal. */
  predicate StateMatches(cookies: Cookies, state: Option<string>) {
    var cookieState := Cookie(cookies, StateCookie);
    Truthy(state) && Truthy(cookieState) && state.value == cookieState.value
  }

  class SessionStore {
    var sessions: map<string, User>

    constructor ()
      ensures sessions == map[]
    {
      sessions := map[];
    }

    /** `get_current_user`. */
    function CurrentUser(cookies: Cookies): Option<User>
      reads this
    {
      UserIn(sessions, cookies)
    }

    /**
     * `login`: a redirect to the issuer that carries a fresh `state`, which it
     * also sets as the `auth_state` cookie. The store is not touched.
     */
    method Login(state: string, issuer: string, clientId: string, callbackUrl: string) returns (r: Redirect)
      ensures r.setCookies == map[StateCookie := state]
      ensures r.deleteCookies == {}
      ensures StartsWith(r.url, issuer + "/auth?")
      ensures Contains(r.url, "&state=" + state + "&")
    {
      var head := issuer + "/auth?client_id=" + clientId + "&response_type=code";
      var param := "&state=" + state + "&";
      var tail := "scope=openid profile email offline_access&redirect_uri=" + callbackUrl + "&prompt=login consent";
      var url := head + param + tail;
      assert url[..|issuer + "/auth?"|] == issuer + "/auth?";
      ContainsAt(param, param, 0);
      ContainsInfix(head, param, tail, param);
      r := Redirect(url, map[StateCookie := state], {});
    }

    /**
     * `callback`: the state is checked first, then the presence of a code;
     * either failure is a 400 that leaves the store as it was. Otherwise
     * exactly one session is added under the fresh id, for an authenticated
     * user, and the redirect sets its cookie and deletes the state cookie.
     */
    method Callback(cookies: Cookies, code: Option<string>, state: Option<string>,
                    sessionId: string, hex1: string, hex2: string, hex3: string)
      returns (r: Result<Redirect, HttpError>)
      requires sessionId != [] && sessionId !in sessions
      modifies this
      ensures !StateMatches(cookies, state) ==> r == Err(HttpError(400, "Invalid state parameter"))
      ensures StateMatches(cookies, state) && !Truthy(code) ==> r == Err(HttpError(400, "No authorization code provided"))
      ensures r.Ok? <==> StateMatches(cookies, state) && Truthy(code)
      ensures r.Err? ==> sessions == old(sessions)
      ensures r.Ok? ==> sessions == old(sessions)[sessionId := User("user_" + hex1, "user_" + hex2, "user_" + hex3 + "@example.com", true)]
      ensures r.Ok? ==> r.value == Redirect("/", map[SessionCookie := sessionId], {StateCookie})
    {
      if !StateMatches(cookies, state) {
        return Err(HttpError(400, "Invalid state parameter"));
      }
      if !Truthy(code) {
        return Err(HttpError(400, "No authorization code provided"));
      }
      var user := User("user_" + hex1, "user_" + hex2, "user_" + hex3 + "@example.com", true);
      sessions := sessions[sessionId := user];
      r := Ok(Redirect("/", map[SessionCookie := sessionId], {StateCookie}));
    }

    /** `logout`: the cookie's session is removed when it exists, and the session cookie is deleted. */
    method Logout(cookies: Cookies) returns (r: Redirect)
      modifies this
      ensures sessions == LoggedOut(old(sessions), cookies)
      ensures r == Redirect("/", map[], {SessionCookie})
    {
      var sessionId := Cookie(cookies, SessionCookie);
      if Truthy(sessionId) && sessionId.value in sessions {
        sessions := sessions - {sessionId.value};
      }
      r := Redirect("/", map[], {SessionCookie});
    }

    /** `me`: the current user, or a 401 exactly when there is none. */
    method Me(cookies: Cookies) returns (r: Result<User, HttpError>)
      ensures r.Err? <==> CurrentUser(cookies).None?
      ensures r.Err? ==> r.error == HttpError(401, "Not authenticated")
      ensures r.Ok? ==> r.value == CurrentUser(cookies).value
    {
      var user := CurrentUser(cookies);
      if user.None? {
        return Err(HttpError(401, "Not authenticated"));
      }
      r := Ok(user.value);
    }
  }

  /** The session a callback adds is found by the cookie it sets, and it is authenticated. */
  lemma CallbackThenMe(sessions: map<string, User>, sessionId: string, user: User)
    requires sessionId != []
    ensures UserIn(sessions[sessionId := user], map[SessionCookie := sessionId]) == Some(user)
  {
  }

  /** A login followed by a logout leaves the store as it was before the login. */
  lemma CallbackThenLogout(sessions: map<string, User>, sessionId: string, user: User)
    requires sessionId != [] && sessionId !in sessions
    ensures LoggedOut(sessions[sessionId := user], map[SessionCookie := sessionId]) == sessions
  {
    assert sessions[sessionId := user] - {sessionId} == sessions;
  }
}
