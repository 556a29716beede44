/**
 * The client session of `AuthProvider`: the React state {user, token, isLoading} and the
 * two cookies `token` and `user` that survive a page reload. The mount effect rehydrates
 * the state from the cookies, `login` writes both, `logout` removes both.
 */
module Session {
  import opened Wrappers
  import opened ClientApi

  const TokenCookie: string := "token"
  const UserCookie: string := "user"
  const CookieDays: nat := 7

  /** A cookie's value and its lifetime in days. */
  datatype Cookie = Cookie(value: string, expiresInDays: nat)

  /** `JSON.parse` of the user cookie: it throws, yields `null`, or yields a user object. */
  datatype Parsed = Malformed | Parsed(value: Option<ClientUser>)

  /** `JSON.parse` and `JSON.stringify` on user objects. */
  datatype Json = Json(parse: string -> Parsed, stringify: ClientUser -> string)

  datatype SessionState = SessionState(user: Option<ClientUser>, token: Option<string>, isLoading: bool,
                                       cookies: map<string, Cookie>)

  /** `Cookies.get(name)`: the value, or `undefined`. */
  function Get(jar: map<string, Cookie>, name: string): Option<string> {
    if name in jar then Some(jar[name].value) else None
  }

  /** A cookie counts for rehydration only when it is present and truthy (not the empty string). */
  predicate Stored(jar: map<string, Cookie>, name: string) {
    name in jar && jar[name].value != ""
  }

  /** The three `useState` initial values, with whatever cookies the browser holds. */
  function Initial(jar: map<string, Cookie>): SessionState {
    SessionState(None, None, true, jar)
  }

  /**
   * The mount effect. With both cookies stored, the token state is set first and then the
   * user cookie is parsed; a parse that throws removes both cookies but leaves the token
   * state already set. In every case loading ends.
   */
  function AfterMount(s: SessionState, json: Json): SessionState {
    if Stored(s.cookies, TokenCookie) && Stored(s.cookies, UserCookie) then
      var withToken := s.(token := Some(s.cookies[TokenCookie].value), isLoading := false);
      match json.parse(s.cookies[UserCookie].value)
      case Malformed => withToken.(cookies := s.cookies - {TokenCookie} - {UserCookie})
      case Parsed(u) => withToken.(user := u)
    else s.(isLoading := false)
  }

  /** `login` after the server accepted: both cookies for seven days, then both state values. */
  function AfterLogin(s: SessionState, data: LoginData, json: Json): SessionState {
    s.(cookies := s.cookies[TokenCookie := Cookie(data.token, CookieDays)]
                           [UserCookie := Cookie(json.stringify(data.user), CookieDays)],
       token := Some(data.token), user := Some(data.user))
  }

  /** `logout`: both cookies removed, both state values null. */
  function AfterLogout(s: SessionState): SessionState {
    s.(cookies := s.cookies - {TokenCookie} - {UserCookie}, token := None, user := None)
  }

  /** `useAuth`: the context, or the error it throws outside a provider. */
  const MsgOutsideProvider: string := "useAuth must be used within an AuthProvider"

  function UseAuth<T>(context: Option<T>): (r: Result<T, string>)
    ensures r.Success? <==> context.Some?
    ensures r.Success? ==> r.value == context.value
    ensures r.Failure? ==> r.error == "useAuth must be used within an AuthProvider"
  {
    match context
    case None => Failure(MsgOutsideProvider)
    case Some(c) => Success(c)
  }

  // ---------------------------------------------------------------------------
  // Properties of the transitions.

  /** Whatever the cookies hold, loading is over after the mount effect. */
  lemma MountEndsLoading(s: SessionState, json: Json)
    ensures !AfterMount(s, json).isLoading
  {
  }

  /**
   * From the initial state, a token is adopted exactly when both cookies are stored, and a
   * user only when, in addition, the user cookie parses to one; without both cookies
   * nothing but `isLoading` changes.
   */
  lemma MountFromInitial(jar: map<string, Cookie>, json: Json)
    ensures var m := AfterMount(Initial(jar), json);
      && (m.token.Some? <==> Stored(jar, TokenCookie) && Stored(jar, UserCookie))
      && (m.token.Some? ==> m.token.value == jar[TokenCookie].value)
      && (m.user.Some? ==> Stored(jar, TokenCookie) && Stored(jar, UserCookie)
                           && json.parse(jar[UserCookie].value) == Parsed(m.user))
      && (!(Stored(jar, TokenCookie) && Stored(jar, UserCookie)) ==>
            m == SessionState(None, None, false, jar))
  {
  }

  /**
   * A user cookie that does not parse: both cookies are removed and the user stays null,
   * while the token state keeps the stored token; other cookies are untouched.
   */
  lemma CorruptUserCookie(jar: map<string, Cookie>, json: Json)
    requires Stored(jar, TokenCookie) && Stored(jar, UserCookie)
    requires json.parse(jar[UserCookie].value) == Malformed
    ensures var m := AfterMount(Initial(jar), json);
      && m.token == Some(jar[TokenCookie].value)
      && m.user == None
      && TokenCookie !in m.cookies && UserCookie !in m.cookies
      && (forall name :: name in jar && name != TokenCookie && name != UserCookie ==>
            name in m.cookies && m.cookies[name] == jar[name])
      && AfterMount(Initial(m.cookies), json) == SessionState(None, None, false, m.cookies)
  {
  }

  /**
   * `login` stores the server's token and user, writes both cookies for seven days, and
   * changes no other cookie and not `isLoading`.
   */
  lemma LoginSpec(s: SessionState, data: LoginData, json: Json)
    ensures var l := AfterLogin(s, data, json);
      && l.token == Some(data.token) && l.user == Some(data.user) && l.isLoading == s.isLoading
      && l.cookies[TokenCookie] == Cookie(data.token, 7)
      && l.cookies[UserCookie] == Cookie(json.stringify(data.user), 7)
      && l.cookies.Keys == s.cookies.Keys + {"token", "user"}
      && forall name :: name in s.cookies && name != TokenCookie && name != UserCookie ==>
           l.cookies[name] == s.cookies[name]
  {
  }

  /**
   * A reload after `login` brings the same session back, provided the user survives a
   * round trip through JSON and neither cookie is empty.
   */
  lemma LoginThenReload(s: SessionState, data: LoginData, json: Json)
    requires json.parse(json.stringify(data.user)) == Parsed(Some(data.user))
    requires data.token != "" && json.stringify(data.user) != ""
    ensures var l := AfterLogin(s, data, json);
      AfterMount(Initial(l.cookies), json) == SessionState(Some(data.user), Some(data.token), false, l.cookies)
  {
    var l := AfterLogin(s, data, json);
    assert Stored(l.cookies, TokenCookie) && Stored(l.cookies, UserCookie);
  }

  /**
   * `logout` nulls both state values and removes exactly the two cookies; doing it twice is
   * doing it once, and a reload after it is anonymous.
   */
  lemma LogoutSpec(s: SessionState, json: Json)
    ensures var o := AfterLogout(s);
      && o.token.None? && o.user.None? && o.isLoading == s.isLoading
      && o.cookies.Keys == s.cookies.Keys - {"token", "user"}
      && (forall name :: name in o.cookies ==> o.cookies[name] == s.cookies[name])
      && AfterLogout(o) == o
      && AfterMount(Initial(o.cookies), json) == SessionState(None, None, false, o.cookies)
  {
  }

  /** `logout` after `login` leaves what `logout` alone would have left: no trace of the login. */
  lemma LogoutUndoesLogin(s: SessionState, data: LoginData, json: Json)
    ensures AfterLogout(AfterLogin(s, data, json)) == AfterLogout(s)
  {
    var a := AfterLogout(AfterLogin(s, data, json)).cookies;
    var b := AfterLogout(s).cookies;
    assert a.Keys == b.Keys;
    assert forall name :: name in a ==> a[name] == b[name];
  }

  /** The provider as a stateful object: three state hooks and the browser's cookies. */
  class AuthProvider {
    var user: Option<ClientUser>
    var token: Option<string>
    var isLoading: bool
    var cookies: map<string, Cookie>

    function State(): SessionState
      reads this
    {
      SessionState(user, token, isLoading, cookies)
    }

    constructor (jar: map<string, Cookie>)
      ensures State() == Initial(jar)
    {
      user := None;
      token := None;
      isLoading := true;
      cookies := jar;
    }

    /** The mount effect. */
    method Mount(json: Json)
      modifies this
      ensures State() == AfterMount(old(State()), json)
    {
      var storedToken := Get(cookies, TokenCookie);
      var storedUser := Get(cookies, UserCookie);
      if storedToken.Some? && storedToken.value != "" && storedUser.Some? && storedUser.value != "" {
        token := storedToken;
        var parsed := json.parse(storedUser.value);
        match parsed {
          case Malformed =>
            cookies := cookies - {TokenCookie};
            cookies := cookies - {UserCookie};
          case Parsed(u) =>
            user := u;
        }
      }
      isLoading := false;
    }

    /** `login(email, password)`: the request, then the updates; a rejection propagates unchanged. */
    method Login(api: (string, string) -> ApiResult<LoginData>, json: Json, email: string, password: string)
      returns (failure: Option<ClientError>)
      modifies this
      ensures api(email, password).Done? ==>
        failure.None? && State() == AfterLogin(old(State()), api(email, password).value, json)
      ensures api(email, password).Failed? ==>
        failure == Some(api(email, password).err) && State() == old(State())
    {
      var res := api(email, password);
      if res.Failed? {
        return Some(res.err);
      }
      var newToken := res.value.token;
      var newUser := res.value.user;
      cookies := cookies[TokenCookie := Cookie(newToken, CookieDays)];
      cookies := cookies[UserCookie := Cookie(json.stringify(newUser), CookieDays)];
      token := Some(newToken);
      user := Some(newUser);
      failure := None;
    }

    /** `register(fullName, email, password)`: only the request; the session is not touched. */
    method Register(api: (string, string, string) -> Option<ClientError>, fullName: string, email: string,
                    password: string)
      returns (failure: Option<ClientError>)
      ensures failure == api(fullName, email, password)
    {
      failure := api(fullName, email, password);
    }

    /** `logout()`. */
    method Logout()
      modifies this
      ensures State() == AfterLogout(old(State()))
    {
      cookies := cookies - {TokenCookie};
      cookies := cookies - {UserCookie};
      token := None;
      user := None;
    }
  }
}
