/**
 * The authentication service (services/auth-service.ts): login, register and
 * logout through the API client, and what each leaves in local storage and
 * in the `auth_token` cookie.
 */
module AuthService {

  import opened Wrappers
  import opened Web
  import opened ApiClient
  import Strings

  /** The signed-in user as the client holds it. */
  datatype User = User(
    id: string,
    username: string,
    displayName: string,
    avatarUrl: Option<string>,
    reputation: Option<int>)

  datatype LoginCredentials = LoginCredentials(email: string, password: string)

  datatype RegisterData = RegisterData(username: string, email: string, password: string, password2: string)

  /** The body of a successful login or register response. */
  datatype AuthResponse = AuthResponse(token: string, user: User)

  /** The path every session cookie is set and removed with. */
  const CookiePath := "/"

  /**
   * `JSON.stringify(user)`, simplified: the fields in declaration order,
   * without escaping. Only its role as "the stored user" matters here.
   */
  function UserJson(u: User): (s: string)
    ensures |s| >= 2 && s[0] == '{' && s[|s| - 1] == '}'
  {
    "{\"id\":\"" + u.id + "\",\"username\":\"" + u.username
      + "\",\"displayName\":\"" + u.displayName + "\""
      + (if u.avatarUrl.Some? then ",\"avatar_url\":\"" + u.avatarUrl.value + "\"" else "")
      + (if u.reputation.Some? then ",\"reputation\":" + IntJson(u.reputation.value) else "")
      + "}"
  }

  function IntJson(n: int): (s: string)
    ensures s != ""
  {
    if n < 0 then "-" + Strings.NatToString(-n) else Strings.NatToString(n)
  }

  /** Local storage once a session is stored: the token and the serialised user. */
  function SessionStorage(storage: map<string, string>, resp: AuthResponse): (r: map<string, string>)
    ensures TokenKey in r && r[TokenKey] == resp.token
    ensures UserKey in r && r[UserKey] == UserJson(resp.user)
  {
    storage[TokenKey := resp.token][UserKey := UserJson(resp.user)]
  }

  /** The cookie jar once the token is mirrored into the `auth_token` cookie. */
  function SessionCookies(cookies: map<string, Cookie>, resp: AuthResponse): (r: map<string, Cookie>)
    ensures TokenCookie in r && r[TokenCookie] == Cookie(resp.token, CookiePath)
  {
    cookies[TokenCookie := Cookie(resp.token, CookiePath)]
  }

  /**
   * A stored session reads back: the token the client will send is the
   * response's token (when non-empty), the cookie holds it for path "/", the
   * stored user is the serialised user, and every other key is untouched.
   */
  lemma SessionReadsBack(storage: map<string, string>, cookies: map<string, Cookie>, resp: AuthResponse)
    ensures StoredToken(SessionStorage(storage, resp)) == if resp.token != "" then Some(resp.token) else None
    ensures SessionStorage(storage, resp)[UserKey] == UserJson(resp.user)
    ensures SessionCookies(cookies, resp)[TokenCookie] == Cookie(resp.token, CookiePath)
    ensures forall k :: k != TokenKey && k != UserKey ==>
      (k in SessionStorage(storage, resp) <==> k in storage) &&
      (k in storage ==> SessionStorage(storage, resp)[k] == storage[k])
  {
    assert TokenKey != UserKey;
  }

  /** Logging out after storing a session leaves no token behind, whatever was stored before. */
  lemma ClearedSessionHasNoToken(storage: map<string, string>, cookies: map<string, Cookie>, resp: AuthResponse)
    ensures StoredToken(ClearedStorage(SessionStorage(storage, resp))) == None
    ensures TokenCookie !in WithoutCookie(SessionCookies(cookies, resp), TokenCookie, CookiePath)
  {
  }

  /** Store a session after a successful login or register. */
  method StoreSession(browser: Browser, resp: AuthResponse)
    modifies browser
    ensures browser.storage == SessionStorage(old(browser.storage), resp)
    ensures browser.cookies == SessionCookies(old(browser.cookies), resp)
    ensures browser.href == old(browser.href)
  {
    browser.SetItem(TokenKey, resp.token);
    browser.SetItem(UserKey, UserJson(resp.user));
    browser.SetCookie(TokenCookie, resp.token, CookiePath);
  }

  /**
   * POST to an authentication endpoint and, only if it succeeds, store the
   * session. A rejected request throws before any write; the only change it
   * can cause is the API client's 401 handling.
   */
  method Authenticate(browser: Browser, endpoint: string, outcome: Result<AuthResponse, Error>) returns (r: Result<User, Error>)
    modifies browser
    ensures outcome.Ok? ==> r == Ok(outcome.value.user)
    ensures outcome.Ok? ==> browser.storage == SessionStorage(old(browser.storage), outcome.value)
    ensures outcome.Ok? ==> browser.cookies == SessionCookies(old(browser.cookies), outcome.value)
    ensures outcome.Ok? ==> browser.href == old(browser.href)
    ensures outcome.Err? ==> r == Err(outcome.error)
    ensures outcome.Err? ==> browser.storage == StorageAfterError(old(browser.storage), outcome.error)
    ensures outcome.Err? ==> browser.cookies == old(browser.cookies)
    ensures outcome.Err? ==> browser.href == HrefAfterError(old(browser.href), outcome.error)
  {
    var config := new RequestConfig("POST", endpoint);
    var response := Send(config, browser, outcome);
    if response.Err? {
      return Err(response.error);
    }
    StoreSession(browser, response.value);
    r := Ok(response.value.user);
  }

  /** `authService.login`. */
  method Login(browser: Browser, credentials: LoginCredentials, outcome: Result<AuthResponse, Error>) returns (r: Result<User, Error>)
    modifies browser
    ensures outcome.Ok? ==> r == Ok(outcome.value.user)
    ensures outcome.Ok? ==> browser.storage == SessionStorage(old(browser.storage), outcome.value)
    ensures outcome.Ok? ==> browser.cookies == SessionCookies(old(browser.cookies), outcome.value)
    ensures outcome.Ok? ==> browser.href == old(browser.href)
    ensures outcome.Err? ==> r == Err(outcome.error)
    ensures outcome.Err? ==> browser.storage == StorageAfterError(old(browser.storage), outcome.error)
    ensures outcome.Err? ==> browser.cookies == old(browser.cookies)
    ensures outcome.Err? ==> browser.href == HrefAfterError(old(browser.href), outcome.error)
  {
    r := Authenticate(browser, "/auth/login/", outcome);
  }

  /** `authService.register`: the same storage and cookie effects as `Login`. */
  method Register(browser: Browser, data: RegisterData, outcome: Result<AuthResponse, Error>) returns (r: Result<User, Error>)
    modifies browser
    ensures outcome.Ok? ==> r == Ok(outcome.value.user)
    ensures outcome.Ok? ==> browser.storage == SessionStorage(old(browser.storage), outcome.value)
    ensures outcome.Ok? ==> browser.cookies == SessionCookies(old(browser.cookies), outcome.value)
    ensures outcome.Ok? ==> browser.href == old(browser.href)
    ensures outcome.Err? ==> r == Err(outcome.error)
    ensures outcome.Err? ==> browser.storage == StorageAfterError(old(browser.storage), outcome.error)
    ensures outcome.Err? ==> browser.cookies == old(browser.cookies)
    ensures outcome.Err? ==> browser.href == HrefAfterError(old(browser.href), outcome.error)
  {
    r := Authenticate(browser, "/auth/register/", outcome);
  }

  /**
   * `authService.logout`: only once the server has accepted the logout are the
   * token, the stored user and the cookie removed. A rejected call throws with
   * storage as the API client left it and the cookie untouched.
   */
  method Logout(browser: Browser, outcome: Result<Unit, Error>) returns (r: Result<Unit, Error>)
    modifies browser
    ensures r == outcome
    ensures outcome.Ok? ==> browser.storage == ClearedStorage(old(browser.storage))
    ensures outcome.Ok? ==> browser.cookies == WithoutCookie(old(browser.cookies), TokenCookie, CookiePath)
    ensures outcome.Ok? ==> browser.href == old(browser.href)
    ensures outcome.Err? ==> browser.storage == StorageAfterError(old(browser.storage), outcome.error)
    ensures outcome.Err? ==> browser.cookies == old(browser.cookies)
    ensures outcome.Err? ==> browser.href == HrefAfterError(old(browser.href), outcome.error)
  {
    var config := new RequestConfig("POST", "/auth/logout/");
    r := Send(config, browser, outcome);
    if r.Err? {
      return;
    }
    browser.RemoveItem(TokenKey);
    browser.RemoveItem(UserKey);
    browser.RemoveCookie(TokenCookie, CookiePath);
  }

  /** `authService.getCurrentUser`: a GET through the client, returned as it settles. */
  method GetCurrentUser(browser: Browser, outcome: Result<User, Error>) returns (r: Result<User, Error>)
    modifies browser
    ensures r == outcome
    ensures outcome.Ok? ==> browser.storage == old(browser.storage) && browser.href == old(browser.href)
    ensures outcome.Err? ==> browser.storage == StorageAfterError(old(browser.storage), outcome.error)
    ensures outcome.Err? ==> browser.href == HrefAfterError(old(browser.href), outcome.error)
    ensures browser.cookies == old(browser.cookies)
  {
    var config := new RequestConfig("GET", "/auth/user/");
    r := Send(config, browser, outcome);
  }

  /** `authService.isAuthenticated`: a non-empty token is stored. */
  function IsAuthenticated(browser: Browser): (b: bool)
    reads browser
    ensures b <==> TokenKey in browser.storage && browser.storage[TokenKey] != ""
  {
    StoredToken(browser.storage).Some?
  }
}
