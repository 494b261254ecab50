/**
 * The session held by the `AuthProvider` component
 * (components/auth-provider.tsx): the signed-in user and the loading flag,
 * with the bootstrap check and the login, signup and logout actions.
 */
module Session {

  import opened Wrappers
  import opened Web
  import opened ApiClient
  import opened AuthService

  const PasswordMismatch := "Passwords don't match"

  /** The error `signup` throws, before any request, when the two passwords differ. */
  function MismatchError(): (e: Error)
    ensures e.message == PasswordMismatch && e.status.None?
  {
    Error(None, PasswordMismatch)
  }

  class AuthProvider {
    var user: Option<User>
    var isLoading: bool
    const browser: Browser

    /** A fresh provider: no user yet, and loading until the bootstrap check has run. */
    constructor (browser: Browser)
      ensures this.browser == browser
      ensures user == None && isLoading
    {
      this.browser := browser;
      user := None;
      isLoading := true;
    }

    /**
     * `checkAuthStatus`, run once on mount. The current user is fetched only
     * when a token is stored (`requested`); a failed fetch removes the token
     * and the stored user. Loading ends whatever happens.
     */
    method CheckAuthStatus(fetched: Result<User, Error>) returns (requested: bool)
      modifies this, browser
      ensures !isLoading
      ensures requested == old(IsAuthenticated(browser))
      ensures !requested ==> user == old(user) && browser.storage == old(browser.storage) && browser.href == old(browser.href)
      ensures requested && fetched.Ok? ==> user == Some(fetched.value)
      ensures requested && fetched.Ok? ==> browser.storage == old(browser.storage) && browser.href == old(browser.href)
      ensures requested && fetched.Err? ==> user == old(user)
      ensures requested && fetched.Err? ==> browser.storage == ClearedStorage(old(browser.storage))
      ensures requested && fetched.Err? ==> browser.href == HrefAfterError(old(browser.href), fetched.error)
      ensures browser.cookies == old(browser.cookies)
    {
      requested := IsAuthenticated(browser);
      if requested {
        var r := GetCurrentUser(browser, fetched);
        if r.Ok? {
          user := Some(r.value);
        } else {
          browser.RemoveItem(TokenKey);
          browser.RemoveItem(UserKey);
        }
      }
      isLoading := false;
    }

    /**
     * `login`: on success the user is the one the service returned; on failure
     * the error is rethrown and the user is unchanged. Loading ends either way.
     */
    method Login(email: string, password: string, outcome: Result<AuthResponse, Error>) returns (r: Result<Unit, Error>)
      modifies this, browser
      ensures !isLoading
      ensures outcome.Ok? ==> r == Ok(Unit) && user == Some(outcome.value.user)
      ensures outcome.Ok? ==> browser.storage == SessionStorage(old(browser.storage), outcome.value)
      ensures outcome.Ok? ==> browser.cookies == SessionCookies(old(browser.cookies), outcome.value)
      ensures outcome.Err? ==> r == Err(outcome.error) && user == old(user)
      ensures outcome.Err? ==> browser.storage == StorageAfterError(old(browser.storage), outcome.error)
      ensures outcome.Err? ==> browser.cookies == old(browser.cookies)
      ensures browser.href == if outcome.Ok? then old(browser.href) else HrefAfterError(old(browser.href), outcome.error)
    {
      isLoading := true;
      var result := AuthService.Login(browser, LoginCredentials(email, password), outcome);
      if result.Ok? {
        user := Some(result.value);
        r := Ok(Unit);
      } else {
        r := Err(result.error);
      }
      isLoading := false;
    }

    /**
     * `signup`: differing passwords throw "Passwords don't match" without
     * calling register (`sent` is then `None`). Otherwise register is called
     * with exactly the four arguments, and the user becomes the registered one
     * on success. Loading ends either way.
     */
    method Signup(email: string, password: string, password2: string, username: string, outcome: Result<AuthResponse, Error>)
      returns (r: Result<Unit, Error>, sent: Option<RegisterData>)
      modifies this, browser
      ensures !isLoading
      ensures password != password2 ==> sent == None && r == Err(MismatchError()) && user == old(user)
      ensures password != password2 ==> browser.storage == old(browser.storage) && browser.cookies == old(browser.cookies)
      ensures password == password2 ==> sent == Some(RegisterData(username, email, password, password2))
      ensures password == password2 && outcome.Ok? ==> r == Ok(Unit) && user == Some(outcome.value.user)
      ensures password == password2 && outcome.Ok? ==> browser.storage == SessionStorage(old(browser.storage), outcome.value)
      ensures password == password2 && outcome.Ok? ==> browser.cookies == SessionCookies(old(browser.cookies), outcome.value)
      ensures password == password2 && outcome.Err? ==> r == Err(outcome.error) && user == old(user)
      ensures password == password2 && outcome.Err? ==> browser.storage == StorageAfterError(old(browser.storage), outcome.error)
      ensures password == password2 && outcome.Err? ==> browser.cookies == old(browser.cookies)
      ensures browser.href ==
        if password == password2 && outcome.Err? then HrefAfterError(old(browser.href), outcome.error) else old(browser.href)
    {
      isLoading := true;
      if password != password2 {
        r, sent := Err(MismatchError()), None;
        isLoading := false;
        return;
      }
      var data := RegisterData(username, email, password, password2);
      sent := Some(data);
      var result := Register(browser, data, outcome);
      if result.Ok? {
        user := Some(result.value);
        r := Ok(Unit);
      } else {
        r := Err(result.error);
      }
      isLoading := false;
    }

    /**
     * `logout`: the user is cleared whether or not the server call succeeds.
     * On success the service has removed the stored session and the cookie;
     * on failure the provider removes the two storage keys itself but leaves
     * the cookie in place.
     */
    method Logout(outcome: Result<Unit, Error>)
      modifies this, browser
      ensures user == None
      ensures isLoading == old(isLoading)
      ensures browser.storage == ClearedStorage(old(browser.storage))
      ensures outcome.Ok? ==> browser.cookies == WithoutCookie(old(browser.cookies), TokenCookie, CookiePath)
      ensures outcome.Err? ==> browser.cookies == old(browser.cookies)
      ensures browser.href == if outcome.Ok? then old(browser.href) else HrefAfterError(old(browser.href), outcome.error)
    {
      var result := AuthService.Logout(browser, outcome);
      if result.Err? {
        browser.RemoveItem(TokenKey);
        browser.RemoveItem(UserKey);
      }
      user := None;
    }
  }
}
