/**
 * How the session's cookie meets the route guard: the `auth_token` cookie
 * written by login and register (services/auth-service.ts) is what the
 * guard in middleware.ts reads on the next request.
 */
module SessionGuard {

  import opened Wrappers
  import opened Strings
  import opened Web
  import opened ApiClient
  import opened AuthService
  import opened RouteGuard

  /**
   * Path-match of section 5.1.4 of RFC 6265: a cookie set for `cookiePath`
   * is sent with a request for `requestPath` when the paths are equal, or
   * the cookie path is a prefix that ends in "/" or is followed by "/".
   */
  predicate PathMatch(requestPath: string, cookiePath: string) {
    requestPath == cookiePath
    || (StartsWith(requestPath, cookiePath)
        && ((cookiePath != [] && cookiePath[|cookiePath| - 1] == '/')
            || (|requestPath| > |cookiePath| && requestPath[|cookiePath|] == '/')))
  }

  /** The cookies (name to value) the browser sends with a request for `path`. */
  function SentCookies(jar: map<string, Cookie>, path: string): (sent: map<string, string>)
    ensures forall n :: n in sent <==> n in jar && PathMatch(path, jar[n].path)
    ensures forall n :: n in sent ==> sent[n] == jar[n].value
  {
    map n | n in jar && PathMatch(path, jar[n].path) :: jar[n].value
  }

  /** Once a session with a non-empty token is stored, every path passes the guard. */
  lemma StoredSessionPassesGuard(path: string, jar: map<string, Cookie>, resp: AuthResponse)
    requires resp.token != "" && StartsWith(path, "/")
    ensures Middleware(path, SentCookies(SessionCookies(jar, resp), path)) == Next
  {
    var sent := SentCookies(SessionCookies(jar, resp), path);
    assert PathMatch(path, CookiePath);
    assert TokenCookie in sent && sent[TokenCookie] == resp.token;
    assert HasToken(sent);
  }

  /** After the service's logout removes the cookie, a protected path is redirected again. */
  lemma LoggedOutIsRedirected(path: string, jar: map<string, Cookie>, resp: AuthResponse)
    requires IsAuthRoute(path)
    ensures Middleware(path, SentCookies(WithoutCookie(SessionCookies(jar, resp), TokenCookie, CookiePath), path))
      == Redirect(LoginRedirect)
  {
    var sent := SentCookies(WithoutCookie(SessionCookies(jar, resp), TokenCookie, CookiePath), path);
    assert TokenCookie !in sent;
    assert !HasToken(sent);
  }

  /**
   * When the remote logout fails, the provider clears local storage but the
   * cookie stays: the client no longer holds a token, yet the guard still
   * lets protected paths through.
   */
  lemma FailedLogoutLeavesGuardOpen(path: string, storage: map<string, string>, jar: map<string, Cookie>, resp: AuthResponse)
    requires resp.token != "" && StartsWith(path, "/")
    ensures StoredToken(ClearedStorage(SessionStorage(storage, resp))) == None
    ensures Middleware(path, SentCookies(SessionCookies(jar, resp), path)) == Next
  {
    StoredSessionPassesGuard(path, jar, resp);
  }
}
