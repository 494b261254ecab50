/**
 * The route guard (middleware.ts): requests for the ask-question page and
 * the own-profile page need an `auth_token` cookie; without one they are
 * redirected to the home page with the login dialog requested.
 */
module RouteGuard {

  import opened Wrappers
  import opened Strings

  /** The protected route prefixes, in the order the guard tries them. */
  const AuthRoutes: seq<string> := ["/questions/ask", "/users/me"]

  /** Where an unauthenticated request is sent, relative to the request's origin. */
  const LoginRedirect := "/?login=true"

  /** The guard's answer: let the request through, or redirect it. */
  datatype Response = Next | Redirect(target: string)

  /** `routes.some(route => path.startsWith(route))`. */
  function SomePrefix(path: string, routes: seq<string>): (b: bool)
    ensures b <==> exists i :: 0 <= i < |routes| && StartsWith(path, routes[i])
  {
    if routes == [] then false
    else StartsWith(path, routes[0]) || SomePrefix(path, routes[1..])
  }

  predicate IsAuthRoute(path: string) {
    SomePrefix(path, AuthRoutes)
  }

  /** `request.cookies.get("auth_token")?.value`, tested for truthiness. */
  predicate HasToken(cookies: map<string, string>) {
    "auth_token" in cookies && cookies["auth_token"] != ""
  }

  /**
   * `middleware(request)` for a request path and its cookies (name to value):
   * a redirect to the login page exactly for a path starting with one of the
   * two protected prefixes when no non-empty token cookie is sent.
   */
  function Middleware(path: string, cookies: map<string, string>): (answer: Response)
    ensures answer == Next || answer == Redirect(LoginRedirect)
    ensures answer.Redirect? <==>
      (StartsWith(path, "/questions/ask") || StartsWith(path, "/users/me")) &&
      ("auth_token" !in cookies || cookies["auth_token"] == "")
  {
    assert AuthRoutes[0] == "/questions/ask" && AuthRoutes[1] == "/users/me";
    if IsAuthRoute(path) && !HasToken(cookies) then Redirect(LoginRedirect) else Next
  }

  /** A path under neither protected prefix always passes, whatever the cookies. */
  lemma UnprotectedPasses(path: string, cookies: map<string, string>)
    requires !StartsWith(path, "/questions/ask") && !StartsWith(path, "/users/me")
    ensures Middleware(path, cookies) == Next
  {
  }

  /**
   * The guard redirects exactly when the path starts with a protected prefix
   * and no non-empty token cookie is present; the target never depends on
   * the requested path.
   */
  lemma RedirectIff(path: string, cookies: map<string, string>)
    ensures Middleware(path, cookies).Redirect? <==>
      (StartsWith(path, "/questions/ask") || StartsWith(path, "/users/me")) &&
      ("auth_token" !in cookies || cookies["auth_token"] == "")
    ensures Middleware(path, cookies).Redirect? ==> Middleware(path, cookies).target == LoginRedirect
  {
    assert AuthRoutes[0] == "/questions/ask" && AuthRoutes[1] == "/users/me";
  }

  /** Any non-empty token passes the guard on a protected path: its content is never checked. */
  lemma AnyTokenPasses(path: string, cookies: map<string, string>, token: string)
    requires token != ""
    ensures Middleware(path, cookies["auth_token" := token]) == Next
  {
  }

  /** The protection is a bare string prefix: longer look-alike paths are guarded too. */
  lemma LookAlikePathsGuarded()
    ensures Middleware("/users/meow", map[]) == Redirect(LoginRedirect)
    ensures Middleware("/questions/asked", map[]) == Redirect(LoginRedirect)
  {
    assert StartsWith("/users/meow", AuthRoutes[1]);
    assert StartsWith("/questions/asked", AuthRoutes[0]);
  }

  // ---------------------------------------------------------------------------
  // The `config.matcher` entries: Next.js runs the middleware only for
  // `/questions/ask/:path*` and `/users/me/:path*`, i.e. the base path itself
  // or any path below it.

  const MatcherBases: seq<string> := ["/questions/ask", "/users/me"]

  predicate UnderBase(path: string, base: string) {
    path == base || StartsWith(path, base + "/")
  }

  /** The matcher selects a path: one of the two bases, or a path below one of them. */
  predicate Matched(path: string): (m: bool)
    ensures m <==>
      path == "/questions/ask" || StartsWith(path, "/questions/ask/") ||
      path == "/users/me" || StartsWith(path, "/users/me/")
  {
    assert MatcherBases[0] == "/questions/ask" && MatcherBases[1] == "/users/me";
    exists i :: 0 <= i < |MatcherBases| && UnderBase(path, MatcherBases[i])
  }

  /** A path the matcher selects starts with a protected prefix. */
  lemma MatchedIsAuthRoute(path: string)
    requires Matched(path)
    ensures IsAuthRoute(path)
  {
    var i :| 0 <= i < |MatcherBases| && UnderBase(path, MatcherBases[i]);
    var base := MatcherBases[i];
    if path != base {
      StartsWithTransitive(path, base + "/", base);
    }
    assert StartsWith(path, AuthRoutes[i]);
  }

  /**
   * What a request actually meets: the guard when the matcher selects the
   * path, otherwise nothing. A redirect happens exactly for a matched path
   * without a non-empty token cookie.
   */
  function Effective(path: string, cookies: map<string, string>): (answer: Response)
    ensures answer == Next || answer == Redirect(LoginRedirect)
    ensures answer.Redirect? <==> Matched(path) && !HasToken(cookies)
  {
    if Matched(path) then
      MatchedIsAuthRoute(path);
      Middleware(path, cookies)
    else Next
  }

  /**
   * Every path the matcher selects is a protected path, so within the matched
   * set the prefix test never lets a request through without a token.
   */
  lemma MatchedPathsAreGuarded(path: string, cookies: map<string, string>)
    requires Matched(path)
    ensures IsAuthRoute(path)
    ensures Effective(path, cookies) == Middleware(path, cookies)
    ensures !HasToken(cookies) ==> Effective(path, cookies) == Redirect(LoginRedirect)
  {
    MatchedIsAuthRoute(path);
  }

  /** The look-alike paths are guarded by the predicate but never reach it: the matcher skips them. */
  lemma LookAlikePathsNotMatched()
    ensures Effective("/users/meow", map[]) == Next
    ensures Effective("/questions/asked", map[]) == Next
  {
    assert !UnderBase("/users/meow", MatcherBases[1]) by {
      assert "/users/meow"[..|"/users/me/"|][9] != "/users/me/"[9];
    }
    assert !UnderBase("/questions/asked", MatcherBases[0]) by {
      assert "/questions/asked"[..|"/questions/ask/"|][14] != "/questions/ask/"[14];
    }
    assert !UnderBase("/users/meow", MatcherBases[0]);
    assert !UnderBase("/questions/asked", MatcherBases[1]);
  }
}
