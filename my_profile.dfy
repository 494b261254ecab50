/** The own-profile page's redirect (app/users/me/page.tsx). */
module MyProfile {

  import opened Wrappers
  import opened AuthService

  const LoginRedirect := "/?login=true"

  /** The profile page of a user. */
  function ProfilePath(u: User): (path: string) {
    "/users/" + u.id
  }

  /**
   * The `router.push` calls one run of the effect makes, in order: the two
   * `if`s are tested one after the other.
   */
  function Redirects(isLoading: bool, user: Option<User>): (pushes: seq<string>)
    ensures isLoading ==> pushes == []
    ensures !isLoading && user.Some? ==> pushes == [ProfilePath(user.value)]
    ensures !isLoading && user.None? ==> pushes == [LoginRedirect]
  {
    (if !isLoading && user.Some? then [ProfilePath(user.value)] else [])
    + (if !isLoading && user.None? then [LoginRedirect] else [])
  }

  /** The two conditions exclude each other: a run pushes once when loaded and never while loading. */
  lemma AtMostOnePush(isLoading: bool, user: Option<User>)
    ensures |Redirects(isLoading, user)| == if isLoading then 0 else 1
  {
  }
}
