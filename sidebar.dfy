/** The sidebar's active-link test (components/sidebar.tsx). */
module Sidebar {

  import opened Wrappers
  import opened Strings

  /** The four navigation links, in display order. */
  const Links: seq<string> := ["/", "/questions", "/tags", "/users"]

  /** Starting with `path + "/"` is having `path` as a prefix followed by a slash. */
  lemma SlashPrefixIff(p: string, path: string)
    ensures StartsWith(p, path + "/") <==> |p| > |path| && p[..|path|] == path && p[|path|] == '/'
  {
    if |p| > |path| && p[..|path|] == path && p[|path|] == '/' {
      assert p[..|path| + 1] == path + "/";
    }
    if StartsWith(p, path + "/") {
      assert p[..|path|] == (path + "/")[..|path|];
      assert p[|path|] == (path + "/")[|path|];
    }
  }

  /**
   * `pathname === path || pathname?.startsWith(path + "/")`: active exactly
   * for the link's own path and for the paths below it, the link followed by
   * a slash and anything; a null pathname is never active.
   */
  predicate IsActive(pathname: Option<string>, path: string): (active: bool)
    ensures active <==>
              && pathname.Some?
              && (|| pathname.value == path
                  || (|pathname.value| > |path| && pathname.value[..|path|] == path && pathname.value[|path|] == '/'))
  {
    if pathname.Some? then
      SlashPrefixIff(pathname.value, path);
      pathname.value == path || StartsWith(pathname.value, path + "/")
    else false
  }

  /**
   * A link is active exactly for its own path and for the paths below it:
   * the link followed by a slash and anything.
   */
  lemma ActiveIff(p: string, path: string)
    ensures IsActive(Some(p), path) <==>
      p == path || (|p| > |path| && p[..|path|] == path && p[|path|] == '/')
  {
  }

  /** With no pathname, no link is active. */
  lemma NothingActiveWithoutPath(path: string)
    ensures !IsActive(None, path)
  {
  }

  /** A bare prefix without the slash does not activate a link. */
  lemma BarePrefixInactive()
    ensures !IsActive(Some("/questionsX"), "/questions")
    ensures IsActive(Some("/questions/42"), "/questions")
  {
    ActiveIff("/questionsX", "/questions");
    ActiveIff("/questions/42", "/questions");
  }

  /** Home is active only on "/" itself or on a path beginning "//", not on every page. */
  lemma HomeActiveIff(p: string)
    ensures IsActive(Some(p), "/") <==> p == "/" || StartsWith(p, "//")
  {
  }

  /** On a page below "/questions", Home is not active, so at most the one matching link is. */
  lemma HomeNotActiveOnSection(p: string)
    requires StartsWith(p, "/questions/")
    ensures !IsActive(Some(p), "/")
    ensures IsActive(Some(p), "/questions")
    ensures !IsActive(Some(p), "/tags") && !IsActive(Some(p), "/users")
  {
    assert p[1] == 'q';
    ActiveIff(p, "/tags");
    ActiveIff(p, "/users");
  }
}
