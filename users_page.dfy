/**
 * The users listing (app/users/page.tsx): the filter sent to the user list
 * endpoint, the search and paging handlers, the page count, and the
 * per-card display rules (initials, location and badge defaults).
 */
module UsersPage {

  import opened Wrappers
  import opened Strings
  import opened ApiClient
  import opened Listing

  const PageSize := 12
  const Sort := "reputation"
  const Path := "/users"
  const FetchFailed := "Failed to load users. Please try again later."
  const NoLocation := "No location"
  const PlaceholderAvatar := "/placeholder.svg?height=48&width=48&text="

  /** A listed user, reduced to what a card reads; optional fields may be missing. */
  datatype ListedUser = ListedUser(
    id: string,
    displayName: string,
    avatarUrl: Option<string>,
    location: Option<string>,
    reputation: int,
    goldBadges: Option<int>,
    silverBadges: Option<int>,
    bronzeBadges: Option<int>)

  /** The filter literal of `fetchUsers`: every field is always sent. */
  datatype UserFilters = UserFilters(page: Option<nat>, pageSize: nat, search: string, sortBy: string)

  /** The filter for the current URL: the search is sent even when empty, and the order is always by reputation. */
  function FilterFor(params: Params): (f: UserFilters)
    ensures f.page == CurrentPage(params)
    ensures f.pageSize == PageSize && f.sortBy == Sort
    ensures "page" !in params ==> f.page == Some(1)
    ensures "q" !in params ==> f.search == ""
    ensures "q" in params ==> f.search == params["q"]
  {
    UserFilters(CurrentPage(params), PageSize, ParamOr(params, "q", ""), Sort)
  }

  // ---------------------------------------------------------------------------
  // Card display rules

  /** The first character of every non-empty part, in order (`n[0]` of an empty part joins as ""). */
  function Heads(parts: seq<string>): (heads: string)
    ensures |heads| <= |parts|
  {
    if parts == [] then []
    else (if parts[0] != [] then [parts[0][0]] else []) + Heads(parts[1..])
  }

  /**
   * The avatar fallback: `displayName.split(" ").map(n => n[0]).join("")`,
   * the first character of each space-separated word.
   */
  function Initials(displayName: string): (initials: string)
    ensures initials == WordStarts(displayName, true)
    ensures |initials| <= |displayName|
    ensures ' ' !in initials
  {
    InitialsAreWordStarts(displayName);
    WordStartsBounds(displayName, true);
    Heads(SplitSpaces(displayName))
  }

  /**
   * A direct scan of the name: keep each character that is not a space and
   * starts a word, i.e. comes first or right after a space. `atStart` says
   * whether the previous character was a space (or there was none).
   */
  function WordStarts(s: string, atStart: bool): (starts: string) {
    if s == [] then []
    else if s[0] == ' ' then WordStarts(s[1..], true)
    else (if atStart then [s[0]] else []) + WordStarts(s[1..], false)
  }

  lemma {:induction false} WordStartsBounds(s: string, atStart: bool)
    ensures |WordStarts(s, atStart)| <= |s|
    ensures ' ' !in WordStarts(s, atStart)
  {
    if s != [] {
      WordStartsBounds(s[1..], s[0] == ' ' || !atStart);
      WordStartsBounds(s[1..], false);
      WordStartsBounds(s[1..], true);
    }
  }

  /**
   * The initials are exactly the word-start characters of the name: the
   * split-map-join gives the same string as the direct scan. Scanning from
   * inside a word skips the first part.
   */
  lemma {:induction false} SplitHeadsAreWordStarts(s: string)
    ensures WordStarts(s, true) == Heads(SplitSpaces(s))
    ensures WordStarts(s, false) == Heads(SplitSpaces(s)[1..])
  {
    if s != [] {
      var rest := SplitSpaces(s[1..]);
      SplitHeadsAreWordStarts(s[1..]);
      if s[0] == ' ' {
        assert SplitSpaces(s) == [""] + rest;
        assert SplitSpaces(s)[1..] == rest;
        assert Heads([""] + rest) == Heads(rest);
      } else {
        var first := [s[0]] + rest[0];
        assert SplitSpaces(s) == [first] + rest[1..];
        assert SplitSpaces(s)[1..] == rest[1..];
        assert Heads([first] + rest[1..]) == [s[0]] + Heads(rest[1..]);
      }
    }
  }

  lemma InitialsAreWordStarts(displayName: string)
    ensures Heads(SplitSpaces(displayName)) == WordStarts(displayName, true)
  {
    SplitHeadsAreWordStarts(displayName);
  }

  /** Scanning through a word yields its first letter only when the scan starts there. */
  lemma {:induction false} WordStartsThroughWord(w: string, rest: string, atStart: bool)
    requires w != [] && ' ' !in w
    ensures WordStarts(w + rest, atStart) == (if atStart then [w[0]] else []) + WordStarts(rest, false)
  {
    assert (w + rest)[0] == w[0] && (w + rest)[1..] == w[1..] + rest;
    if w[1..] != [] {
      WordStartsThroughWord(w[1..], rest, false);
    }
  }

  /** A first and a last name separated by one space give their two first letters. */
  lemma TwoWordInitials(first: string, last: string)
    requires first != [] && ' ' !in first && last != [] && ' ' !in last
    ensures Initials(first + " " + last) == [first[0], last[0]]
  {
    InitialsAreWordStarts(first + " " + last);
    assert first + " " + last == first + (" " + last);
    WordStartsThroughWord(first, " " + last, true);
    assert (" " + last)[1..] == last;
    assert WordStarts(" " + last, false) == WordStarts(last, true);
    WordStartsThroughWord(last, [], true);
    assert last + [] == last;
  }

  /** `user.location || "No location"`: a missing or empty location shows the placeholder. */
  function LocationLabel(location: Option<string>): (shownText: string)
    ensures location.Some? && location.value != "" ==> shownText == location.value
    ensures location.None? || location.value == "" ==> shownText == NoLocation
    ensures shownText != ""
  {
    if location.Some? && location.value != "" then location.value else NoLocation
  }

  /** `user.gold_badges || 0` (and silver, bronze): a missing count shows 0. */
  function BadgeCount(n: Option<int>): (shown: int)
    ensures n.Some? ==> shown == n.value
    ensures n.None? ==> shown == 0
  {
    if n.Some? && n.value != 0 then n.value else 0
  }

  /** The avatar image: the user's own picture, or a placeholder lettered with the name's first character. */
  function AvatarSrc(u: ListedUser): (src: string)
    ensures u.avatarUrl.Some? && u.avatarUrl.value != "" ==> src == u.avatarUrl.value
    ensures u.avatarUrl.None? || u.avatarUrl.value == "" ==>
      src == PlaceholderAvatar + (if u.displayName == "" then "" else [u.displayName[0]])
  {
    if u.avatarUrl.Some? && u.avatarUrl.value != "" then u.avatarUrl.value
    else PlaceholderAvatar + u.displayName[..if u.displayName == "" then 0 else 1]
  }

  class UsersPage {
    var searchParams: Params
    var users: seq<ListedUser>
    var totalUsers: nat
    var isLoading: bool
    var error: Option<string>
    var searchQuery: string

    constructor (searchParams: Params)
      ensures this.searchParams == searchParams
      ensures users == [] && totalUsers == 0
      ensures isLoading && error == None && searchQuery == ""
    {
      this.searchParams := searchParams;
      users, totalUsers := [], 0;
      isLoading, error := true, None;
      searchQuery := "";
    }

    /** The first effect: the search box follows the URL. */
    method SyncFromUrl()
      modifies this
      ensures searchQuery == ParamOr(searchParams, "q", "")
      ensures searchParams == old(searchParams) && users == old(users) && totalUsers == old(totalUsers)
      ensures isLoading == old(isLoading) && error == old(error)
    {
      searchQuery := ParamOr(searchParams, "q", "");
    }

    /**
     * `fetchUsers`: the request carries the filter for the current URL; a
     * success replaces the list and the total, a failure sets the error and
     * keeps the previous list. Loading ends false.
     */
    method FetchUsers(outcome: Result<Paginated<ListedUser>, Error>) returns (filters: UserFilters)
      modifies this
      ensures filters == FilterFor(searchParams)
      ensures !isLoading
      ensures outcome.Ok? ==> users == outcome.value.results && totalUsers == outcome.value.count && error == None
      ensures outcome.Err? ==> error == Some(FetchFailed) && users == old(users) && totalUsers == old(totalUsers)
      ensures searchParams == old(searchParams) && searchQuery == old(searchQuery)
    {
      isLoading := true;
      error := None;
      filters := FilterFor(searchParams);
      if outcome.Ok? {
        users := outcome.value.results;
        totalUsers := outcome.value.count;
      } else {
        error := Some(FetchFailed);
      }
      isLoading := false;
    }

    /** `handleSearch`: `q` set (or dropped when the box is empty) and page back to 1. */
    method HandleSearch() returns (pushed: Route)
      ensures pushed.path == Path
      ensures SearchApplied(searchParams, searchQuery, pushed.params)
    {
      var params := ApplySearch(searchParams, searchQuery);
      pushed := Route(Path, params);
    }

    /** `handlePageChange`: only the page changes. */
    method HandlePageChange(page: nat) returns (pushed: Route)
      ensures pushed.path == Path
      ensures PageApplied(searchParams, page, pushed.params)
    {
      var params := ApplyPage(searchParams, page);
      pushed := Route(Path, params);
    }

    /** The pagination control: shown with ceil(total / 12) pages when the loaded list is non-empty. */
    function Pagination(): (pages: Option<nat>)
      reads this
      ensures pages.Some? <==> !isLoading && error.None? && |users| > 0
      ensures pages.Some? ==> pages.value * PageSize >= totalUsers
      ensures pages.Some? && pages.value > 0 ==> (pages.value - 1) * PageSize < totalUsers
    {
      if !isLoading && error.None? && |users| > 0 then Some(TotalPages(totalUsers, PageSize)) else None
    }
  }

  /** Searching and fetching the resulting URL sends exactly the query (empty when cleared) for page 1. */
  lemma SearchThenFetch(before: Params, query: string, after: Params)
    requires SearchApplied(before, query, after)
    ensures FilterFor(after) == UserFilters(Some(1), PageSize, query, Sort)
  {
    SearchResetsPage(before, query, after);
  }

  /** Paging and fetching asks for that page with the same search. */
  lemma PageThenFetch(before: Params, n: nat, after: Params)
    requires PageApplied(before, n, after)
    ensures FilterFor(after) == FilterFor(before).(page := Some(n))
  {
    PageReadsBack(before, n, after);
    assert ParamOr(after, "q", "") == ParamOr(before, "q", "");
  }
}
