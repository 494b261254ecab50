/**
 * The tags listing (app/tags/page.tsx): the filter sent to the tag list
 * endpoint, the sort buttons, search and paging handlers, the description
 * fallback and the page count.
 */
module TagsPage {

  import opened Wrappers
  import opened ApiClient
  import opened Listing

  const PageSize := 20
  const DefaultSort := "popular"
  const Path := "/tags"
  const FetchFailed := "Failed to load tags. Please try again later."
  const DescriptionPrefix := "Questions related to "

  /** The sort buttons, by id. */
  const Filters: seq<string> := ["popular", "name", "newest"]

  /** A listed tag; `description` is optional. */
  datatype Tag = Tag(id: string, name: string, description: Option<string>, count: nat)

  /** `TagFilters` as sent: `search` is left out when `None`; a `None` page is NaN and is still sent. */
  datatype TagFilters = TagFilters(page: Option<nat>, pageSize: nat, sortBy: string, search: Option<string>)

  /**
   * The filter built for the current URL: page, page size 20 and sort
   * (default "popular") always; `search` only for a non-empty `q`.
   */
  ghost predicate IsTagFilter(params: Params, f: TagFilters) {
    && f.page == CurrentPage(params)
    && f.pageSize == PageSize
    && f.sortBy == ParamOr(params, "sort", DefaultSort)
    && f.search == NonEmpty(ParamOr(params, "q", ""))
  }

  /**
   * `tag.description || "Questions related to " + tag.name`: a missing or
   * empty description is replaced by a sentence naming the tag.
   */
  function Description(tag: Tag): (text: string)
    ensures tag.description.Some? && tag.description.value != "" ==> text == tag.description.value
    ensures tag.description.None? || tag.description.value == "" ==>
      |text| == |DescriptionPrefix| + |tag.name| && text[..|DescriptionPrefix|] == DescriptionPrefix
      && text[|DescriptionPrefix|..] == tag.name
    ensures text != ""
  {
    if tag.description.Some? && tag.description.value != "" then tag.description.value
    else DescriptionPrefix + tag.name
  }

  class TagsPage {
    var searchParams: Params
    var activeFilter: string
    var tags: seq<Tag>
    var totalTags: nat
    var isLoading: bool
    var error: Option<string>
    var searchQuery: string

    constructor (searchParams: Params)
      ensures this.searchParams == searchParams
      ensures activeFilter == DefaultSort && tags == [] && totalTags == 0
      ensures isLoading && error == None && searchQuery == ""
    {
      this.searchParams := searchParams;
      activeFilter := DefaultSort;
      tags, totalTags := [], 0;
      isLoading, error := true, None;
      searchQuery := "";
    }

    /** The first effect: the search box and the active button follow the URL. */
    method SyncFromUrl()
      modifies this
      ensures searchQuery == ParamOr(searchParams, "q", "")
      ensures activeFilter == ParamOr(searchParams, "sort", DefaultSort)
      ensures searchParams == old(searchParams) && tags == old(tags) && totalTags == old(totalTags)
      ensures isLoading == old(isLoading) && error == old(error)
    {
      searchQuery := ParamOr(searchParams, "q", "");
      activeFilter := ParamOr(searchParams, "sort", DefaultSort);
    }

    /** The filter construction of `fetchTags`. */
    method BuildFilters() returns (filters: TagFilters)
      ensures IsTagFilter(searchParams, filters)
    {
      filters := TagFilters(CurrentPage(searchParams), PageSize, ParamOr(searchParams, "sort", DefaultSort), None);
      var urlSearchQuery := ParamOr(searchParams, "q", "");
      if urlSearchQuery != "" {
        filters := filters.(search := Some(urlSearchQuery));
      }
    }

    /**
     * `fetchTags`: the request carries the filter for the current URL; a
     * success replaces the list and the total, a failure sets the error and
     * keeps the previous list. Loading ends false.
     */
    method FetchTags(outcome: Result<Paginated<Tag>, Error>) returns (filters: TagFilters)
      modifies this
      ensures IsTagFilter(searchParams, filters)
      ensures !isLoading
      ensures outcome.Ok? ==> tags == outcome.value.results && totalTags == outcome.value.count && error == None
      ensures outcome.Err? ==> error == Some(FetchFailed) && tags == old(tags) && totalTags == old(totalTags)
      ensures searchParams == old(searchParams) && activeFilter == old(activeFilter) && searchQuery == old(searchQuery)
    {
      isLoading := true;
      error := None;
      filters := BuildFilters();
      if outcome.Ok? {
        tags := outcome.value.results;
        totalTags := outcome.value.count;
      } else {
        error := Some(FetchFailed);
      }
      isLoading := false;
    }

    /** `handleSearch`: `q` set (or dropped when the box is empty) and page back to 1. */
    method HandleSearch() returns (pushed: Route)
      ensures pushed.path == Path
      ensures SearchApplied(searchParams, searchQuery, pushed.params)
    {
      var params := ApplySearch(searchParams, searchQuery);
      pushed := Route(Path, params);
    }

    /** `handleFilterChange`: sort becomes the filter, page goes back to 1, everything else is kept. */
    method HandleFilterChange(filter: string) returns (pushed: Route)
      ensures pushed.path == Path
      ensures SortApplied(searchParams, filter, pushed.params)
    {
      var params := ApplySort(searchParams, filter);
      pushed := Route(Path, params);
    }

    /** `handlePageChange`: only the page changes. */
    method HandlePageChange(page: nat) returns (pushed: Route)
      ensures pushed.path == Path
      ensures PageApplied(searchParams, page, pushed.params)
    {
      var params := ApplyPage(searchParams, page);
      pushed := Route(Path, params);
    }

    /** The pagination control: shown with ceil(total / 20) pages when the loaded list is non-empty. */
    function Pagination(): (pages: Option<nat>)
      reads this
      ensures pages.Some? <==> !isLoading && error.None? && |tags| > 0
      ensures pages.Some? ==> pages.value * PageSize >= totalTags
      ensures pages.Some? && pages.value > 0 ==> (pages.value - 1) * PageSize < totalTags
    {
      if !isLoading && error.None? && |tags| > 0 then Some(TotalPages(totalTags, PageSize)) else None
    }
  }

  /** Searching and fetching the resulting URL sends exactly the query, asks for page 1 and keeps the sort. */
  lemma SearchThenFetch(before: Params, query: string, after: Params, f: TagFilters)
    requires SearchApplied(before, query, after) && IsTagFilter(after, f)
    ensures f.search == NonEmpty(query)
    ensures f.page == Some(1)
    ensures f.sortBy == ParamOr(before, "sort", DefaultSort)
  {
    SearchResetsPage(before, query, after);
    assert ParamOr(after, "sort", DefaultSort) == ParamOr(before, "sort", DefaultSort);
  }

  /** Choosing a sort button and fetching asks for page 1 in that order with the search kept. */
  lemma FilterThenFetch(before: Params, filter: string, after: Params, f: TagFilters)
    requires filter in Filters
    requires SortApplied(before, filter, after) && IsTagFilter(after, f)
    ensures f.sortBy == filter && f.page == Some(1)
    ensures f.search == NonEmpty(ParamOr(before, "q", ""))
  {
    SortResetsPage(before, filter, DefaultSort, after);
  }

  /** Paging and fetching asks for that page with every other filter field as before. */
  lemma PageThenFetch(before: Params, n: nat, after: Params, f: TagFilters, g: TagFilters)
    requires PageApplied(before, n, after) && IsTagFilter(after, f) && IsTagFilter(before, g)
    ensures f == g.(page := Some(n))
  {
    PageReadsBack(before, n, after);
    assert ParamOr(after, "sort", DefaultSort) == ParamOr(before, "sort", DefaultSort);
    assert ParamOr(after, "q", "") == ParamOr(before, "q", "");
  }
}
