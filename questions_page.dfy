/**
 * The questions listing (app/questions/page.tsx): the filter sent to the
 * question list endpoint, the sort tabs, search and paging handlers, and the
 * excerpt, count label and page count it displays.
 */
module QuestionsPage {

  import opened Wrappers
  import opened Strings
  import opened ApiClient
  import opened Listing

  const PageSize := 10
  const DefaultSort := "newest"
  const ExcerptLength := 200
  const Path := "/questions"
  const FetchFailed := "Failed to load questions. Please try again later."

  /** The sort tabs, by id. */
  const Tabs: seq<string> := ["newest", "active", "votes", "unanswered"]

  /** A listed question, reduced to what the list reads. */
  datatype Question = Question(id: string, title: string, content: string)

  /** `QuestionFilters` as sent: `search` and `tags` are left out when `None`; a `None` page is NaN and is still sent. */
  datatype QuestionFilters = QuestionFilters(
    page: Option<nat>,
    pageSize: nat,
    sortBy: string,
    search: Option<string>,
    tags: Option<seq<string>>)

  /**
   * The filter built for the current URL: page, page size 10 and sort always;
   * `search` only for a non-empty `q`; `tags` as a one-element list only for
   * a non-empty `tag`.
   */
  ghost predicate IsQuestionFilter(params: Params, f: QuestionFilters) {
    && f.page == CurrentPage(params)
    && f.pageSize == PageSize
    && f.sortBy == ParamOr(params, "sort", DefaultSort)
    && f.search == NonEmpty(ParamOr(params, "q", ""))
    && f.tags == (if ParamOr(params, "tag", "") != "" then Some([ParamOr(params, "tag", "")]) else None)
  }

  /**
   * `question.content.substring(0, 200) + (content.length > 200 ? "..." : "")`:
   * short content is shown whole; longer content is cut to its first 200
   * characters followed by "...".
   */
  function Excerpt(content: string): (r: string)
    ensures |r| <= ExcerptLength + 3
    ensures |content| <= ExcerptLength ==> r == content
    ensures |content| > ExcerptLength ==>
      |r| == ExcerptLength + 3 && r[..ExcerptLength] == content[..ExcerptLength] && r[ExcerptLength..] == "..."
  {
    if |content| > ExcerptLength then content[..ExcerptLength] + "..." else content
  }

  /** The noun after the total: singular exactly for one question. */
  function CountLabel(total: nat): (noun: string)
    ensures noun == "question" <==> total == 1
    ensures noun == "questions" <==> total != 1
  {
    if total == 1 then "question" else "questions"
  }

  class QuestionsPage {
    var searchParams: Params
    var activeTab: string
    var questions: seq<Question>
    var totalQuestions: nat
    var isLoading: bool
    var error: Option<string>
    var searchQuery: string

    constructor (searchParams: Params)
      ensures this.searchParams == searchParams
      ensures activeTab == DefaultSort && questions == [] && totalQuestions == 0
      ensures isLoading && error == None && searchQuery == ""
    {
      this.searchParams := searchParams;
      activeTab := DefaultSort;
      questions, totalQuestions := [], 0;
      isLoading, error := true, None;
      searchQuery := "";
    }

    /** The first effect: the search box and the active tab follow the URL. */
    method SyncFromUrl()
      modifies this
      ensures searchQuery == ParamOr(searchParams, "q", "")
      ensures activeTab == ParamOr(searchParams, "sort", DefaultSort)
      ensures searchParams == old(searchParams) && questions == old(questions) && totalQuestions == old(totalQuestions)
      ensures isLoading == old(isLoading) && error == old(error)
    {
      searchQuery := ParamOr(searchParams, "q", "");
      activeTab := ParamOr(searchParams, "sort", DefaultSort);
    }

    /** The filter construction of `fetchQuestions`, field by field. */
    method BuildFilters() returns (filters: QuestionFilters)
      ensures IsQuestionFilter(searchParams, filters)
    {
      filters := QuestionFilters(CurrentPage(searchParams), PageSize, ParamOr(searchParams, "sort", DefaultSort), None, None);
      var urlSearchQuery := ParamOr(searchParams, "q", "");
      if urlSearchQuery != "" {
        filters := filters.(search := Some(urlSearchQuery));
      }
      var tagFilter := ParamOr(searchParams, "tag", "");
      if tagFilter != "" {
        filters := filters.(tags := Some([tagFilter]));
      }
    }

    /**
     * `fetchQuestions`: the request carries the filter for the current URL; a
     * success replaces the list and the total, a failure sets the error and
     * keeps the previous list. Loading ends false.
     */
    method FetchQuestions(outcome: Result<Paginated<Question>, Error>) returns (filters: QuestionFilters)
      modifies this
      ensures IsQuestionFilter(searchParams, filters)
      ensures !isLoading
      ensures outcome.Ok? ==> questions == outcome.value.results && totalQuestions == outcome.value.count && error == None
      ensures outcome.Err? ==> error == Some(FetchFailed) && questions == old(questions) && totalQuestions == old(totalQuestions)
      ensures searchParams == old(searchParams) && activeTab == old(activeTab) && searchQuery == old(searchQuery)
    {
      isLoading := true;
      error := None;
      filters := BuildFilters();
      if outcome.Ok? {
        questions := outcome.value.results;
        totalQuestions := outcome.value.count;
      } else {
        error := Some(FetchFailed);
      }
      isLoading := false;
    }

    /** `handleTabChange`: sort becomes the tab, page goes back to 1, everything else is kept. */
    method HandleTabChange(tab: string) returns (pushed: Route)
      ensures pushed.path == Path
      ensures SortApplied(searchParams, tab, pushed.params)
    {
      var params := ApplySort(searchParams, tab);
      pushed := Route(Path, params);
    }

    /** `handleSearch`: `q` set (or dropped when the box is empty) and page back to 1. */
    method HandleSearch() returns (pushed: Route)
      ensures pushed.path == Path
      ensures SearchApplied(searchParams, searchQuery, pushed.params)
    {
      var params := ApplySearch(searchParams, searchQuery);
      pushed := Route(Path, params);
    }

    /** `handlePageChange`: only the page changes. */
    method HandlePageChange(page: nat) returns (pushed: Route)
      ensures pushed.path == Path
      ensures PageApplied(searchParams, page, pushed.params)
    {
      var params := ApplyPage(searchParams, page);
      pushed := Route(Path, params);
    }

    /** The pagination control: shown with ceil(total / 10) pages when the loaded list is non-empty. */
    function Pagination(): (pages: Option<nat>)
      reads this
      ensures pages.Some? <==> !isLoading && error.None? && |questions| > 0
      ensures pages.Some? ==> pages.value * PageSize >= totalQuestions
      ensures pages.Some? && pages.value > 0 ==> (pages.value - 1) * PageSize < totalQuestions
    {
      if !isLoading && error.None? && |questions| > 0 then Some(TotalPages(totalQuestions, PageSize)) else None
    }
  }

  /**
   * Searching for a non-empty query and fetching the resulting URL sends
   * exactly that query, asks for page 1, and keeps the sort and tag filter.
   */
  lemma SearchThenFetch(before: Params, query: string, after: Params, f: QuestionFilters)
    requires SearchApplied(before, query, after) && IsQuestionFilter(after, f)
    ensures f.search == NonEmpty(query)
    ensures f.page == Some(1)
    ensures f.sortBy == ParamOr(before, "sort", DefaultSort)
    ensures f.tags == (if ParamOr(before, "tag", "") != "" then Some([ParamOr(before, "tag", "")]) else None)
  {
    SearchResetsPage(before, query, after);
    assert ParamOr(after, "sort", DefaultSort) == ParamOr(before, "sort", DefaultSort);
    assert ParamOr(after, "tag", "") == ParamOr(before, "tag", "");
  }

  /** Changing tab and fetching asks for page 1 in the tab's order, with the search and tag kept. */
  lemma TabThenFetch(before: Params, tab: string, after: Params, f: QuestionFilters)
    requires tab in Tabs
    requires SortApplied(before, tab, after) && IsQuestionFilter(after, f)
    ensures f.sortBy == tab && f.page == Some(1)
    ensures f.search == NonEmpty(ParamOr(before, "q", ""))
    ensures f.tags == (if ParamOr(before, "tag", "") != "" then Some([ParamOr(before, "tag", "")]) else None)
  {
    SortResetsPage(before, tab, DefaultSort, after);
    assert ParamOr(after, "tag", "") == ParamOr(before, "tag", "");
  }

  /** Paging and fetching asks for that page with every other filter field as before. */
  lemma PageThenFetch(before: Params, n: nat, after: Params, f: QuestionFilters, g: QuestionFilters)
    requires PageApplied(before, n, after) && IsQuestionFilter(after, f) && IsQuestionFilter(before, g)
    ensures f == g.(page := Some(n))
  {
    PageReadsBack(before, n, after);
    assert ParamOr(after, "sort", DefaultSort) == ParamOr(before, "sort", DefaultSort);
    assert ParamOr(after, "q", "") == ParamOr(before, "q", "");
    assert ParamOr(after, "tag", "") == ParamOr(before, "tag", "");
  }
}
