/**
 * What the questions, tags and users listing pages share: the URL query
 * parameters they read with defaults, the three ways their handlers rewrite
 * those parameters before navigating, and the page count of a listing.
 */
module Listing {

  import opened Wrappers
  import opened Strings

  /** The URL's query parameters, name to value. */
  type Params = map<string, string>

  /** A navigation target: a path and its query parameters. */
  datatype Route = Route(path: string, params: Params)

  /** The `{ count, results }` envelope of every list endpoint. */
  datatype Paginated<T> = Paginated(count: nat, results: seq<T>)

  /** `searchParams.get(key) || fallback`: a missing or empty parameter reads as the fallback. */
  function ParamOr(params: Params, key: string, fallback: string): (v: string)
    ensures key in params && params[key] != "" ==> v == params[key]
    ensures key !in params || params[key] == "" ==> v == fallback
  {
    if key in params && params[key] != "" then params[key] else fallback
  }

  /** A string filter field: included only when non-empty. */
  function NonEmpty(s: string): (o: Option<string>)
    ensures o.Some? <==> s != ""
    ensures o.Some? ==> o.value == s
  {
    if s != "" then Some(s) else None
  }

  /**
   * `Number.parseInt(searchParams.get("page") || "1", 10)`: a missing page is
   * page 1; `None` stands for NaN (a page parameter not starting with a digit).
   */
  function CurrentPage(params: Params): (p: Option<nat>)
    ensures "page" !in params || params["page"] == "" ==> p == Some(1)
  {
    assert "1" == NatToString(1);
    ParsePrintedNat(1);
    ParseDecimal(ParamOr(params, "page", "1"))
  }

  /** `b` has the same parameters as `a` apart from the names in `keys`. */
  ghost predicate AgreeExcept(a: Params, b: Params, keys: set<string>) {
    forall k :: k !in keys ==> (k in a <==> k in b) && (k in a && k in b ==> a[k] == b[k])
  }

  /** A search was applied: `q` set to a non-empty query or dropped for an empty one, page back to "1", nothing else touched. */
  ghost predicate SearchApplied(before: Params, query: string, after: Params) {
    && "page" in after && after["page"] == "1"
    && (query != "" ==> "q" in after && after["q"] == query)
    && (query == "" ==> "q" !in after)
    && AgreeExcept(before, after, {"q", "page"})
  }

  /** A sort order was chosen: `sort` set, page back to "1", nothing else touched. */
  ghost predicate SortApplied(before: Params, sort: string, after: Params) {
    && "sort" in after && after["sort"] == sort
    && "page" in after && after["page"] == "1"
    && AgreeExcept(before, after, {"sort", "page"})
  }

  /** A page was chosen: only `page` changes, to the page's decimal text. */
  ghost predicate PageApplied(before: Params, page: nat, after: Params) {
    && "page" in after && after["page"] == NatToString(page)
    && AgreeExcept(before, after, {"page"})
  }

  /** The search handler: set or delete `q`, then reset the page. */
  method ApplySearch(params: Params, query: string) returns (next: Params)
    ensures SearchApplied(params, query, next)
  {
    next := params;
    if query != "" {
      next := next["q" := query];
    } else {
      next := next - {"q"};
    }
    next := next["page" := "1"];
  }

  /** The sort (tab or filter) handler: set `sort`, then reset the page. */
  method ApplySort(params: Params, sort: string) returns (next: Params)
    ensures SortApplied(params, sort, next)
  {
    next := params;
    next := next["sort" := sort];
    next := next["page" := "1"];
  }

  /** The pagination handler: set `page` to `page.toString()`. */
  method ApplyPage(params: Params, page: nat) returns (next: Params)
    ensures PageApplied(params, page, next)
  {
    next := params;
    next := next["page" := NatToString(page)];
  }

  /** After a search the listing is on page 1 and reads back the query (empty when it was dropped). */
  lemma SearchResetsPage(before: Params, query: string, after: Params)
    requires SearchApplied(before, query, after)
    ensures CurrentPage(after) == Some(1)
    ensures ParamOr(after, "q", "") == query
  {
    ParsePrintedNat(1);
    assert NatToString(1) == "1";
  }

  /** After choosing a sort the listing is on page 1 and reads back the sort; the search is kept. */
  lemma SortResetsPage(before: Params, sort: string, fallback: string, after: Params)
    requires SortApplied(before, sort, after)
    ensures CurrentPage(after) == Some(1)
    ensures ParamOr(after, "sort", fallback) == if sort != "" then sort else fallback
    ensures ParamOr(after, "q", "") == ParamOr(before, "q", "")
  {
    ParsePrintedNat(1);
    assert NatToString(1) == "1";
  }

  /** Choosing page `n` and reading the page back gives `n`, and every other parameter reads as before. */
  lemma PageReadsBack(before: Params, n: nat, after: Params)
    requires PageApplied(before, n, after)
    ensures CurrentPage(after) == Some(n)
    ensures forall k, d :: k != "page" ==> ParamOr(after, k, d) == ParamOr(before, k, d)
  {
    ParsePrintedNat(n);
  }

  /**
   * `Math.ceil(total / pageSize)`: the fewest pages of `pageSize` items that
   * hold `total` items.
   */
  function TotalPages(total: nat, pageSize: nat): (pages: nat)
    requires pageSize > 0
    ensures pages * pageSize >= total
    ensures pages == 0 || (pages - 1) * pageSize < total
  {
    var q := (total + pageSize - 1) / pageSize;
    assert q * pageSize <= total + pageSize - 1 < (q + 1) * pageSize;
    q
  }

  /** No items means no pages, and any item means at least one. */
  lemma TotalPagesZeroIff(total: nat, pageSize: nat)
    requires pageSize > 0
    ensures TotalPages(total, pageSize) == 0 <==> total == 0
  {
  }
}
