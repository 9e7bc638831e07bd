/**
 * The planet catalog fetcher: follow the `next` links from the root page and
 * concatenate every page's planets, failing as a whole on any failed page.
 */
module Catalog {
  import opened Wrappers
  import opened Shapes

  /** The planets of a run of pages, in page order and, within a page, in page order. */
  function Flatten(pages: seq<PlanetsResponse>): seq<Planet>
  {
    if pages == [] then [] else pages[0].results + Flatten(pages[1..])
  }

  /**
   * Fetching from `uri` and following each page's `next` link successfully
   * returns `pages`, one after the other, and the link after the last of them
   * is `end`. Every URI requested on the way is non-empty.
   */
  ghost predicate Walk(fetch: PageFetcher, uri: Uri, pages: seq<PlanetsResponse>, end: Uri)
    decreases |pages|
  {
    if pages == [] then uri == end
    else uri != "" && fetch(uri) == Ok(pages[0]) && Walk(fetch, pages[0].next, pages[1..], end)
  }

  /**
   * What the pagination loop computes from `uri` when at most `fuel` more
   * pages may be fetched: the planets of all pages up to the one whose `next`
   * is empty, or the first error. Running out of fuel is an error.
   */
  function Paginate(fetch: PageFetcher, uri: Uri, fuel: nat): Result<seq<Planet>, CatalogError>
    decreases fuel
  {
    if uri == "" then Ok([])
    else if fuel == 0 then Err(PageLimitExceeded)
    else
      match fetch(uri)
      case Err(e) => Err(Upstream(e))
      case Ok(page) => Prepend(page.results, Paginate(fetch, page.next, fuel - 1))
  }

  /**
   * The pagination loop. It starts at the root page and fetches at most
   * `maxPages` pages; a chain of `next` links longer than that fails closed.
   */
  method GetPlanetsList(fetch: PageFetcher, maxPages: nat) returns (r: Result<seq<Planet>, CatalogError>)
    ensures r == Paginate(fetch, RootUri, maxPages)
  {
    var planets: seq<Planet> := [];
    var uri := RootUri;
    var left := maxPages;
    PrependNothing(Paginate(fetch, uri, left));
    while uri != ""
      invariant Paginate(fetch, RootUri, maxPages) == Prepend(planets, Paginate(fetch, uri, left))
      decreases left
    {
      if left == 0 {
        return Err(PageLimitExceeded);
      }
      var page: PlanetsResponse;
      match fetch(uri) {
        case Err(e) => return Err(Upstream(e));
        case Ok(p) => page := p;
      }
      PrependTwice(planets, page.results, Paginate(fetch, page.next, left - 1));
      uri := page.next;
      planets := planets + page.results;
      left := left - 1;
    }
    assert planets + [] == planets;
    return Ok(planets);
  }

  /**
   * Completeness: when the chain of `next` links from `uri` reaches "" after
   * the pages `pages`, and the budget covers them, pagination succeeds with
   * exactly their planets concatenated in page order.
   */
  lemma {:induction false} PaginateComplete(fetch: PageFetcher, uri: Uri, pages: seq<PlanetsResponse>, fuel: nat)
    requires Walk(fetch, uri, pages, "")
    requires |pages| <= fuel
    ensures Paginate(fetch, uri, fuel) == Ok(Flatten(pages))
    decreases |pages|
  {
    if pages != [] {
      PaginateComplete(fetch, pages[0].next, pages[1..], fuel - 1);
    }
  }

  /**
   * Soundness: a successful pagination fetched a chain of pages that ends
   * with an empty `next`, no longer than the budget, and its result is the
   * concatenation of those pages' planets.
   */
  lemma {:induction false} PaginateSound(fetch: PageFetcher, uri: Uri, fuel: nat)
    requires Paginate(fetch, uri, fuel).Ok?
    ensures exists pages :: Walk(fetch, uri, pages, "") && |pages| <= fuel
                            && Paginate(fetch, uri, fuel).value == Flatten(pages)
    decreases fuel
  {
    if uri == "" {
      assert Walk(fetch, uri, [], "") && Flatten([]) == [];
    } else {
      var page := fetch(uri).value;
      PaginateSound(fetch, page.next, fuel - 1);
      var rest :| Walk(fetch, page.next, rest, "") && |rest| <= fuel - 1
                  && Paginate(fetch, page.next, fuel - 1).value == Flatten(rest);
      var pages := [page] + rest;
      assert pages[1..] == rest;
      assert Walk(fetch, uri, pages, "");
    }
  }

  /**
   * Pagination stops exactly at the first page whose `next` is empty: two
   * chains from the same URI that both end at "" are the same chain.
   */
  lemma {:induction false} WalkToEndUnique(fetch: PageFetcher, uri: Uri, p: seq<PlanetsResponse>, q: seq<PlanetsResponse>)
    requires Walk(fetch, uri, p, "") && Walk(fetch, uri, q, "")
    ensures p == q
    decreases |p|
  {
    if p != [] && q != [] {
      WalkToEndUnique(fetch, p[0].next, p[1..], q[1..]);
      assert p == [p[0]] + p[1..] && q == [q[0]] + q[1..];
    }
  }

  /**
   * All or nothing: when the pages up to some URI were fetched and the fetch
   * of that URI fails, pagination returns that very error and no planets.
   */
  lemma {:induction false} PaginateFailure(fetch: PageFetcher, uri: Uri, pages: seq<PlanetsResponse>, bad: Uri, fuel: nat)
    requires Walk(fetch, uri, pages, bad)
    requires bad != "" && fetch(bad).Err?
    requires |pages| < fuel
    ensures Paginate(fetch, uri, fuel) == Err(Upstream(fetch(bad).error))
    decreases |pages|
  {
    if pages != [] {
      PaginateFailure(fetch, pages[0].next, pages[1..], bad, fuel - 1);
    }
  }

  /**
   * Failing closed: a chain of `next` links that is still non-empty after
   * `fuel` pages (in particular a cycle) ends in PageLimitExceeded rather
   * than in a loop that never stops.
   */
  lemma {:induction false} PaginateLimit(fetch: PageFetcher, uri: Uri, pages: seq<PlanetsResponse>, after: Uri, fuel: nat)
    requires Walk(fetch, uri, pages, after)
    requires after != "" && |pages| == fuel
    ensures Paginate(fetch, uri, fuel) == Err(PageLimitExceeded)
    decreases |pages|
  {
    if pages != [] {
      PaginateLimit(fetch, pages[0].next, pages[1..], after, fuel - 1);
    }
  }

  /**
   * Conversely, PageLimitExceeded arises only from the budget: the chain
   * followed was fetched successfully for `fuel` pages and its link after
   * them is still non-empty.
   */
  lemma {:induction false} PaginateLimitOnly(fetch: PageFetcher, uri: Uri, fuel: nat)
    requires Paginate(fetch, uri, fuel) == Err(PageLimitExceeded)
    ensures exists pages, after :: Walk(fetch, uri, pages, after) && after != "" && |pages| == fuel
    decreases fuel
  {
    if fuel == 0 {
      assert Walk(fetch, uri, [], uri);
    } else {
      var page := fetch(uri).value;
      PaginateLimitOnly(fetch, page.next, fuel - 1);
      var rest, after :| Walk(fetch, page.next, rest, after) && after != "" && |rest| == fuel - 1;
      var pages := [page] + rest;
      assert pages[1..] == rest;
      assert Walk(fetch, uri, pages, after);
    }
  }

  /** A catalog whose root page has an empty `next` yields exactly that page's planets. */
  lemma SinglePage(fetch: PageFetcher, maxPages: nat)
    requires fetch(RootUri).Ok? && fetch(RootUri).value.next == ""
    requires maxPages >= 1
    ensures Paginate(fetch, RootUri, maxPages) == Ok(fetch(RootUri).value.results)
  {
    var page := fetch(RootUri).value;
    assert [page][1..] == [];
    assert Walk(fetch, RootUri, [page], "");
    PaginateComplete(fetch, RootUri, [page], maxPages);
    assert Flatten([page]) == page.results + [] == page.results;
  }
}
