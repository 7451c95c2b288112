/**
 * The crawl worker (`Crawler.crawl`, crawler/crawler.go:150-192) and the
 * envelope it reports back. In the source a worker is a goroutine that ends by
 * sending one `*Result` on one of three channels; here the three channels are
 * one tagged `Outcome` and the send is the function's result.
 */
module Worker {
  import opened Wrappers
  import opened Domain

  /** A started worker not yet answered: `go c.crawl(url, depth, fetcher)`. */
  datatype Request = Request(url: Url, depth: int)

  /** Which channel the result is sent on: `skipped`, `errored` or `completed`. */
  datatype Outcome =
    | Skipped
    | Errored(error: string)
    | Completed(page: Option<Page>)

  /** The `Result` struct: the URL attempted, the depth budget it was given, the outcome. */
  datatype Result = Result(url: Url, depth: int, outcome: Outcome)

  /** The links built from a fetch of `source`, one per fetched URL, in fetch order. */
  function LinksFrom(source: Url, urls: seq<Url>): (links: seq<Link>)
    ensures |links| == |urls|
    ensures forall i :: 0 <= i < |urls| ==> links[i] == Link(source, urls[i])
  {
    if urls == [] then []
    else LinksFrom(source, urls[..|urls| - 1]) + [Link(source, urls[|urls| - 1])]
  }

  /** The page a worker assembles from a successful fetch of `source`. */
  function PageOf(source: Url, urls: seq<Url>, assets: seq<Url>): Page {
    Page(source, LinksFrom(source, urls), assets)
  }

  /** `p` is exactly what a successful fetch of its own URL yields. */
  ghost predicate FetchedPage(p: Page, fetch: Fetcher) {
    && fetch(p.url).Fetched?
    && p == PageOf(p.url, fetch(p.url).urls, fetch(p.url).assets)
  }

  /**
   * One worker: skip when the depth budget is spent, otherwise fetch and
   * report either the error or the assembled page. Exactly one outcome per call.
   */
  function Crawl(source: Url, depth: int, fetch: Fetcher): (r: Result)
    ensures r.url == source && r.depth == depth
    ensures r.outcome.Skipped? <==> depth <= 0
    ensures r.outcome.Errored? <==> depth > 0 && fetch(source).FetchFailed?
    ensures r.outcome.Errored? ==> r.outcome.error == fetch(source).cause
    ensures r.outcome.Completed? <==> depth > 0 && fetch(source).Fetched?
    ensures r.outcome.Completed? ==>
              && r.outcome.page.Some?
              && r.outcome.page.value.url == source
              && r.outcome.page.value.assets == fetch(source).assets
              && |r.outcome.page.value.links| == |fetch(source).urls|
              && (forall i :: 0 <= i < |fetch(source).urls| ==>
                    r.outcome.page.value.links[i] == Link(source, fetch(source).urls[i]))
  {
    if depth <= 0 then
      Result(source, depth, Skipped)
    else
      match fetch(source)
      case FetchFailed(e) => Result(source, depth, Errored(e))
      case Fetched(urls, assets) => Result(source, depth, Completed(Some(PageOf(source, urls, assets))))
  }

  /** A completed outcome always carries the page of the URL it was given, built from the fetch. */
  lemma CompletedIsFetchedPage(source: Url, depth: int, fetch: Fetcher)
    requires Crawl(source, depth, fetch).outcome.Completed?
    ensures FetchedPage(Crawl(source, depth, fetch).outcome.page.value, fetch)
    ensures depth >= 1
  {
  }

  /** With no depth budget left the fetcher is never consulted: any two fetchers give the same result. */
  lemma SkipIgnoresFetcher(source: Url, depth: int, f: Fetcher, g: Fetcher)
    requires depth <= 0
    ensures Crawl(source, depth, f) == Crawl(source, depth, g) == Result(source, depth, Skipped)
  {
  }

  // The canned site of crawler/crawler_test.go:36-71, restricted to the two
  // pages TestCrawlSuccess crawls, and the two URLs TestCrawlError uses.

  const GoRoot := Url("golang.org", "http://golang.org/")
  const GoPkg := Url("golang.org", "http://golang.org/pkg/")
  const GoCmd := Url("golang.org", "http://golang.org/cmd/")
  const GoFmt := Url("golang.org", "http://golang.org/pkg/fmt/")
  const GoOs := Url("golang.org", "http://golang.org/pkg/os/")

  /**
   * The canned test fetcher. It matches whole URL records; the test's fetcher
   * keys on the URL's string, which agrees on every URL `url.URL` can produce.
   */
  function FakeFetch(u: Url): FetchResult {
    if u == GoRoot then Fetched([GoPkg, GoCmd], [])
    else if u == GoPkg then Fetched([GoRoot, GoCmd, GoFmt, GoOs], [])
    else if u == GoFmt || u == GoOs then Fetched([GoRoot, GoPkg], [])
    else FetchFailed("not found: " + u.str)
  }

  /** TestCrawlSuccess: at depth 1 the root and /pkg/ complete with one link per canned URL, in order. */
  lemma CrawlRootCompletes()
    ensures Crawl(GoRoot, 1, FakeFetch).outcome
         == Completed(Some(Page(GoRoot, [Link(GoRoot, GoPkg), Link(GoRoot, GoCmd)], [])))
    ensures Crawl(GoPkg, 1, FakeFetch).outcome
         == Completed(Some(Page(GoPkg, [Link(GoPkg, GoRoot), Link(GoPkg, GoCmd), Link(GoPkg, GoFmt), Link(GoPkg, GoOs)], [])))
  {
    var r := Crawl(GoRoot, 1, FakeFetch);
    assert r.outcome.page.value.links == [Link(GoRoot, GoPkg), Link(GoRoot, GoCmd)];
    var p := Crawl(GoPkg, 1, FakeFetch);
    assert p.outcome.page.value.links
        == [Link(GoPkg, GoRoot), Link(GoPkg, GoCmd), Link(GoPkg, GoFmt), Link(GoPkg, GoOs)];
  }

  /** TestCrawlError: a URL off the canned site (both test URLs are) errors, with the fetcher's cause. */
  lemma CrawlUnknownErrors(u: Url)
    requires u.host != GoRoot.host
    ensures Crawl(u, 1, FakeFetch).outcome == Errored("not found: " + u.str)
  {
    assert u != GoRoot && u != GoPkg && u != GoFmt && u != GoOs;
  }
}
