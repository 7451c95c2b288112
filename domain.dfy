/**
 * The crawl's value types (domain/types.go) and the outcome of the Fetcher
 * capability the crawler is written against (crawler/types.go).
 */
module Domain {

  /**
   * An absolute URL, abstracted to the two things the crawler looks at:
   * its host (`URL.Host`) and its canonical string form (`URL.String()`).
   * The two fields are independent here, a superset of what `url.URL` can
   * produce (one string, one host).
   */
  datatype Url = Url(host: string, str: string)

  /** A directed edge from the page it was found on to the page it names. */
  datatype Link = Link(source: Url, target: Url)

  /** One fetched document: its URL, its outbound links in document order, its assets. */
  datatype Page = Page(url: Url, links: seq<Link>, assets: seq<Url>)

  /**
   * What `Fetcher.Fetch` hands back: the URLs and assets found on the page,
   * or the error that stopped it (the slices returned beside a non-nil
   * error are never read, so they are not kept).
   */
  datatype FetchResult =
    | Fetched(urls: seq<Url>, assets: seq<Url>)
    | FetchFailed(cause: string)

  /**
   * The Fetcher interface as a function of the URL. A real fetcher does I/O;
   * the model fixes its answer per URL for the duration of one crawl.
   */
  type Fetcher = Url -> FetchResult

  /** Appending to an accumulated output regroups: the builders use this to keep their prefix invariants. */
  lemma Regroup<T>(a: seq<T>, b: seq<T>, c: seq<T>)
    ensures (a + b) + c == a + (b + c)
  {
  }
}
