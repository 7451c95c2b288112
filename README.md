# kraken — a verified model of the crawler core

kraken crawls one web site. A single coordinator (`Crawler.Work`) starts one
worker (`crawl`) per URL to visit. Each worker fetches its page through a
`Fetcher` and reports exactly one outcome: skipped, errored or completed. The
coordinator consumes these outcomes one at a time. For a completed page it
starts a worker at depth − 1 for every link that is on the target's host and
not yet stored. It then stores the page under its URL string, and it stops when
no worker is in flight.

The HTTP fetcher selects links from the page's anchors. It selects assets from
`img`, `script` and `<link>` elements. The sitemap package turns the stored
pages into a Sitemaps 0.9 XML document (sitemaps.org protocol) and into a
page-by-page structure for JSON output.

Files:

- `wrappers.dfy`: `Option`, the stand-in for Go's nil pointers.
- `domain.dfy`: the value types `Url`, `Link` and `Page`, and the outcome of a crawler `Fetcher`.
- `worker.dfy`: the worker as the pure function `Crawl`, and the `Result` and `Outcome` envelopes.
- `fanout.dfy`: the fan-out rule for a completed page (`ToSpawn`) and the termination measure of the crawl.
- `coverage.dfy`: what the crawl guarantees about reaching pages: hop distance, one level of link coverage, and the page map after a result.
- `crawler.dfy`: the `Crawler` class, with `NewCrawler`, the `Work` event loop, `AllPages` and the getters. It also holds the loop invariant, a client run, a crawl of the test site from `crawler_test.go`, and a crawl of a three-page chain.
- `fetcher.dfy`: `extractValidHref`, `extractLinks`, `extractAssets` and the error shape of `Fetch`.
- `sitemap.dfy`: `BuildXMLSitemap` and the projection made by `BuildJSONSiteStructure`.

How the model is shaped:

- **Goroutines and channels.** The workers in flight are a sequence `pending` of `(url, depth)` requests. One iteration of the event loop picks any one of them with `:|`, so every interleaving the channels allow is covered. It runs the worker and applies the outcome.
- **Termination.** Every iteration lowers a ghost measure: the total size of the crawl trees the pending requests could still unfold into, counted without deduplication.
- **Fetchers.** The crawler's `Fetcher` is a function from `Url` to `FetchResult`. `normaliseUrl` is the function parameter `normalise`. Loading and parsing a page is the parameter `load`.
- **Dates.** The sitemap date is a parameter.

## Model

| member | source | states |
|---|---|---|
| Worker.LinksFrom | crawler/crawler.go:175-181 | one `Link{source, u}` per fetched URL, same length, in fetch order |
| Worker.Crawl | crawler/crawler.go:150-192 | result carries the given URL and depth; Skipped iff depth ≤ 0; Errored iff depth > 0 and the fetch fails, with the fetch's error; Completed iff depth > 0 and the fetch succeeds, with a non-nil page whose URL is the source, whose assets are the fetched assets, and whose links are `Link{source, u}` for each fetched URL in order |
| Worker.CompletedIsFetchedPage | crawler/crawler.go:159-188 | a completed worker was given depth ≥ 1, and its page is exactly the page built from a successful fetch of the page's own URL |
| Worker.SkipIgnoresFetcher | crawler/crawler.go:158-163 | with depth ≤ 0 the result is Skipped whatever the fetcher, so the fetcher is never consulted |
| Worker.CrawlRootCompletes | crawler/crawler_test.go:73-111 | the test fetcher's root and /pkg/, crawled at depth 1, complete with links to exactly their canned URLs (/pkg/, /cmd/; and the root, /cmd/, /pkg/fmt/, /pkg/os/), in canned order |
| Worker.CrawlUnknownErrors | crawler/crawler_test.go:115-144 | any URL off the test site's host (both test URLs are) errors at depth 1 with "not found: " and its string |
| FanOut.ToSpawn | crawler/crawler.go:114-132 | every started worker has budget depth − 1, is on the target host and is not a stored key; each comes from a link; every link on the host whose target is not stored starts one; at most one per link |
| FanOut.SpawnedPerOccurrence | crawler/crawler.go:114-135 | dedup looks only at stored pages: a qualifying target is started once per occurrence among the links (duplicates and self-links included), and a non-qualifying one never |
| FanOut.ScopedAfterStep | crawler/crawler.go:114-131 | after a step every request in flight is still on the target host with a budget no larger than the root's |
| FanOut.SpawnsBound | crawler/crawler.go:129 | the workers a completed page starts weigh strictly less than the request that fetched it |
| FanOut.StepShrinks | crawler/crawler.go:100-145 | one iteration of the event loop strictly lowers the termination measure, so the loop ends |
| Coverage.SpawnsFromLinks | crawler/crawler.go:114-131 | every worker a completed page starts names a URL that page's fetch returned, with budget one less |
| Coverage.WithinMono | crawler/crawler.go:129 | a URL within n hops of the target is within any m ≥ n hops |
| Coverage.WalkWithin | crawler/crawler.go:129 | the end of a walk of exactly n hops from the target is within n hops, and n ≥ 0 |
| Coverage.ChildWalk | crawler/crawler.go:114-131 | a worker a completed page starts ends a walk one hop longer than its parent's, matching its budget one lower |
| Coverage.ReachedAfterStep | crawler/crawler.go:129 | a request with budget d names a URL at the end of a walk of exactly root-budget − d hops from the target, and this holds again after a step |
| Coverage.Store | crawler/crawler.go:135 | applying a result never removes a key from the page map |
| Coverage.CompleteWhenIdle | crawler/crawler.go:139-144 | when nothing is in flight, every on-host link of an expanded page is stored or fails to fetch |
| Coverage.CoveredAfterStep | crawler/crawler.go:102-137 | a link that was stored, failing, or awaited before a step still is afterwards |
| Coverage.ChildCovered | crawler/crawler.go:114-135 | after the link loop of a page fetched with budget ≥ 2, each of its on-host links is stored or has a worker with budget ≥ 1 in flight |
| Coverage.StepKeepsComplete | crawler/crawler.go:102-137 | one step keeps the one-level link coverage of every expanded page |
| Crawler.StoreKeepsOthers | crawler/crawler.go:135 | storing a result changes no other key's page or recorded budget, so such a key keeps the per-key invariant |
| Crawler.StoreWritesFresh | crawler/crawler.go:113-135 | the entry a completion writes is keyed by its URL string, on the target host, fetched with budget ≥ 1, exactly the fetched page, at the end of a walk of exactly depth − budget hops, and so within depth − 1 hops of the target |
| Crawler.BudgetsAfterStep | crawler/crawler.go:113-135 | after any step, every page stored with budget ≥ 2 has its URL among the pages whose links were crawled |
| Crawler.InitialInvariant | crawler/crawler.go:89-97 | with only the root worker in flight and nothing stored yet, the loop invariant holds |
| Crawler.IdleInvariant | crawler/crawler.go:139-144 | once nothing is in flight, the invariant gives: keys kept, new keys freshly fetched, root stored unless failing, and every on-host link of a page fetched with budget ≥ 2 stored or failing |
| Crawler.StepKeepsInvariant | crawler/crawler.go:100-145 | one iteration preserves the loop invariant: scoping, exact walk lengths, keys only grow, new keys are freshly fetched pages, depth ≤ 0 stores nothing, the root is stored or failing or awaited, coverage, and budget ≥ 2 pages expanded |
| Crawler.Crawler.constructor | crawler/crawler.go:38-54 | `NewCrawler`: empty page map, counters at zero, no target, nothing in flight |
| Crawler.Crawler.TotalRequests | crawler/crawler.go:73-75 | the total equals workers started minus workers skipped, and is at least the stored pages plus the workers in flight |
| Crawler.Crawler.Spawn | crawler/crawler.go:95-97 | starting a worker adds exactly one request and one to both `requestsInFlight` and `totalRequests` |
| Crawler.Crawler.SpawnLinks | crawler/crawler.go:114-132 | the link loop appends exactly `ToSpawn` of the page's links and adds its length to both counters; pages untouched |
| Crawler.Crawler.Apply | crawler/crawler.go:101-137 | Skipped: `totalRequests` − 1, pages untouched; Errored or nil page: nothing changes; completed page: its workers are started, then the page is stored under its URL string |
| Crawler.Crawler.Step | crawler/crawler.go:100-145 | one iteration: the chosen request leaves, its children join, `requestsInFlight` drops by one net of the children, and the accounting invariant holds |
| Crawler.Crawler.EventLoop | crawler/crawler.go:99-146 | the `for`/`select` loop runs until nothing is in flight and keeps the loop invariant; with depth ≤ 0 the total drops by exactly the requests that were in flight |
| Crawler.Crawler.Work | crawler/crawler.go:89-146 | returns with nothing in flight; existing keys kept; every new key is an on-host page fetched with budget b ≥ 1, exactly as fetched, at the end of a walk of exactly depth − b hops; depth ≤ 0 stores nothing and leaves the total unchanged; the root is stored unless its fetch fails; every page stored with budget ≥ 2 is expanded, and every on-host link of an expanded page is stored or fails |
| Crawler.Crawler.AllPages | crawler/crawler.go:56-67 | returns exactly `len(Pages)` pages, one per key, each key once, in map-walk order |
| Crawler.CrawlSite | crawler/crawler.go:38-97 | a fresh crawl: depth ≤ 0 returns no page and a total of 0; otherwise each page is on-host, exactly as fetched, within depth − 1 hops, no URL twice, the total bounds the page count, and the root is present unless its fetch fails |
| Crawler.CrawlGolangSite | crawler/crawler_test.go:36-71 | crawling the test site from its root with budget 2 stores exactly the root and /pkg/ |
| Crawler.GolangOneHop | crawler/crawler_test.go:36-71 | in the test site, the only fetchable URLs within one hop of the root are the root and /pkg/ |
| Crawler.CrawlChain | crawler/crawler.go:89-146 | on a chain A → B → C crawled from A with budget 3, exactly A, B and C are stored, on every schedule |
| Crawler.ChainBExpanded | crawler/crawler.go:113-135 | in the chain, B is fetched with budget 2 whenever it is stored, so its links are crawled |
| Crawler.ChainBOneHop | crawler/crawler.go:129 | in the chain, the only walk length from A to B up to two hops is one |
| HttpFetcher.FirstHref | fetcher.go:170-176 | none iff no attribute is a non-empty `href`; otherwise the value of the first one |
| HttpFetcher.ExtractValidHref | fetcher.go:161-177 | `InvalidNode` iff the node is nil, not an element, or not `a`; `InvalidNodeAttributeMissing` iff an anchor has no non-empty `href`; otherwise no error and the first non-empty `href` value; any error comes with `""` |
| HttpFetcher.ExtractValidHrefExamples | httpfetcher_test.go:13-90 | the test nodes give the expected href or error |
| HttpFetcher.AnchorTargetsAppend | fetcher.go:64-76 | link extraction distributes over concatenation of the node list, so document order is kept |
| HttpFetcher.AnchorTargetsMember | fetcher.go:64-76 | a URL is extracted iff some node is an anchor whose first non-empty `href` resolves to it |
| HttpFetcher.ExtractLinks | fetcher.go:51-79 | never an error; a nil selection gives no links; otherwise the resolved first `href` of each valid anchor that resolves, in document order |
| HttpFetcher.SrcAsset | fetcher.go:94-101 | none iff no attribute is a non-empty `src` that resolves; otherwise the resolution of the first such `src` |
| HttpFetcher.SrcAssets | fetcher.go:90-103 | at most one asset per node |
| HttpFetcher.SrcAssetsMember | fetcher.go:90-120 | a URL is an image (or script) asset iff it is the `src` asset of one non-nil node |
| HttpFetcher.SrcAssetsPrefix | fetcher.go:90-103 | each further node adds its own asset, or nothing |
| HttpFetcher.LastIndex | fetcher.go:132-141 | -1 iff no attribute has the key; otherwise the position of the last one with that key, which the overwriting loop keeps |
| HttpFetcher.LastValuePrefix | fetcher.go:132-141 | one more attribute replaces the value kept for its own key and leaves the other keys |
| HttpFetcher.LinkAssets | fetcher.go:124-155 | at most one asset per `<link>` node |
| HttpFetcher.LinkAssetsMember | fetcher.go:124-155 | a URL is a `<link>` asset iff one non-nil node contributes it under the `rel`/`type` rules |
| HttpFetcher.LinkAssetsPrefix | fetcher.go:124-155 | each further node adds its own asset, or nothing |
| HttpFetcher.FindSrc | fetcher.go:94-102 | the inner attribute loop with `break` returns exactly the first non-empty `src` that resolves |
| HttpFetcher.ScanLink | fetcher.go:130-154 | the attribute loop where the last `rel`, `type` and `href` win, then the stylesheet/shortcut-icon selection |
| HttpFetcher.ExtractAssets | fetcher.go:83-158 | never an error; image assets, then script assets, then `<link>` assets, each in document order |
| HttpFetcher.Fetch | fetcher.go:27-48 | a load failure gives no URLs, no assets and that error; otherwise the extracted links and assets and no error |
| Sitemap.EntryFields | sitemap/sitemap.go:22-28 | an entry is the fixed `<url>`/`<loc>` opening, the location, the `<lastmod>` opening, the date, and the fixed `daily`/`0.8` close, at fixed offsets, so the location and the date can be read back |
| Sitemap.EntriesAppend | sitemap/sitemap.go:45-50 | the entries of a concatenated page list are the entries of each part in order |
| Sitemap.EntriesPrefix | sitemap/sitemap.go:45-50 | each further page adds its own entry, or nothing when nil |
| Sitemap.EntriesOfNils | sitemap/sitemap.go:46-48 | nil pages write nothing |
| Sitemap.BuildXMLSitemap | sitemap/sitemap.go:38-56 | never an error; the output is the header, then one entry per non-nil page in input order, then the footer |
| Sitemap.FormatPage | sitemap/sitemap.go:66-79 | the formatted page has the page's URL string, and slot by slot its link targets' strings and its assets' strings, with the same lengths |
| Sitemap.BuildJSONSiteStructure | sitemap/sitemap.go:58-82 | `target` is the target's string; one formatted page per input page, in input order, each showing its page |

## Left out

- Goroutines, channels and `select`: modelled as a sequence of requests in flight from which each iteration takes any one. Real parallelism is not modelled. The nondeterminism of the pick covers every delivery order.
- Logging through seelog: it has no effect on the state.
- `goquery.NewDocument`, the HTTP GET, HTML parsing and `doc.Find`: replaced by the `load` parameter and a `Document` that lists the nodes each selector finds.
- `url.Parse`, `ResolveReference`, `URL.String` and `URL.Host` are the Go library's URL handling (section 5.2 of RFC 3986 for reference resolution). `normaliseUrl` is the uninterpreted parameter `normalise`, and a URL is a record of its host and its string. The two fields are independent, so the model admits two URLs with the same string and different hosts, which `url.URL` cannot produce; the all-inputs lemmas hold for that larger set too. The test fetcher `Worker.FakeFetch` matches whole records where the Go test keys on `target.String()`.
- `time.Now()` in the sitemap: the date is a parameter, shared by every entry. The source reads the clock once per entry (sitemap/sitemap.go:49), so entries written across midnight can carry different dates; the model does not capture that.
- `json.Marshal` and the error it can return: `BuildJSONSiteStructure` returns the structure handed to the encoder.
- httpfetcher.go is not part of this model: it redeclares `HttpFetcher` and cannot be built with fetcher.go. main.go is not part of this model either: it holds `main` and `Crawl`, which fetch one fixed URL over the network without the crawler package, plus earlier string-based copies of the link extraction.
- `Crawler.Links`: it is declared but never written.
- `Crawler.Target`: a plain getter, modelled without a contract.
- Sitemap.BuildXMLSitemap: a page is nil or not, but its URL is never nil in the model. The `p.Url == nil` half of the guard is therefore not modelled.
- Sitemap.BuildJSONSiteStructure: the source has no nil guard and would panic on a nil page or URL. The model's types exclude both.
- fetcher.go's `Fetcher` takes a URL string. The crawler's `Fetcher` (crawler/types.go) takes a `*url.URL`. The two are different interfaces, so `HttpFetcher.Fetch` and the crawler's `Fetcher` are modelled separately.
- HttpFetcher.Fetch: `extractLinks` and `extractAssets` never return an error. The two error returns after them are kept in the model but are dead code.
- The crawler's fetcher is a fixed function of the URL for one crawl. A fetcher that answers differently on a second fetch of the same URL is not modelled.
- Counters are unbounded integers. Go's `int` (64 bits on common platforms) cannot overflow at any reachable number of requests.
- Crawler.Crawler.Work: coverage is proved one level below each page fetched with a budget of two or more; the budget of each stored page is tied to the length of some walk from the target. A caller can tell which pages those are when every walk to a page within depth − 1 hops has the same length, as in `Crawler.CrawlChain`. In general the budget, and with it the final page set, depends on the order in which results arrive. It is not proved that every on-host page within depth − 1 hops is stored, because the source does not guarantee it. Dedup ignores the budget a page was fetched with, so a page first reached by a long path keeps its short budget. A later, shorter path to it is then deduplicated away.
- A page may be fetched more than once: dedup checks only stored pages at link-loop time, so a URL linked twice, or linked again while its worker is in flight, is fetched again, and `Pages` keeps the later page (`FanOut.SpawnedPerOccurrence`, `Crawler.StoreKeepsOthers`).
- Errored URLs are never stored, so a later link to one starts a new worker.
