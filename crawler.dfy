/**
 * The crawl coordinator (crawler/crawler.go:11-146). The goroutines and the
 * three result channels are replaced by `pending`, the sequence of workers
 * started and not yet answered; one iteration of the event loop takes any one
 * of them (the order the channels deliver in is not fixed), runs the worker and
 * applies its outcome.
 */
module Crawler {
  import opened Wrappers
  import opened Domain
  import opened Worker
  import opened FanOut
  import opened Coverage

  /**
   * Key `k` holds a page that a crawl from `target` with budget `depth` fetched
   * itself: with a budget `fetchDepth[k]` of one or more, from a URL on the
   * target's host at the end of a walk of exactly `depth - fetchDepth[k]` hops
   * from the target, hence at most `depth - 1` hops from it.
   */
  ghost predicate FreshlyStored(k: string, pages: map<string, Page>, fetchDepth: map<string, int>,
                                target: Url, depth: int, fetch: Fetcher) {
    && k in pages && k in fetchDepth
    && fetchDepth[k] >= 1
    && pages[k].url.str == k
    && pages[k].url.host == target.host
    && FetchedPage(pages[k], fetch)
    && Walk(pages[k].url, depth - fetchDepth[k], target, fetch)
    && Within(pages[k].url, depth - 1, target, fetch)
  }

  /** Every page stored with a budget of two or more had its links crawled: its URL is expanded. */
  ghost predicate BudgetsExpanded(pages: map<string, Page>, fetchDepth: map<string, int>, expanded: set<Url>) {
    forall k :: k in fetchDepth && fetchDepth[k] >= 2 ==> k in pages && pages[k].url in expanded
  }

  /** The budget each stored page was fetched with, after a result is applied. */
  function Record(fetchDepth: map<string, int>, r: Result): map<string, int> {
    match r.outcome
    case Completed(Some(_)) => fetchDepth[r.url.str := r.depth]
    case _ => fetchDepth
  }

  /**
   * What the event loop of a crawl from `target` with budget `depth` keeps,
   * `start` being the page map it began with.
   */
  ghost predicate CrawlInvariant(target: Url, depth: int, fetch: Fetcher, start: map<string, Page>,
                                 pages: map<string, Page>, fetchDepth: map<string, int>,
                                 pending: seq<Request>, expanded: set<Url>)
  {
    && Scoped(pending, target.host, depth)
    && Reached(pending, target, depth, fetch)
    && start.Keys <= pages.Keys
    && (forall k :: k in pages ==>
          (k in start && pages[k] == start[k]) || FreshlyStored(k, pages, fetchDepth, target, depth, fetch))
    && (depth <= 0 ==> pages == start)
    && (depth >= 1 ==> Covered(target, pages, pending, fetch))
    && (depth >= 2 && fetch(target).Fetched? ==> target in expanded || Request(target, depth) in pending)
    && (forall u :: u in expanded ==> u.str in pages && u.host == target.host)
    && Complete(expanded, pages, pending, target.host, fetch)
    && BudgetsExpanded(pages, fetchDepth, expanded)
  }

  /** Before the first iteration: only the root worker is in flight and nothing was stored yet. */
  lemma InitialInvariant(target: Url, depth: int, fetch: Fetcher, start: map<string, Page>, fetchDepth: map<string, int>)
    requires fetchDepth == map k | k in start :: 0
    ensures CrawlInvariant(target, depth, fetch, start, start, fetchDepth, [Request(target, depth)], {})
  {
    var pending := [Request(target, depth)];
    assert Walk(target, 0, target, fetch);
    if depth >= 1 {
      assert pending[0].url == target && pending[0].depth >= 1;
    }
  }

  /** Stored entries other than the one just written keep their page and budget. */
  lemma StoreKeepsOthers(k: string, pages: map<string, Page>, fetchDepth: map<string, int>, start: map<string, Page>,
                         target: Url, depth: int, fetch: Fetcher, r: Result)
    requires k in Store(pages, r) && (k != r.url.str || !r.outcome.Completed?)
    requires (k in start && pages[k] == start[k]) || FreshlyStored(k, pages, fetchDepth, target, depth, fetch)
    ensures (k in start && Store(pages, r)[k] == start[k])
            || FreshlyStored(k, Store(pages, r), Record(fetchDepth, r), target, depth, fetch)
    ensures k in pages && Store(pages, r)[k] == pages[k]
    ensures k in fetchDepth ==> Record(fetchDepth, r)[k] == fetchDepth[k]
  {
  }

  /** The entry a step writes holds a page fetched from the target's host with budget one or more. */
  lemma StoreWritesFresh(q: Request, pages: map<string, Page>, fetchDepth: map<string, int>, target: Url, depth: int, fetch: Fetcher)
    requires q.url.host == target.host && q.depth <= depth
    requires Walk(q.url, depth - q.depth, target, fetch)
    requires Crawl(q.url, q.depth, fetch).outcome.Completed?
    ensures var r := Crawl(q.url, q.depth, fetch);
            FreshlyStored(q.url.str, Store(pages, r), Record(fetchDepth, r), target, depth, fetch)
  {
    CompletedIsFetchedPage(q.url, q.depth, fetch);
    WalkWithin(q.url, depth - q.depth, target, fetch);
    WithinMono(q.url, depth - q.depth, depth - 1, target, fetch);
  }

  /** One step of the event loop keeps `CrawlInvariant`. */
  lemma StepKeepsInvariant(target: Url, depth: int, fetch: Fetcher, start: map<string, Page>,
                           pages: map<string, Page>, fetchDepth: map<string, int>,
                           pending: seq<Request>, expanded: set<Url>, i: nat)
    requires i < |pending|
    requires CrawlInvariant(target, depth, fetch, start, pages, fetchDepth, pending, expanded)
    ensures var r := Crawl(pending[i].url, pending[i].depth, fetch);
            CrawlInvariant(target, depth, fetch, start, Store(pages, r), Record(fetchDepth, r),
                           pending[..i] + pending[i + 1..] + Spawns(r, pages, target.host), Expand(expanded, r))
  {
    var q := pending[i];
    var r := Crawl(q.url, q.depth, fetch);
    var pending' := pending[..i] + pending[i + 1..] + Spawns(r, pages, target.host);
    ScopedAfterStep(pending, i, pages, target.host, depth, fetch);
    ReachedAfterStep(pending, i, pages, target, depth, fetch);
    StepKeepsComplete(expanded, pages, pending, i, target.host, fetch);
    forall k | k in Store(pages, r)
      ensures (k in start && Store(pages, r)[k] == start[k])
              || FreshlyStored(k, Store(pages, r), Record(fetchDepth, r), target, depth, fetch)
    {
      if k == r.url.str && r.outcome.Completed? {
        StoreWritesFresh(q, pages, fetchDepth, target, depth, fetch);
      } else {
        StoreKeepsOthers(k, pages, fetchDepth, start, target, depth, fetch, r);
      }
    }
    if depth <= 0 {
      assert !r.outcome.Completed?;
    }
    BudgetsAfterStep(pages, fetchDepth, expanded, q, fetch);
    if depth >= 1 {
      CoveredAfterStep(target, pages, pending, i, target.host, fetch);
    }
    if depth >= 2 && fetch(target).Fetched? && q != Request(target, depth) && target !in expanded {
      InAfterRemove(Request(target, depth), pending, i, Spawns(r, pages, target.host));
    }
  }

  /** Storing a result keeps `BudgetsExpanded`: a page stored with budget two or more is expanded with it. */
  lemma BudgetsAfterStep(pages: map<string, Page>, fetchDepth: map<string, int>, expanded: set<Url>,
                          q: Request, fetch: Fetcher)
    requires BudgetsExpanded(pages, fetchDepth, expanded)
    ensures var r := Crawl(q.url, q.depth, fetch);
            BudgetsExpanded(Store(pages, r), Record(fetchDepth, r), Expand(expanded, r))
  {
    var r := Crawl(q.url, q.depth, fetch);
    if r.outcome.Completed? {
      CompletedIsFetchedPage(q.url, q.depth, fetch);
    }
  }

  /** When nothing is in flight, the invariant gives what `Work` promises. */
  lemma IdleInvariant(target: Url, depth: int, fetch: Fetcher, start: map<string, Page>,
                      pages: map<string, Page>, fetchDepth: map<string, int>, expanded: set<Url>)
    requires CrawlInvariant(target, depth, fetch, start, pages, fetchDepth, [], expanded)
    ensures start.Keys <= pages.Keys
    ensures forall k :: k in pages ==>
              (k in start && pages[k] == start[k]) || FreshlyStored(k, pages, fetchDepth, target, depth, fetch)
    ensures depth <= 0 ==> pages == start
    ensures depth >= 1 ==> target.str in pages || fetch(target).FetchFailed?
    ensures depth >= 2 && fetch(target).Fetched? ==> target in expanded
    ensures forall u :: u in expanded ==> u.str in pages && u.host == target.host
    ensures forall u, v :: u in expanded && v in LinkedFrom(u, fetch) && v.host == target.host ==>
              v.str in pages || fetch(v).FetchFailed?
    ensures BudgetsExpanded(pages, fetchDepth, expanded)
  {
    assert !Awaited(target, []);
    CompleteWhenIdle(expanded, pages, target.host, fetch);
  }

  class Crawler {
    /** Completed pages keyed by the string of the URL they were fetched from. */
    var pages: map<string, Page>
    /** Workers started whose result has not yet been consumed. */
    var requestsInFlight: int
    /** Workers started, less those that were skipped. */
    var totalRequests: int
    /** The crawl's root; nil until `Work` sets it. */
    var target: Option<Url>
    /** The workers in flight, in the order they were started. */
    var pending: seq<Request>

    /** Bookkeeping for the proofs: how many workers were started, consumed, skipped, and stored a page. */
    ghost var spawned: nat
    ghost var consumed: nat
    ghost var skipped: nat
    ghost var stored: nat
    /**
     * The depth budget of the worker whose page is stored under each key
     * during the latest `Work`; zero for a page kept from before it.
     */
    ghost var fetchDepth: map<string, int>
    /** The URLs whose page was stored with a budget of two or more during the latest `Work`. */
    ghost var expanded: set<Url>

    /** The accounting that holds at every point of an iteration of the event loop. */
    ghost predicate Accounting()
      reads this
    {
      && requestsInFlight == |pending|
      && totalRequests == spawned - skipped
      && |pages| <= stored
      && pages.Keys == fetchDepth.Keys
    }

    /**
     * The accounting between iterations: every started worker is either in
     * flight or consumed, and each consumed one was skipped, stored a page, or
     * neither.
     */
    ghost predicate Valid()
      reads this
    {
      && Accounting()
      && spawned == consumed + |pending|
      && skipped + stored <= consumed
    }

    /** NewCrawler: empty maps, both counters at zero, nothing in flight. */
    constructor ()
      ensures Valid()
      ensures pages == map[] && pending == []
      ensures requestsInFlight == 0 && totalRequests == 0 && target == None
    {
      pages := map[];
      requestsInFlight, totalRequests := 0, 0;
      target := None;
      pending := [];
      spawned, consumed, skipped, stored := 0, 0, 0, 0;
      fetchDepth := map[];
      expanded := {};
    }

    /** The `Target` getter. */
    function Target(): Option<Url>
      reads this
    {
      target
    }

    /** The `TotalRequests` getter: every started worker that was not skipped. */
    function TotalRequests(): (n: int)
      requires Valid()
      reads this
      ensures n == spawned - skipped
      ensures n >= |pages| + |pending|
    {
      totalRequests
    }

    /** `go c.crawl(q.url, q.depth, fetcher)` followed by the two counter increments. */
    method Spawn(q: Request)
      requires Accounting()
      modifies this
      ensures Accounting()
      ensures pending == old(pending) + [q]
      ensures requestsInFlight == old(requestsInFlight) + 1
      ensures totalRequests == old(totalRequests) + 1
      ensures spawned == old(spawned) + 1
      ensures pages == old(pages) && target == old(target) && fetchDepth == old(fetchDepth)
      ensures expanded == old(expanded)
      ensures consumed == old(consumed) && skipped == old(skipped) && stored == old(stored)
    {
      pending := pending + [q];
      requestsInFlight := requestsInFlight + 1;
      totalRequests := totalRequests + 1;
      spawned := spawned + 1;
    }

    /** The link loop of a completed page: start a worker for each on-host link not yet stored. */
    method SpawnLinks(links: seq<Link>, depth: int)
      requires Accounting() && target.Some?
      modifies this
      ensures Accounting()
      ensures target == old(target)
      ensures spawned == old(spawned) + |ToSpawn(links, pages, target.value.host, depth)|
      ensures pending == old(pending) + ToSpawn(links, pages, target.value.host, depth)
      ensures requestsInFlight == old(requestsInFlight) + |ToSpawn(links, pages, target.value.host, depth)|
      ensures totalRequests == old(totalRequests) + |ToSpawn(links, pages, target.value.host, depth)|
      ensures pages == old(pages) && target == old(target) && fetchDepth == old(fetchDepth)
      ensures expanded == old(expanded)
      ensures consumed == old(consumed) && skipped == old(skipped) && stored == old(stored)
    {
      for k := 0 to |links|
        invariant Accounting()
        invariant pages == old(pages) && target == old(target) && fetchDepth == old(fetchDepth)
        invariant expanded == old(expanded)
        invariant spawned == old(spawned) + |ToSpawn(links[..k], pages, target.value.host, depth)|
        invariant consumed == old(consumed) && skipped == old(skipped) && stored == old(stored)
        invariant pending == old(pending) + ToSpawn(links[..k], pages, target.value.host, depth)
      {
        assert links[..k + 1][..k] == links[..k];
        var l := links[k];
        if l.target.host != target.value.host {
          continue;
        }
        if l.target.str in pages {
          continue;
        }
        Spawn(Request(l.target, depth));
      }
      assert links[..|links|] == links;
    }

    /**
     * One `select` arm (crawler/crawler.go:102-137): a skip gives back the
     * request it was counted as; an error, or a completion without a page,
     * changes nothing; a completion starts the workers for its links and then
     * stores the page under the string of the URL that was crawled.
     */
    method Apply(r: Result)
      requires Accounting() && target.Some?
      modifies this
      ensures Accounting()
      ensures target == old(target)
      ensures spawned == old(spawned) + |Spawns(r, old(pages), target.value.host)|
      ensures skipped == old(skipped) + (if r.outcome.Skipped? then 1 else 0)
      ensures stored == old(stored) + (if r.outcome.Completed? && r.outcome.page.Some? then 1 else 0)
      ensures pending == old(pending) + Spawns(r, old(pages), target.value.host)
      ensures totalRequests == old(totalRequests) + |Spawns(r, old(pages), target.value.host)|
                               - (if r.outcome.Skipped? then 1 else 0)
      ensures pages == Store(old(pages), r)
      ensures fetchDepth == Record(old(fetchDepth), r)
      ensures expanded == Expand(old(expanded), r)
      ensures consumed == old(consumed)
    {
      match r.outcome
      case Skipped =>
        totalRequests := totalRequests - 1;
        skipped := skipped + 1;
      case Errored(_) =>
      case Completed(page) =>
        if page.Some? {
          SpawnLinks(page.value.links, r.depth - 1);
          pages := pages[r.url.str := page.value];
          fetchDepth := fetchDepth[r.url.str := r.depth];
          stored := stored + 1;
          if r.depth >= 2 {
            expanded := expanded + {r.url};
          }
        }
    }

    /**
     * One iteration of the event loop: the worker for `pending[i]` runs and
     * its result is applied, then it leaves the in-flight set.
     */
    method Step(i: nat, fetch: Fetcher) returns (r: Result)
      requires Valid() && target.Some? && i < |pending|
      modifies this
      ensures Valid()
      ensures target == old(target)
      ensures r == Crawl(old(pending)[i].url, old(pending)[i].depth, fetch)
      ensures pending == old(pending)[..i] + old(pending)[i + 1..] + Spawns(r, old(pages), target.value.host)
      ensures requestsInFlight == old(requestsInFlight) - 1 + |Spawns(r, old(pages), target.value.host)|
      ensures totalRequests == old(totalRequests) + |Spawns(r, old(pages), target.value.host)|
                               - (if r.outcome.Skipped? then 1 else 0)
      ensures pages == Store(old(pages), r)
      ensures fetchDepth == Record(old(fetchDepth), r)
      ensures expanded == Expand(old(expanded), r)
    {
      var q := pending[i];
      r := Crawl(q.url, q.depth, fetch);
      ghost var before := pending;
      Apply(r);
      // The children were appended after position i, so index i is still q.
      assert pending == before + Spawns(r, old(pages), target.value.host);
      pending := pending[..i] + pending[i + 1..];
      assert pending == before[..i] + before[i + 1..] + Spawns(r, old(pages), target.value.host);
      requestsInFlight := requestsInFlight - 1;
      consumed := consumed + 1;
    }

    /**
     * The `for`/`select` loop of `Work` (crawler/crawler.go:99-146): consume
     * one result per iteration until nothing is in flight.
     */
    method EventLoop(target: Url, depth: int, fetch: Fetcher, ghost start: map<string, Page>)
      requires Valid() && this.target == Some(target)
      requires CrawlInvariant(target, depth, fetch, start, pages, fetchDepth, pending, expanded)
      modifies this
      ensures Valid() && this.target == Some(target)
      ensures requestsInFlight == 0 && pending == []
      ensures CrawlInvariant(target, depth, fetch, start, pages, fetchDepth, pending, expanded)
      ensures depth <= 0 ==> totalRequests == old(totalRequests) - |old(pending)|
    {
      while requestsInFlight != 0
        invariant Valid() && this.target == Some(target)
        invariant CrawlInvariant(target, depth, fetch, start, pages, fetchDepth, pending, expanded)
        invariant depth <= 0 ==> totalRequests == old(totalRequests) - |old(pending)| + |pending|
        decreases Measure(pending, fetch)
      {
        var i :| 0 <= i < |pending|;
        ghost var before, storedBefore, recordBefore, expandedBefore := pending, pages, fetchDepth, expanded;
        var r := Step(i, fetch);
        StepShrinks(before, i, storedBefore, target.host, fetch);
        StepKeepsInvariant(target, depth, fetch, start, storedBefore, recordBefore, before, expandedBefore, i);
      }
    }

    /**
     * Work: start the root worker, then consume results until nothing is in
     * flight. Every page it stores is on the target's host, is exactly what the
     * fetcher returned for that URL, and was fetched with a depth budget `b` of
     * at least one from the end of a walk of exactly `depth - b` hops from the
     * target; with a budget of zero or less nothing is stored and the request
     * count is unchanged; every page stored with budget two or more is expanded,
     * and every on-host link of an expanded page ends up stored or failed.
     */
    method Work(target: Url, depth: int, fetch: Fetcher)
      requires Valid() && requestsInFlight == 0
      modifies this
      ensures Valid()
      ensures requestsInFlight == 0 && pending == []
      ensures this.target == Some(target)
      ensures old(pages).Keys <= pages.Keys
      ensures forall k :: k in pages ==>
                (k in old(pages) && pages[k] == old(pages)[k]) || FreshlyStored(k, pages, fetchDepth, target, depth, fetch)
      ensures depth <= 0 ==> pages == old(pages) && totalRequests == old(totalRequests)
      ensures depth >= 1 ==> target.str in pages || fetch(target).FetchFailed?
      ensures depth >= 2 && fetch(target).Fetched? ==> target in expanded
      ensures forall u :: u in expanded ==> u.str in pages && u.host == target.host
      ensures forall u, v :: u in expanded && v in LinkedFrom(u, fetch) && v.host == target.host ==>
                v.str in pages || fetch(v).FetchFailed?
      ensures BudgetsExpanded(pages, fetchDepth, expanded)
    {
      this.target := Some(target);
      expanded := {};
      fetchDepth := map k | k in pages :: 0;
      assert fetchDepth.Keys == pages.Keys;
      Spawn(Request(target, depth));
      assert pending == [Request(target, depth)] && pages == old(pages);
      InitialInvariant(target, depth, fetch, pages, fetchDepth);
      EventLoop(target, depth, fetch, old(pages));
      IdleInvariant(target, depth, fetch, old(pages), pages, fetchDepth, expanded);
    }

    /**
     * AllPages: every stored page exactly once, in whatever order the map is
     * walked; `order` names the key each slot came from.
     */
    method AllPages() returns (all: seq<Page>, ghost order: seq<string>)
      ensures |all| == |order| == |pages|
      ensures forall j :: 0 <= j < |order| ==> order[j] in pages && all[j] == pages[order[j]]
      ensures forall k :: k in pages ==> k in order
      ensures forall j, j' :: 0 <= j < j' < |order| ==> order[j] != order[j']
    {
      var ret := new Page[|pages|];
      var rest := pages.Keys;
      var i := 0;
      order := [];
      while rest != {}
        invariant i == |order| && i + |rest| == |pages| == ret.Length
        invariant rest <= pages.Keys
        invariant forall k :: k in pages ==> (k in rest <==> k !in order)
        invariant forall j :: 0 <= j < i ==> order[j] in pages && ret[j] == pages[order[j]]
        invariant forall j, j' :: 0 <= j < j' < i ==> order[j] != order[j']
        decreases |rest|
      {
        var k :| k in rest;
        ret[i] := pages[k];
        order := order + [k];
        rest := rest - {k};
        i := i + 1;
      }
      all := ret[..];
    }
  }

  /**
   * A whole crawl as a client drives it: a fresh coordinator, one `Work` call,
   * then `AllPages` and `TotalRequests`. A budget of zero or less fetches
   * nothing and counts no request; otherwise every page returned is on the
   * target's host, within `depth - 1` hops of it, and exactly what the fetcher
   * returned for its URL, no URL appears twice, and the root is among them
   * unless fetching it failed.
   */
  method CrawlSite(target: Url, depth: int, fetch: Fetcher) returns (all: seq<Page>, total: int)
    ensures depth <= 0 ==> all == [] && total == 0
    ensures total >= |all|
    ensures forall p :: p in all ==>
              p.url.host == target.host && FetchedPage(p, fetch) && Within(p.url, depth - 1, target, fetch)
    ensures forall j, j' :: 0 <= j < j' < |all| ==> all[j].url.str != all[j'].url.str
    ensures depth >= 1 && fetch(target).Fetched? ==> exists p :: p in all && p.url == target
  {
    var c := new Crawler();
    c.Work(target, depth, fetch);
    ghost var order;
    all, order := c.AllPages();
    total := c.TotalRequests();
    forall p | p in all
      ensures p.url.host == target.host && FetchedPage(p, fetch) && Within(p.url, depth - 1, target, fetch)
    {
      var j :| 0 <= j < |all| && all[j] == p;
      assert FreshlyStored(order[j], c.pages, c.fetchDepth, target, depth, fetch);
    }
    forall j, j' | 0 <= j < j' < |all|
      ensures all[j].url.str != all[j'].url.str
    {
      assert FreshlyStored(order[j], c.pages, c.fetchDepth, target, depth, fetch);
      assert FreshlyStored(order[j'], c.pages, c.fetchDepth, target, depth, fetch);
    }
    if depth >= 1 && fetch(target).Fetched? {
      ghost var j :| 0 <= j < |order| && order[j] == target.str;
      assert FreshlyStored(order[j], c.pages, c.fetchDepth, target, depth, fetch);
      assert all[j] in all;
    }
  }

  /**
   * The canned site of crawler/crawler_test.go:36-71 crawled from its root
   * with a budget of two: the root and the one page it links to that the
   * fetcher knows are stored; /cmd/ fails, and /pkg/fmt/ and /pkg/os/ are
   * two hops away, beyond the budget.
   */
  method CrawlGolangSite() returns (keys: set<string>)
    ensures keys == {GoRoot.str, GoPkg.str}
  {
    var c := new Crawler();
    c.Work(GoRoot, 2, FakeFetch);
    keys := c.pages.Keys;
    assert FakeFetch(GoRoot).Fetched?;
    GolangPkgStored(c.pages, c.expanded);
    GolangStoredAtMost(c.pages, c.fetchDepth);
    TwoKeys(keys, GoRoot.str, GoPkg.str);
  }

  /** The root is expanded, so /pkg/, which it links to and which the fetcher knows, is stored. */
  lemma GolangPkgStored(pages: map<string, Page>, expanded: set<Url>)
    requires GoRoot in expanded
    requires forall u, v :: u in expanded && v in LinkedFrom(u, FakeFetch) && v.host == GoRoot.host ==>
               v.str in pages || FakeFetch(v).FetchFailed?
    ensures GoPkg.str in pages
  {
    assert GoPkg in LinkedFrom(GoRoot, FakeFetch);
    assert FakeFetch(GoPkg).Fetched?;
  }

  /** Only fetchable pages within one hop of the root can be stored. */
  lemma GolangStoredAtMost(pages: map<string, Page>, fetchDepth: map<string, int>)
    requires forall k :: k in pages ==> FreshlyStored(k, pages, fetchDepth, GoRoot, 2, FakeFetch)
    ensures forall k :: k in pages ==> k == GoRoot.str || k == GoPkg.str
  {
    forall k | k in pages
      ensures k == GoRoot.str || k == GoPkg.str
    {
      GolangOneHop(pages[k].url);
    }
  }

  /** In the canned site, the only fetchable URLs within one hop of the root are the root and /pkg/. */
  lemma GolangOneHop(u: Url)
    requires Within(u, 1, GoRoot, FakeFetch) && FakeFetch(u).Fetched?
    ensures u == GoRoot || u == GoPkg
  {
    if u != GoRoot {
      var w :| Within(w, 0, GoRoot, FakeFetch) && u in LinkedFrom(w, FakeFetch);
      assert u == GoPkg || u == GoCmd;
    }
  }

  // ---- A chain of three pages: coverage below the root ----

  const ChainA := Url("example.com", "http://example.com/a")
  const ChainB := Url("example.com", "http://example.com/b")
  const ChainC := Url("example.com", "http://example.com/c")

  /** A links to B, B links to C, C links nowhere; every other URL fails. */
  function ChainFetch(u: Url): FetchResult {
    if u == ChainA then Fetched([ChainB], [])
    else if u == ChainB then Fetched([ChainC], [])
    else if u == ChainC then Fetched([], [])
    else FetchFailed("not found: " + u.str)
  }

  /**
   * Crawling A with a budget of three stores all three pages: B is fetched
   * with budget two on every schedule, so its link to C is followed too.
   */
  method CrawlChain() returns (keys: set<string>)
    ensures keys == {ChainA.str, ChainB.str, ChainC.str}
  {
    var c := new Crawler();
    c.Work(ChainA, 3, ChainFetch);
    keys := c.pages.Keys;
    assert ChainFetch(ChainA).Fetched?;
    ChainBStored(c.pages, c.expanded);
    ChainBExpanded(c.pages, c.fetchDepth, c.expanded);
    ChainCStored(c.pages, c.expanded);
    ChainStoredAtMost(c.pages, c.fetchDepth);
    ThreeKeys(keys, ChainA.str, ChainB.str, ChainC.str);
  }

  /** Two keys, and nothing else. */
  lemma TwoKeys(keys: set<string>, a: string, b: string)
    requires a in keys && b in keys
    requires forall k :: k in keys ==> k == a || k == b
    ensures keys == {a, b}
  {
  }

  /** Three keys, and nothing else. */
  lemma ThreeKeys(keys: set<string>, a: string, b: string, c: string)
    requires a in keys && b in keys && c in keys
    requires forall k :: k in keys ==> k == a || k == b || k == c
    ensures keys == {a, b, c}
  {
  }

  /** A is expanded and links to B, which the fetcher knows, so B is stored. */
  lemma ChainBStored(pages: map<string, Page>, expanded: set<Url>)
    requires ChainA in expanded
    requires forall u, v :: u in expanded && v in LinkedFrom(u, ChainFetch) && v.host == ChainA.host ==>
               v.str in pages || ChainFetch(v).FetchFailed?
    ensures ChainB.str in pages
  {
    assert ChainB in LinkedFrom(ChainA, ChainFetch);
  }

  /** B is expanded and links to C, which the fetcher knows, so C is stored. */
  lemma ChainCStored(pages: map<string, Page>, expanded: set<Url>)
    requires ChainB in expanded
    requires forall u, v :: u in expanded && v in LinkedFrom(u, ChainFetch) && v.host == ChainA.host ==>
               v.str in pages || ChainFetch(v).FetchFailed?
    ensures ChainC.str in pages
  {
    assert ChainC in LinkedFrom(ChainB, ChainFetch);
  }

  /** B is stored with budget two, so it is expanded. */
  lemma ChainBExpanded(pages: map<string, Page>, fetchDepth: map<string, int>, expanded: set<Url>)
    requires ChainB.str in pages && forall k :: k in pages ==> FreshlyStored(k, pages, fetchDepth, ChainA, 3, ChainFetch)
    requires BudgetsExpanded(pages, fetchDepth, expanded)
    ensures ChainB in expanded
  {
    assert FreshlyStored(ChainB.str, pages, fetchDepth, ChainA, 3, ChainFetch);
    var u := pages[ChainB.str].url;
    assert u == ChainB;
    ChainBOneHop(3 - fetchDepth[ChainB.str]);
  }

  /** Only the three pages of the chain can be fetched, so only they can be stored. */
  lemma ChainStoredAtMost(pages: map<string, Page>, fetchDepth: map<string, int>)
    requires forall k :: k in pages ==> FreshlyStored(k, pages, fetchDepth, ChainA, 3, ChainFetch)
    ensures forall k :: k in pages ==> k == ChainA.str || k == ChainB.str || k == ChainC.str
  {
    forall k | k in pages
      ensures k == ChainA.str || k == ChainB.str || k == ChainC.str
    {
      assert FreshlyStored(k, pages, fetchDepth, ChainA, 3, ChainFetch);
      assert ChainFetch(pages[k].url).Fetched?;
    }
  }

  /** In the chain, B ends a walk from A of exactly one hop, and of no other length up to two. */
  lemma ChainBOneHop(n: int)
    requires Walk(ChainB, n, ChainA, ChainFetch) && n <= 2
    ensures n == 1
  {
  }
}
