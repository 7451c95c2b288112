/**
 * The coordinator's fan-out policy for a completed page (crawler/crawler.go:113-132)
 * as a pure function, and the termination measure of the crawl: the size of the
 * crawl tree a request would unfold into if nothing were ever deduplicated.
 */
module FanOut {
  import opened Wrappers
  import opened Domain
  import opened Worker

  /** A discovered link is crawled when it is on the target's host and its string is not yet a key of `pages`. */
  predicate ShouldSpawn(l: Link, pages: map<string, Page>, host: string) {
    l.target.host == host && l.target.str !in pages
  }

  /**
   * The workers started for `links`, in link order, each with budget `depth`.
   * `pages` is the page map as it stands during the whole link loop: the page
   * being processed is stored only after the loop.
   */
  function ToSpawn(links: seq<Link>, pages: map<string, Page>, host: string, depth: int): (r: seq<Request>)
    ensures |r| <= |links|
    ensures forall q :: q in r ==> q.depth == depth && q.url.host == host && q.url.str !in pages
    ensures forall q :: q in r ==> exists l :: l in links && l.target == q.url
    ensures forall l :: l in links && ShouldSpawn(l, pages, host) ==> Request(l.target, depth) in r
  {
    if links == [] then []
    else
      var last := links[|links| - 1];
      ToSpawn(links[..|links| - 1], pages, host, depth)
        + (if ShouldSpawn(last, pages, host) then [Request(last.target, depth)] else [])
  }

  /** The workers a result leads the coordinator to start. */
  function Spawns(r: Result, pages: map<string, Page>, host: string): seq<Request> {
    match r.outcome
    case Completed(Some(p)) => ToSpawn(p.links, pages, host, r.depth - 1)
    case _ => []
  }

  /** Every request in flight is on `host` and has a budget of at most `depth`. */
  ghost predicate Scoped(pending: seq<Request>, host: string, depth: int) {
    forall j :: 0 <= j < |pending| ==> pending[j].url.host == host && pending[j].depth <= depth
  }

  /** The children of a request stay on the host, with one less budget than their parent. */
  lemma {:induction false} ScopedAfterStep(pending: seq<Request>, i: nat, pages: map<string, Page>, host: string, depth: int, fetch: Fetcher)
    requires i < |pending| && Scoped(pending, host, depth)
    ensures Scoped(pending[..i] + pending[i + 1..]
                     + Spawns(Crawl(pending[i].url, pending[i].depth, fetch), pages, host), host, depth)
  {
    var q := pending[i];
    var kids: seq<Request> := Spawns(Crawl(q.url, q.depth, fetch), pages, host);
    var rest: seq<Request> := pending[..i] + pending[i + 1..];
    var after := rest + kids;
    forall j | 0 <= j < |after|
      ensures after[j].url.host == host && after[j].depth <= depth
    {
      if j < i {
        assert after[j] == pending[j];
      } else if j < |rest| {
        assert after[j] == pending[j + 1];
      } else {
        assert after[j] == kids[j - |rest|];
        assert kids[j - |rest|] in kids;
      }
    }
  }

  /** The number of links in `links` whose target is `u`. */
  function Count(links: seq<Link>, u: Url): nat {
    if links == [] then 0
    else Count(links[..|links| - 1], u) + (if links[|links| - 1].target == u then 1 else 0)
  }

  /**
   * Dedup looks only at stored pages, so a link that qualifies is spawned once
   * per occurrence: duplicated links and links to pages still in flight are
   * all crawled again.
   */
  lemma {:induction false} SpawnedPerOccurrence(links: seq<Link>, pages: map<string, Page>, host: string, depth: int, u: Url)
    ensures multiset(ToSpawn(links, pages, host, depth))[Request(u, depth)]
         == if u.host == host && u.str !in pages then Count(links, u) else 0
  {
    if links != [] {
      SpawnedPerOccurrence(links[..|links| - 1], pages, host, depth, u);
    }
  }

  // ---- Termination measure ----

  /** Requests a crawl from `u` with budget `depth` can unfold into, counting the request itself. */
  ghost function TreeSize(u: Url, depth: int, fetch: Fetcher): (n: nat)
    ensures n >= 1
    decreases depth, 0, 0
  {
    if depth <= 0 then 1
    else match fetch(u)
      case FetchFailed(_) => 1
      case Fetched(urls, _) => 1 + ForestSize(urls, depth - 1, fetch)
  }

  /** The sum of `TreeSize` over `us`, all with budget `depth`. */
  ghost function ForestSize(us: seq<Url>, depth: int, fetch: Fetcher): nat
    decreases depth, 1, |us|
  {
    if us == [] then 0
    else ForestSize(us[..|us| - 1], depth, fetch) + TreeSize(us[|us| - 1], depth, fetch)
  }

  /** The sum of `TreeSize` over pending requests: it drops with every step of the coordinator. */
  ghost function Measure(pending: seq<Request>, fetch: Fetcher): nat {
    if pending == [] then 0
    else
      var q := pending[|pending| - 1];
      Measure(pending[..|pending| - 1], fetch) + TreeSize(q.url, q.depth, fetch)
  }

  /** The measure of a concatenation is the sum of the measures of its parts. */
  lemma {:induction false} MeasureAppend(a: seq<Request>, b: seq<Request>, fetch: Fetcher)
    ensures Measure(a + b, fetch) == Measure(a, fetch) + Measure(b, fetch)
  {
    if b != [] {
      assert (a + b)[..|a + b| - 1] == a + b[..|b| - 1];
      MeasureAppend(a, b[..|b| - 1], fetch);
    } else {
      assert a + b == a;
    }
  }

  /** The children of a fetched page never outweigh the subtrees of its URLs. */
  lemma {:induction false} ToSpawnBound(source: Url, urls: seq<Url>, pages: map<string, Page>, host: string, depth: int, fetch: Fetcher)
    ensures Measure(ToSpawn(LinksFrom(source, urls), pages, host, depth), fetch) <= ForestSize(urls, depth, fetch)
  {
    if urls != [] {
      var init := urls[..|urls| - 1];
      var links := LinksFrom(source, urls);
      assert links[..|links| - 1] == LinksFrom(source, init);
      ToSpawnBound(source, init, pages, host, depth, fetch);
      var last := links[|links| - 1];
      var rest := ToSpawn(LinksFrom(source, init), pages, host, depth);
      if ShouldSpawn(last, pages, host) {
        MeasureAppend(rest, [Request(last.target, depth)], fetch);
        assert [Request(last.target, depth)][..0] == [];
      } else {
        assert rest + [] == rest;
      }
    }
  }

  /** The children of a request always weigh less than the request itself. */
  lemma SpawnsBound(q: Request, pages: map<string, Page>, host: string, fetch: Fetcher)
    ensures Measure(Spawns(Crawl(q.url, q.depth, fetch), pages, host), fetch) < TreeSize(q.url, q.depth, fetch)
  {
    var kids := Spawns(Crawl(q.url, q.depth, fetch), pages, host);
    if q.depth > 0 && fetch(q.url).Fetched? {
      var urls := fetch(q.url).urls;
      var forest := ForestSize(urls, q.depth - 1, fetch);
      assert kids == ToSpawn(LinksFrom(q.url, urls), pages, host, q.depth - 1) by {
        assert Crawl(q.url, q.depth, fetch).outcome == Completed(Some(PageOf(q.url, urls, fetch(q.url).assets)));
      }
      assert Measure(kids, fetch) <= forest by {
        ToSpawnBound(q.url, urls, pages, host, q.depth - 1, fetch);
      }
      assert TreeSize(q.url, q.depth, fetch) == 1 + forest;
    } else {
      assert kids == [] by {
        assert !Crawl(q.url, q.depth, fetch).outcome.Completed?;
      }
    }
  }

  /** Taking `q` out from between `a` and `b` lowers the measure by exactly `q`'s tree. */
  lemma MeasureRemove(a: seq<Request>, q: Request, b: seq<Request>, fetch: Fetcher)
    ensures Measure(a + [q] + b, fetch) == Measure(a + b, fetch) + TreeSize(q.url, q.depth, fetch)
  {
    MeasureAppend(a + [q], b, fetch);
    MeasureAppend(a, [q], fetch);
    assert [q][..0] == [];
    MeasureAppend(a, b, fetch);
  }

  /** One coordinator step (consume request `i`, start its children) strictly lowers the measure. */
  lemma StepShrinks(pending: seq<Request>, i: nat, pages: map<string, Page>, host: string, fetch: Fetcher)
    requires i < |pending|
    ensures Measure(pending[..i] + pending[i + 1..]
                      + Spawns(Crawl(pending[i].url, pending[i].depth, fetch), pages, host), fetch)
          < Measure(pending, fetch)
  {
    var q, a, b := pending[i], pending[..i], pending[i + 1..];
    assert pending == a + [q] + b;
    MeasureRemove(a, q, b, fetch);
    MeasureAppend(a + b, Spawns(Crawl(q.url, q.depth, fetch), pages, host), fetch);
    SpawnsBound(q, pages, host, fetch);
  }
}
