/**
 * What one level of the crawl guarantees. When a page is fetched with a depth
 * budget of two or more, each of its on-host links is, by the time the event
 * loop is idle, either stored or a URL the fetcher fails on: at fan-out time
 * it was already stored, or a worker with budget one or more was started for
 * it. (Nothing deeper is guaranteed: dedup ignores the budget a page was
 * fetched with, so a page first reached by a long path keeps the short budget
 * it was fetched with there.)
 */
module Coverage {
  import opened Wrappers
  import opened Domain
  import opened Worker
  import opened FanOut

  /** The URLs a successful fetch of `u` returns (none when it fails). */
  function LinkedFrom(u: Url, fetch: Fetcher): seq<Url> {
    if fetch(u).Fetched? then fetch(u).urls else []
  }

  /** `u` is `target`, or is returned by a successful fetch of a URL that is itself within `n - 1` hops. */
  ghost predicate Within(u: Url, n: int, target: Url, fetch: Fetcher)
    decreases n
  {
    u == target || (n > 0 && exists w :: Within(w, n - 1, target, fetch) && u in LinkedFrom(w, fetch))
  }

  lemma {:induction false} WithinMono(u: Url, n: int, m: int, target: Url, fetch: Fetcher)
    requires Within(u, n, target, fetch) && n <= m
    ensures Within(u, m, target, fetch)
    decreases n
  {
    if u != target {
      var w :| Within(w, n - 1, target, fetch) && u in LinkedFrom(w, fetch);
      WithinMono(w, n - 1, m - 1, target, fetch);
    }
  }

  /** `u` ends a walk of exactly `n` hops from `target`, each hop a URL returned by a successful fetch. */
  ghost predicate Walk(u: Url, n: int, target: Url, fetch: Fetcher)
    decreases n
  {
    (n == 0 && u == target) || (n > 0 && exists w :: Walk(w, n - 1, target, fetch) && u in LinkedFrom(w, fetch))
  }

  /** The end of an `n`-hop walk is within `n` hops. */
  lemma {:induction false} WalkWithin(u: Url, n: int, target: Url, fetch: Fetcher)
    requires Walk(u, n, target, fetch)
    ensures n >= 0 && Within(u, n, target, fetch)
    decreases n
  {
    if n > 0 {
      var w :| Walk(w, n - 1, target, fetch) && u in LinkedFrom(w, fetch);
      WalkWithin(w, n - 1, target, fetch);
    }
  }

  /**
   * Every request in flight with budget `d` names a URL at the end of a walk
   * of exactly `depth - d` hops from the target: each hop costs one budget.
   */
  ghost predicate Reached(pending: seq<Request>, target: Url, depth: int, fetch: Fetcher) {
    forall j :: 0 <= j < |pending| ==> Walk(pending[j].url, depth - pending[j].depth, target, fetch)
  }

  /** Every worker a completed request starts names a URL its fetch returned, with one less budget. */
  lemma SpawnsFromLinks(q: Request, pages: map<string, Page>, host: string, fetch: Fetcher)
    ensures forall c :: c in Spawns(Crawl(q.url, q.depth, fetch), pages, host) ==>
              c.url in LinkedFrom(q.url, fetch) && c.depth == q.depth - 1
  {
    var kids := Spawns(Crawl(q.url, q.depth, fetch), pages, host);
    if kids != [] {
      var urls := fetch(q.url).urls;
      var links := LinksFrom(q.url, urls);
      assert kids == ToSpawn(links, pages, host, q.depth - 1);
      forall c | c in kids
        ensures c.url in LinkedFrom(q.url, fetch) && c.depth == q.depth - 1
      {
        var l :| l in links && l.target == c.url;
        var k :| 0 <= k < |links| && links[k] == l;
        assert c.url == urls[k];
      }
    }
  }

  /** A URL returned by a fetch of the end of an `n - 1`-hop walk ends an `n`-hop walk. */
  lemma LinkedWalk(w: Url, u: Url, n: int, target: Url, fetch: Fetcher)
    requires n > 0 && Walk(w, n - 1, target, fetch) && u in LinkedFrom(w, fetch)
    ensures Walk(u, n, target, fetch)
  {
  }

  /** One step keeps every request in flight at the end of a walk as long as the root's budget less its own. */
  lemma ReachedAfterStep(pending: seq<Request>, i: nat, pages: map<string, Page>, target: Url, depth: int, fetch: Fetcher)
    requires i < |pending| && Scoped(pending, target.host, depth) && Reached(pending, target, depth, fetch)
    ensures Reached(pending[..i] + pending[i + 1..]
                      + Spawns(Crawl(pending[i].url, pending[i].depth, fetch), pages, target.host), target, depth, fetch)
  {
    var q := pending[i];
    assert Walk(q.url, depth - q.depth, target, fetch);
    ChildrenReached(q, pages, target, depth, fetch);
    ReachedAfterRemove(pending, i, target, depth, fetch);
    ReachedAppend(pending[..i] + pending[i + 1..], Spawns(Crawl(q.url, q.depth, fetch), pages, target.host),
                  target, depth, fetch);
  }

  /** A started child is one hop further from the target than its parent, with one less budget. */
  lemma ChildrenReached(q: Request, pages: map<string, Page>, target: Url, depth: int, fetch: Fetcher)
    requires Walk(q.url, depth - q.depth, target, fetch)
    ensures Reached(Spawns(Crawl(q.url, q.depth, fetch), pages, target.host), target, depth, fetch)
  {
    var kids: seq<Request> := Spawns(Crawl(q.url, q.depth, fetch), pages, target.host);
    forall c | c in kids
      ensures Walk(c.url, depth - c.depth, target, fetch)
    {
      ChildWalk(q, c, pages, target, depth, fetch);
    }
    ReachedOfMembers(kids, target, depth, fetch);
  }

  /** Requests that each end a walk of the right length make a reached sequence. */
  lemma ReachedOfMembers(kids: seq<Request>, target: Url, depth: int, fetch: Fetcher)
    requires forall c :: c in kids ==> Walk(c.url, depth - c.depth, target, fetch)
    ensures Reached(kids, target, depth, fetch)
  {
    forall j | 0 <= j < |kids|
      ensures Walk(kids[j].url, depth - kids[j].depth, target, fetch)
    {
      assert kids[j] in kids;
    }
  }

  /** One started child ends a walk one hop longer than its parent's. */
  lemma ChildWalk(q: Request, c: Request, pages: map<string, Page>, target: Url, depth: int, fetch: Fetcher)
    requires Walk(q.url, depth - q.depth, target, fetch)
    requires c in Spawns(Crawl(q.url, q.depth, fetch), pages, target.host)
    ensures Walk(c.url, depth - c.depth, target, fetch)
  {
    SpawnsFromLinks(q, pages, target.host, fetch);
    assert c.url in LinkedFrom(q.url, fetch) && c.depth == q.depth - 1;
    WalkWithin(q.url, depth - q.depth, target, fetch);
    LinkedWalk(q.url, c.url, depth - q.depth + 1, target, fetch);
  }

  /** The requests left after one is consumed keep their distances. */
  lemma ReachedAfterRemove(pending: seq<Request>, i: nat, target: Url, depth: int, fetch: Fetcher)
    requires i < |pending| && Reached(pending, target, depth, fetch)
    ensures Reached(pending[..i] + pending[i + 1..], target, depth, fetch)
  {
    var rest := pending[..i] + pending[i + 1..];
    forall j | 0 <= j < |rest|
      ensures Walk(rest[j].url, depth - rest[j].depth, target, fetch)
    {
      if j < i {
        assert rest[j] == pending[j];
      } else {
        assert rest[j] == pending[j + 1];
      }
    }
  }

  /** Two reached sequences of requests, concatenated, are reached. */
  lemma ReachedAppend(a: seq<Request>, b: seq<Request>, target: Url, depth: int, fetch: Fetcher)
    requires Reached(a, target, depth, fetch) && Reached(b, target, depth, fetch)
    ensures Reached(a + b, target, depth, fetch)
  {
    forall j | 0 <= j < |a + b|
      ensures Walk((a + b)[j].url, depth - (a + b)[j].depth, target, fetch)
    {
      if j >= |a| {
        assert (a + b)[j] == b[j - |a|];
      }
    }
  }

  /** A worker that will fetch `v` is still in flight. */
  ghost predicate Awaited(v: Url, pending: seq<Request>) {
    exists j :: 0 <= j < |pending| && pending[j].url == v && pending[j].depth >= 1
  }

  /** `v` is stored, or fetching it fails, or a worker that will fetch it is in flight. */
  ghost predicate Covered(v: Url, pages: map<string, Page>, pending: seq<Request>, fetch: Fetcher) {
    v.str in pages || fetch(v).FetchFailed? || Awaited(v, pending)
  }

  /** Every on-host link of every URL in `expanded` is covered. */
  ghost predicate Complete(expanded: set<Url>, pages: map<string, Page>, pending: seq<Request>, host: string, fetch: Fetcher) {
    forall u, v :: u in expanded && v in LinkedFrom(u, fetch) && v.host == host ==> Covered(v, pages, pending, fetch)
  }

  /** With nothing in flight, every on-host link of an expanded URL is stored or fails to fetch. */
  lemma CompleteWhenIdle(expanded: set<Url>, pages: map<string, Page>, host: string, fetch: Fetcher)
    requires Complete(expanded, pages, [], host, fetch)
    ensures forall u, v :: u in expanded && v in LinkedFrom(u, fetch) && v.host == host ==>
              v.str in pages || fetch(v).FetchFailed?
  {
    forall u, v | u in expanded && v in LinkedFrom(u, fetch) && v.host == host
      ensures v.str in pages || fetch(v).FetchFailed?
    {
      assert Covered(v, pages, [], fetch);
      assert !Awaited(v, []);
    }
  }

  /** The page map after a result is applied. */
  function Store(pages: map<string, Page>, r: Result): (m: map<string, Page>)
    ensures pages.Keys <= m.Keys
  {
    match r.outcome
    case Completed(Some(p)) => pages[r.url.str := p]
    case _ => pages
  }

  /** The URLs whose links were crawled with a budget of one or more, after a result is applied. */
  function Expand(expanded: set<Url>, r: Result): set<Url> {
    if r.outcome.Completed? && r.outcome.page.Some? && r.depth >= 2 then expanded + {r.url} else expanded
  }

  /** Requests other than the removed one stay in flight. */
  lemma AwaitedAfterRemove(v: Url, pending: seq<Request>, i: nat, kids: seq<Request>)
    requires i < |pending| && Awaited(v, pending)
    requires pending[i].url != v || pending[i].depth < 1
    ensures Awaited(v, pending[..i] + pending[i + 1..] + kids)
  {
    var j :| 0 <= j < |pending| && pending[j].url == v && pending[j].depth >= 1;
    var rest := pending[..i] + pending[i + 1..] + kids;
    if j < i {
      assert rest[j] == pending[j];
    } else {
      assert rest[j - 1] == pending[j];
    }
  }

  /** A request other than the removed one stays in flight. */
  lemma InAfterRemove(x: Request, pending: seq<Request>, i: nat, kids: seq<Request>)
    requires i < |pending| && x in pending && pending[i] != x
    ensures x in pending[..i] + pending[i + 1..] + kids
  {
    var j :| 0 <= j < |pending| && pending[j] == x;
    var rest := pending[..i] + pending[i + 1..] + kids;
    if j < i {
      assert rest[j] == x;
    } else {
      assert rest[j - 1] == x;
    }
  }

  /** A started child is awaited. */
  lemma AwaitedChild(v: Url, d: int, front: seq<Request>, kids: seq<Request>)
    requires Request(v, d) in kids && d >= 1
    ensures Awaited(v, front + kids)
  {
    var j :| 0 <= j < |kids| && kids[j] == Request(v, d);
    assert (front + kids)[|front| + j] == kids[j];
  }

  /** A link that was covered before a step is covered after it. */
  lemma CoveredAfterStep(v: Url, pages: map<string, Page>, pending: seq<Request>, i: nat, host: string, fetch: Fetcher)
    requires i < |pending| && Covered(v, pages, pending, fetch)
    ensures var r := Crawl(pending[i].url, pending[i].depth, fetch);
            Covered(v, Store(pages, r), pending[..i] + pending[i + 1..] + Spawns(r, pages, host), fetch)
  {
    var q := pending[i];
    var r := Crawl(q.url, q.depth, fetch);
    if v.str in pages || fetch(v).FetchFailed? {
    } else if q.url == v && q.depth >= 1 {
      // The worker for v is the one consumed: it stored v, or v's fetch failed.
      assert r.outcome.Completed?;
      assert v.str in Store(pages, r);
    } else {
      AwaitedAfterRemove(v, pending, i, Spawns(r, pages, host));
    }
  }

  /** The links of a page fetched with budget two or more are covered once its link loop has run. */
  lemma ChildCovered(v: Url, pages: map<string, Page>, pending: seq<Request>, i: nat, host: string, fetch: Fetcher)
    requires i < |pending| && pending[i].depth >= 2
    requires v in LinkedFrom(pending[i].url, fetch) && v.host == host
    ensures var r := Crawl(pending[i].url, pending[i].depth, fetch);
            Covered(v, Store(pages, r), pending[..i] + pending[i + 1..] + Spawns(r, pages, host), fetch)
  {
    var q := pending[i];
    var r := Crawl(q.url, q.depth, fetch);
    var urls := fetch(q.url).urls;
    var links := LinksFrom(q.url, urls);
    var k :| 0 <= k < |urls| && urls[k] == v;
    assert links[k] == Link(q.url, v);
    if v.str !in pages {
      assert ShouldSpawn(links[k], pages, host);
      assert Spawns(r, pages, host) == ToSpawn(links, pages, host, q.depth - 1);
      AwaitedChild(v, q.depth - 1, pending[..i] + pending[i + 1..], Spawns(r, pages, host));
    }
  }

  /** Consuming one worker of the coordinator keeps `Complete`. */
  lemma StepKeepsComplete(expanded: set<Url>, pages: map<string, Page>, pending: seq<Request>, i: nat, host: string, fetch: Fetcher)
    requires i < |pending|
    requires Complete(expanded, pages, pending, host, fetch)
    ensures var r := Crawl(pending[i].url, pending[i].depth, fetch);
            Complete(Expand(expanded, r), Store(pages, r),
                     pending[..i] + pending[i + 1..] + Spawns(r, pages, host), host, fetch)
  {
    var q := pending[i];
    var r := Crawl(q.url, q.depth, fetch);
    forall u, v | u in Expand(expanded, r) && v in LinkedFrom(u, fetch) && v.host == host
      ensures Covered(v, Store(pages, r), pending[..i] + pending[i + 1..] + Spawns(r, pages, host), fetch)
    {
      if u in expanded {
        CoveredAfterStep(v, pages, pending, i, host, fetch);
      } else {
        ChildCovered(v, pages, pending, i, host, fetch);
      }
    }
  }
}
