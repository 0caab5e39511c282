/**
 * `crawl_website` (backend/seo_analyzer.py): a breadth-first crawl of one
 * host with a visited set, a FIFO queue of (url, depth) pairs, a page budget
 * and a depth limit of 3. The web is a supplied map from URL to the page
 * fetched there; a URL missing from the map is one whose fetch raised, which
 * the crawler skips after marking it visited. Each link of a page is given
 * already resolved against the page: its host and its URL without query and
 * fragment, or `Unparsable` when resolving it raises, which abandons the page
 * after the links before it have been collected and queued.
 */
module Crawler {
  import opened Options
  import opened Text
  import opened Urls

  /** An `<a href>` as `urljoin` and `urlparse` resolve it, or one on which they raise (such as `http://[x`). */
  datatype Link = Link(host: string, cleanUrl: string) | Unparsable

  /** What the crawler reads from a fetched page: the <title> text, whether any h1-h6 exists, and the <a href> links. */
  datatype FetchedPage = FetchedPage(title: Option<string>, hasHeadings: bool, links: seq<Link>)

  /** One entry of `pages_data`. */
  datatype PageRecord = PageRecord(url: string, title: string, depth: nat, hasHeadings: bool, internalLinks: set<string>)

  datatype CrawlResult = CrawlResult(pages: seq<PageRecord>, totalPages: nat, allInternalLinks: set<string>)

  const MaxDepth: nat := 3

  /** `title.get_text().strip() if title else ''` */
  function TitleOf(page: FetchedPage): string
  {
    match page.title
    case None => ""
    case Some(t) => Strip(t)
  }

  /** How many links the scan of a page gets through before the first one that raises. */
  function ScannedCount(links: seq<Link>): (n: nat)
    ensures n <= |links|
    ensures forall k :: 0 <= k < n ==> links[k].Link?
    ensures n < |links| ==> links[n].Unparsable?
  {
    if |links| == 0 || links[0].Unparsable? then 0
    else
      var n := 1 + ScannedCount(links[1..]);
      assert forall k :: 1 <= k < n ==> links[k] == links[1..][k - 1];
      n
  }

  /** The links the scan of a page handles. */
  function Scanned(links: seq<Link>): seq<Link>
  {
    links[..ScannedCount(links)]
  }

  /** No link of the page makes the scan raise. */
  predicate Parses(links: seq<Link>)
  {
    forall k :: 0 <= k < |links| ==> links[k].Link?
  }

  /** Every fetched page parses completely. */
  ghost predicate CleanWeb(web: map<string, FetchedPage>)
  {
    forall u :: u in web ==> Parses(web[u].links)
  }

  /** The clean URLs of the links that stay on the host. */
  function SameHostLinks(links: seq<Link>, host: string): set<string>
  {
    if |links| == 0 then {}
    else
      var last := links[|links| - 1];
      SameHostLinks(links[..|links| - 1], host) + (if last.Link? && last.host == host then {last.cleanUrl} else {})
  }

  /** A URL is collected exactly when some link on the host has it as its clean URL. */
  lemma {:induction false} SameHostLinksMembers(links: seq<Link>, host: string, u: string)
    ensures u in SameHostLinks(links, host) <==>
              exists k :: 0 <= k < |links| && links[k].Link? && links[k].host == host && links[k].cleanUrl == u
  {
    if links != [] {
      var init := links[..|links| - 1];
      assert forall k :: 0 <= k < |init| ==> init[k] == links[k];
      SameHostLinksMembers(init, host, u);
    }
  }

  /** The queue entries a page at `depth` adds: its same-host links not yet visited, one level deeper, while depth < 3. */
  function Enqueued(links: seq<Link>, host: string, visited: set<string>, depth: nat): seq<(string, nat)>
  {
    if |links| == 0 then []
    else
      var last := links[|links| - 1];
      Enqueued(links[..|links| - 1], host, visited, depth)
      + (if last.Link? && last.host == host && last.cleanUrl !in visited && depth < MaxDepth then [(last.cleanUrl, depth + 1)] else [])
  }

  /** Every queued entry is an unvisited same-host link, one level below the page, and only below depth 3. */
  lemma {:induction false} EnqueuedShape(links: seq<Link>, host: string, visited: set<string>, depth: nat)
    ensures forall e :: e in Enqueued(links, host, visited, depth) ==>
              e.1 == depth + 1 && depth < MaxDepth && e.0 !in visited && e.0 in SameHostLinks(links, host)
  {
    if links != [] {
      var init := links[..|links| - 1];
      var last := links[|links| - 1];
      EnqueuedShape(init, host, visited, depth);
      var r := Enqueued(links, host, visited, depth);
      var r0 := Enqueued(init, host, visited, depth);
      var newer := if last.Link? && last.host == host && last.cleanUrl !in visited && depth < MaxDepth then [(last.cleanUrl, depth + 1)] else [];
      assert r == r0 + newer;
      assert SameHostLinks(init, host) <= SameHostLinks(links, host);
      forall e | e in r ensures e.1 == depth + 1 && depth < MaxDepth && e.0 !in visited && e.0 in SameHostLinks(links, host) {
        if e in r0 {
          assert e.0 in SameHostLinks(init, host);
        } else {
          assert e in newer;
        }
      }
    }
  }

  /** The URLs waiting in the queue. */
  ghost function Pending(queue: seq<(string, nat)>): set<string>
  {
    set k | 0 <= k < |queue| :: queue[k].0
  }

  lemma PendingAppend(a: seq<(string, nat)>, b: seq<(string, nat)>)
    ensures Pending(a + b) == Pending(a) + Pending(b)
  {
    var c := a + b;
    forall u | u in Pending(c) ensures u in Pending(a) + Pending(b) {
      var k :| 0 <= k < |c| && c[k].0 == u;
      if k < |a| { assert c[k] == a[k]; } else { assert c[k] == b[k - |a|]; }
    }
    forall u | u in Pending(a) + Pending(b) ensures u in Pending(c) {
      if u in Pending(a) {
        var k :| 0 <= k < |a| && a[k].0 == u;
        assert c[k] == a[k];
      } else {
        var k :| 0 <= k < |b| && b[k].0 == u;
        assert c[k + |a|] == b[k];
      }
    }
  }

  lemma PendingPop(queue: seq<(string, nat)>)
    requires queue != []
    ensures Pending(queue) == {queue[0].0} + Pending(queue[1..])
  {
    assert queue == [queue[0]] + queue[1..];
    PendingAppend([queue[0]], queue[1..]);
    assert Pending([queue[0]]) == {queue[0].0};
  }

  /** Below depth 3, every same-host link of a page is either already seen or queued by it. */
  lemma {:induction false} EnqueuedCovers(links: seq<Link>, host: string, seen: set<string>, depth: nat)
    requires depth < MaxDepth
    ensures SameHostLinks(links, host) <= seen + Pending(Enqueued(links, host, seen, depth))
  {
    if links != [] {
      var init := links[..|links| - 1];
      var last := links[|links| - 1];
      EnqueuedCovers(init, host, seen, depth);
      var newer := if last.Link? && last.host == host && last.cleanUrl !in seen && depth < MaxDepth then [(last.cleanUrl, depth + 1)] else [];
      assert Enqueued(links, host, seen, depth) == Enqueued(init, host, seen, depth) + newer;
      PendingAppend(Enqueued(init, host, seen, depth), newer);
      if newer != [] {
        assert newer[0].0 == last.cleanUrl;
      }
    }
  }

  /** The union of the internal links of all recorded pages. */
  function LinkUnion(pages: seq<PageRecord>): set<string>
  {
    if |pages| == 0 then {} else LinkUnion(pages[..|pages| - 1]) + pages[|pages| - 1].internalLinks
  }

  lemma LinkUnionAppend(pages: seq<PageRecord>, p: PageRecord)
    ensures LinkUnion(pages + [p]) == LinkUnion(pages) + p.internalLinks
  {
    assert (pages + [p])[..|pages|] == pages;
  }

  /** The URLs of the recorded pages. */
  ghost function Recorded(pages: seq<PageRecord>): set<string>
  {
    set i | 0 <= i < |pages| :: pages[i].url
  }

  lemma RecordedAppend(pages: seq<PageRecord>, p: PageRecord)
    ensures Recorded(pages + [p]) == Recorded(pages) + {p.url}
  {
    var s := pages + [p];
    forall u | u in Recorded(s) ensures u in Recorded(pages) + {p.url} {
      var i :| 0 <= i < |s| && s[i].url == u;
      if i < |pages| { assert s[i] == pages[i]; }
    }
    forall u | u in Recorded(pages) ensures u in Recorded(s) {
      var i :| 0 <= i < |pages| && pages[i].url == u;
      assert s[i] == pages[i];
    }
    assert s[|pages|] == p;
  }

  /** The inner loop of the crawl: collects a page's same-host links and queues the unvisited ones, until a link raises. */
  method ScanLinks(page: FetchedPage, host: string, visited: set<string>, depth: nat,
                   queue: seq<(string, nat)>, all: set<string>)
    returns (ok: bool, links: set<string>, queue': seq<(string, nat)>, all': set<string>)
    ensures ok <==> Parses(page.links)
    ensures links == SameHostLinks(Scanned(page.links), host)
    ensures queue' == queue + Enqueued(Scanned(page.links), host, visited, depth)
    ensures all' == all + links
  {
    links, queue', all' := {}, queue, all;
    var j := 0;
    while j < |page.links| && page.links[j].Link?
      invariant 0 <= j <= ScannedCount(page.links)
      invariant links == SameHostLinks(page.links[..j], host)
      invariant queue' == queue + Enqueued(page.links[..j], host, visited, depth)
      invariant all' == all + links
    {
      var link := page.links[j];
      assert page.links[..j + 1][..j] == page.links[..j];
      if link.host == host {
        links := links + {link.cleanUrl};
        all' := all' + {link.cleanUrl};
        if link.cleanUrl !in visited && depth < MaxDepth {
          queue' := queue' + [(link.cleanUrl, depth + 1)];
        }
      }
      j := j + 1;
    }
    assert j == ScannedCount(page.links);
    ok := j == |page.links|;
  }

  /** Depths in the queue never decrease from front to back and span at most one level. */
  ghost predicate Layered(queue: seq<(string, nat)>)
  {
    (forall a, b :: 0 <= a < b < |queue| ==> queue[a].1 <= queue[b].1)
    && (|queue| > 0 ==> queue[|queue| - 1].1 <= queue[0].1 + 1)
  }

  ghost predicate DepthsSorted(pages: seq<PageRecord>)
  {
    forall i, j :: 0 <= i < j < |pages| ==> pages[i].depth <= pages[j].depth
  }

  ghost predicate UrlsDistinct(pages: seq<PageRecord>)
  {
    forall i, j :: 0 <= i < j < |pages| ==> pages[i].url != pages[j].url
  }

  /** Every recorded page below the start is among the `linked` URLs. */
  ghost predicate LinkedFrom(pages: seq<PageRecord>, linked: set<string>)
  {
    forall i :: 0 <= i < |pages| ==> pages[i].depth > 0 ==> pages[i].url in linked
  }

  /** The record of page `url` as fetched at `depth`, with its same-host links. */
  function RecordOf(url: string, page: FetchedPage, depth: nat, host: string): PageRecord
  {
    PageRecord(url, TitleOf(page), depth, page.hasHeadings, SameHostLinks(page.links, host))
  }

  /** Each record is what its URL served, a page whose links all resolved, with its same-host links. */
  ghost predicate Faithful(pages: seq<PageRecord>, web: map<string, FetchedPage>, host: string)
  {
    forall i :: 0 <= i < |pages| ==>
      pages[i].url in web && Parses(web[pages[i].url].links)
      && pages[i] == RecordOf(pages[i].url, web[pages[i].url], pages[i].depth, host)
  }

  /** Appending a page no shallower than the last keeps the pages in depth order. */
  lemma SortedAppend(before: seq<PageRecord>, record: PageRecord)
    requires DepthsSorted(before) && (|before| > 0 ==> before[|before| - 1].depth <= record.depth)
    ensures DepthsSorted(before + [record])
  {
    var pages := before + [record];
    forall i, j | 0 <= i < j < |pages| ensures pages[i].depth <= pages[j].depth {
      if j < |before| {
        assert pages[i] == before[i] && pages[j] == before[j];
      } else {
        assert pages[i] == before[i];
        assert before[i].depth <= before[|before| - 1].depth;
      }
    }
  }

  /** A queue of one level followed by entries of the next level stays layered. */
  lemma LevelStep(rest: seq<(string, nat)>, queue': seq<(string, nat)>, depth: nat)
    requires forall k :: 0 <= k < |rest| ==> depth <= rest[k].1 <= depth + 1
    requires forall a, b :: 0 <= a < b < |rest| ==> rest[a].1 <= rest[b].1
    requires |queue'| >= |rest| && queue'[..|rest|] == rest
    requires forall k :: |rest| <= k < |queue'| ==> queue'[k].1 == depth + 1
    ensures Layered(queue')
    ensures |queue'| > 0 ==> depth <= queue'[0].1
  {
    forall k | 0 <= k < |queue'| ensures depth <= queue'[k].1 <= depth + 1 {
      if k < |rest| { assert queue'[k] == rest[k]; }
    }
    forall a, b | 0 <= a < b < |queue'| ensures queue'[a].1 <= queue'[b].1 {
      if b < |rest| { assert queue'[a] == rest[a] && queue'[b] == rest[b]; }
      else if a < |rest| { assert queue'[a] == rest[a]; }
    }
  }

  /** What the crawl keeps true of the recorded pages. */
  ghost predicate PagesOk(pages: seq<PageRecord>, visited: set<string>, web: map<string, FetchedPage>, host: string)
  {
    (forall i :: 0 <= i < |pages| ==> pages[i].url in visited && pages[i].depth <= MaxDepth)
    && UrlsDistinct(pages) && DepthsSorted(pages) && Faithful(pages, web, host)
  }

  /**
   * What the crawl keeps true of the queue: depths within 3, in layers, none
   * shallower than the last recorded page, the start as the only entry at
   * depth 0, and every deeper entry a collected link.
   */
  ghost predicate QueueOk(queue: seq<(string, nat)>, pages: seq<PageRecord>, linked: set<string>, start: string)
  {
    (forall k :: 0 <= k < |queue| ==> queue[k].1 <= MaxDepth)
    && Layered(queue)
    && (|queue| > 0 && |pages| > 0 ==> pages[|pages| - 1].depth <= queue[0].1)
    && (forall k :: 0 <= k < |queue| ==> queue[k].1 > 0 ==> queue[k].0 in linked)
    && (forall k :: 0 <= k < |queue| ==> queue[k].1 == 0 ==> queue[k].0 == start)
  }

  /** Every same-host link of a recorded page below depth 3 is visited or waiting in the queue. */
  ghost predicate Covered(pages: seq<PageRecord>, visited: set<string>, queue: seq<(string, nat)>)
  {
    forall i :: 0 <= i < |pages| && pages[i].depth < MaxDepth ==> pages[i].internalLinks <= visited + Pending(queue)
  }

  /** Every visited URL that served a page whose links all resolved was recorded. */
  ghost predicate RecordsVisited(pages: seq<PageRecord>, visited: set<string>, web: map<string, FetchedPage>)
  {
    forall u :: u in visited && u in web && Parses(web[u].links) ==> u in Recorded(pages)
  }

  /** The variables of the frontier loop. */
  datatype CrawlState = CrawlState(pages: seq<PageRecord>, visited: set<string>, queue: seq<(string, nat)>, all: set<string>)

  /** The state the frontier loop keeps between two iterations. */
  ghost predicate Frontier(pages: seq<PageRecord>, visited: set<string>, queue: seq<(string, nat)>, all: set<string>,
                           start: string, web: map<string, FetchedPage>, host: string)
  {
    PagesOk(pages, visited, web, host)
    && QueueOk(queue, pages, all, start)
    && LinkUnion(pages) <= all
    && (CleanWeb(web) ==> all == LinkUnion(pages))
    && LinkedFrom(pages, all)
    && (forall i :: 0 <= i < |pages| ==> pages[i].depth == 0 ==> pages[i].url == start)
    && visited <= {start} + all
    && Covered(pages, visited, queue)
    && RecordsVisited(pages, visited, web)
    && Begun(pages, visited, queue, start, web)
  }

  /** Before the first visit only the start is queued; after it, a start page that scanned completely is the first record. */
  ghost predicate Begun(pages: seq<PageRecord>, visited: set<string>, queue: seq<(string, nat)>, start: string,
                        web: map<string, FetchedPage>)
  {
    (visited == {} ==> queue == [(start, 0)] && pages == [])
    && (visited != {} && start in web && Parses(web[start].links) ==>
          |pages| > 0 && pages[0].url == start && pages[0].depth == 0)
  }

  /**
   * What a crawl from `start` guarantees: the budget, the page facts, which
   * URLs are visited and recorded, and how the collected links relate to the
   * recorded pages.
   */
  ghost predicate Crawled(result: CrawlResult, visited: set<string>, start: string, maxPages: int,
                          web: map<string, FetchedPage>, host: string)
  {
    // at most `max_pages` URLs are visited, and every recorded page was visited
    |result.pages| <= |visited| && (|visited| <= maxPages || visited == {})
    && PagesOk(result.pages, visited, web, host)
    && result.totalPages == |result.pages|
    // only the start URL and collected links are visited; only the start sits at depth 0
    && visited <= {start} + result.allInternalLinks
    && (forall i :: 0 <= i < |result.pages| ==> result.pages[i].depth == 0 ==> result.pages[i].url == start)
    // the collected links include every recorded page's links, and equal them when no scan raises
    && LinkUnion(result.pages) <= result.allInternalLinks
    && LinkedFrom(result.pages, result.allInternalLinks)
    && (CleanWeb(web) ==> result.allInternalLinks == LinkUnion(result.pages))
    // a visited URL is recorded exactly when its page was fetched and scanned completely
    && RecordsVisited(result.pages, visited, web)
    // when the budget was not used up, every link of a page above depth 3 was visited
    && (|visited| < maxPages ==>
          forall i :: 0 <= i < |result.pages| && result.pages[i].depth < MaxDepth ==> result.pages[i].internalLinks <= visited)
    // the start page, when it scans completely, is the first record
    && (maxPages >= 1 && start in web && Parses(web[start].links) ==>
          |result.pages| >= 1 && result.pages[0].url == start && result.pages[0].depth == 0)
  }

  /** Taking the front of the queue keeps the queue facts. */
  lemma PopKeepsQueue(queue: seq<(string, nat)>, pages: seq<PageRecord>, linked: set<string>, start: string)
    requires queue != [] && QueueOk(queue, pages, linked, start)
    ensures QueueOk(queue[1..], pages, linked, start)
  {
    var rest := queue[1..];
    forall k | 0 <= k < |rest| ensures rest[k] == queue[k + 1] { }
    if |rest| > 0 {
      assert queue[0].1 <= rest[0].1;
    }
  }

  /** The tail of a layered queue lies within one level of its front. */
  lemma RestWithinLevel(queue: seq<(string, nat)>)
    requires queue != [] && Layered(queue)
    ensures forall k :: 0 <= k < |queue| - 1 ==> queue[0].1 <= queue[1..][k].1 <= queue[0].1 + 1
    ensures forall a, b :: 0 <= a < b < |queue| - 1 ==> queue[1..][a].1 <= queue[1..][b].1
  {
    forall k | 0 <= k < |queue| - 1 ensures queue[0].1 <= queue[1..][k].1 <= queue[0].1 + 1 {
      assert queue[1..][k] == queue[k + 1];
      assert queue[0].1 <= queue[k + 1].1 <= queue[|queue| - 1].1;
    }
    forall a, b | 0 <= a < b < |queue| - 1 ensures queue[1..][a].1 <= queue[1..][b].1 {
      assert queue[1..][a] == queue[a + 1] && queue[1..][b] == queue[b + 1];
    }
  }

  /** Entries one level below `depth`, within the depth limit, whose URLs are among `links`. */
  ghost predicate NextLevel(added: seq<(string, nat)>, depth: nat, links: set<string>)
  {
    forall k :: 0 <= k < |added| ==> added[k].1 == depth + 1 <= MaxDepth && added[k].0 in links
  }

  /** The entries a scanned page adds to the queue are its own links, one level below it. */
  lemma AddedBelow(links: seq<Link>, host: string, seen: set<string>, depth: nat, added: seq<(string, nat)>,
                   targets: set<string>)
    requires added == Enqueued(links, host, seen, depth) && targets == SameHostLinks(links, host)
    ensures NextLevel(added, depth, targets)
  {
    forall k | 0 <= k < |added| ensures added[k].1 == depth + 1 <= MaxDepth && added[k].0 in targets {
      var e := added[k];
      assert e in Enqueued(links, host, seen, depth);
      EnqueuedShape(links, host, seen, depth);
      assert e.0 in SameHostLinks(links, host) && e.1 == depth + 1 && depth < MaxDepth;
    }
  }

  /** Appending entries of the next level keeps the old queue as a prefix. */
  lemma AppendedLevel(rest: seq<(string, nat)>, added: seq<(string, nat)>, queue': seq<(string, nat)>, depth: nat)
    requires queue' == rest + added
    requires forall k :: 0 <= k < |added| ==> added[k].1 == depth + 1
    ensures |queue'| >= |rest| && queue'[..|rest|] == rest
    ensures forall k :: |rest| <= k < |queue'| ==> queue'[k].1 == depth + 1
  {
    assert queue'[..|rest|] == rest;
    forall k | |rest| <= k < |queue'| ensures queue'[k].1 == depth + 1 {
      assert queue'[k] == added[k - |rest|];
    }
  }

  /** The entries below the start, old and newly queued, are collected links; the start stays the only depth-0 entry. */
  lemma QueueLinked(queue: seq<(string, nat)>, queue': seq<(string, nat)>, added: seq<(string, nat)>,
                    linked: set<string>, links: set<string>, start: string)
    requires queue != [] && queue' == queue[1..] + added
    requires forall k :: 0 <= k < |queue| ==> queue[k].1 <= MaxDepth
    requires forall k :: 0 <= k < |queue| ==> queue[k].1 > 0 ==> queue[k].0 in linked
    requires forall k :: 0 <= k < |queue| ==> queue[k].1 == 0 ==> queue[k].0 == start
    requires forall k :: 0 <= k < |added| ==> 0 < added[k].1 <= MaxDepth && added[k].0 in links
    ensures forall k :: 0 <= k < |queue'| ==> queue'[k].1 <= MaxDepth
    ensures forall k :: 0 <= k < |queue'| ==> queue'[k].1 > 0 ==> queue'[k].0 in linked + links
    ensures forall k :: 0 <= k < |queue'| ==> queue'[k].1 == 0 ==> queue'[k].0 == start
  {
    var rest := queue[1..];
    forall k | 0 <= k < |queue'|
      ensures queue'[k].1 <= MaxDepth && (queue'[k].1 > 0 ==> queue'[k].0 in linked + links)
              && (queue'[k].1 == 0 ==> queue'[k].0 == start)
    {
      if k < |rest| {
        assert queue'[k] == queue[k + 1];
      } else {
        assert queue'[k] == added[k - |rest|];
      }
    }
  }

  /** Replacing the front of the queue by entries one level below it keeps the queue facts. */
  lemma NextQueue(queue: seq<(string, nat)>, pages: seq<PageRecord>, pages': seq<PageRecord>,
                  linked: set<string>, start: string, added: seq<(string, nat)>, links: set<string>)
    requires queue != [] && QueueOk(queue, pages, linked, start)
    requires |pages'| > 0 ==> pages'[|pages'| - 1].depth <= queue[0].1
    requires NextLevel(added, queue[0].1, links)
    ensures QueueOk(queue[1..] + added, pages', linked + links, start)
  {
    var queue' := queue[1..] + added;
    RestWithinLevel(queue);
    AppendedLevel(queue[1..], added, queue', queue[0].1);
    LevelStep(queue[1..], queue', queue[0].1);
    QueueLinked(queue, queue', added, linked, links, start);
  }

  /** Skipping a front entry already visited keeps the loop's state. */
  lemma SkipKeepsFrontier(pages: seq<PageRecord>, visited: set<string>, queue: seq<(string, nat)>, all: set<string>,
                          start: string, web: map<string, FetchedPage>, host: string)
    requires queue != [] && Frontier(pages, visited, queue, all, start, web, host)
    requires !(queue[0].0 !in visited && queue[0].1 <= MaxDepth)
    ensures Frontier(pages, visited, queue[1..], all, start, web, host)
  {
    PopKeepsQueue(queue, pages, all, start);
    PendingPop(queue);
  }

  /** The links a fetch of `url` yields; none when the fetch raised. */
  function LinksAt(web: map<string, FetchedPage>, url: string): seq<Link>
  {
    if url in web then web[url].links else []
  }

  /**
   * Visiting the front URL without recording it (its fetch or its scan
   * raised part-way through `scanned`) keeps the loop's state.
   */
  lemma AbandonKeepsFrontier(s: CrawlState, t: CrawlState, start: string, web: map<string, FetchedPage>, host: string)
    requires s.queue != [] && Frontier(s.pages, s.visited, s.queue, s.all, start, web, host)
    requires s.queue[0].0 in web ==> !Parses(web[s.queue[0].0].links)
    requires var url, scanned := s.queue[0].0, Scanned(LinksAt(web, s.queue[0].0));
      t == CrawlState(s.pages, s.visited + {url}, s.queue[1..] + Enqueued(scanned, host, s.visited + {url}, s.queue[0].1),
                      s.all + SameHostLinks(scanned, host))
    ensures Frontier(t.pages, t.visited, t.queue, t.all, start, web, host)
  {
    var url := s.queue[0].0;
    var scanned := Scanned(LinksAt(web, url));
    if url !in web {
      assert scanned == [];
    }
    var added := Enqueued(scanned, host, s.visited + {url}, s.queue[0].1);
    var links := SameHostLinks(scanned, host);
    AddedBelow(scanned, host, s.visited + {url}, s.queue[0].1, added, links);
    AbandonKeepsQueue(s, t, start, added, links);
    AbandonKeepsPages(s, t, web, host);
    AbandonKeepsCollected(s, t, start, web, links);
  }

  /** Visiting the front URL without recording it keeps the queue in order and every owed link visited or pending. */
  lemma AbandonKeepsQueue(s: CrawlState, t: CrawlState, start: string, added: seq<(string, nat)>, links: set<string>)
    requires s.queue != [] && QueueOk(s.queue, s.pages, s.all, start) && Covered(s.pages, s.visited, s.queue)
    requires NextLevel(added, s.queue[0].1, links)
    requires t == CrawlState(s.pages, s.visited + {s.queue[0].0}, s.queue[1..] + added, s.all + links)
    ensures QueueOk(t.queue, t.pages, t.all, start) && Covered(t.pages, t.visited, t.queue)
  {
    NextQueue(s.queue, s.pages, s.pages, s.all, start, added, links);
    PendingPop(s.queue);
    PendingAppend(s.queue[1..], added);
    VisitKeepsCovered(s.pages, s.visited, s.queue, t.queue);
  }

  /** Visiting the front URL without recording it keeps the page facts, since no page it served scanned completely. */
  lemma AbandonKeepsPages(s: CrawlState, t: CrawlState, web: map<string, FetchedPage>, host: string)
    requires s.queue != [] && PagesOk(s.pages, s.visited, web, host) && RecordsVisited(s.pages, s.visited, web)
    requires s.queue[0].0 in web ==> !Parses(web[s.queue[0].0].links)
    requires t.pages == s.pages && t.visited == s.visited + {s.queue[0].0}
    ensures PagesOk(t.pages, t.visited, web, host) && RecordsVisited(t.pages, t.visited, web)
  {
    VisitKeepsPages(s.pages, s.visited, s.queue[0].0, web, host);
    VisitKeepsRecords(s.pages, s.visited, s.queue[0].0, web);
  }

  /** Visiting the front URL without recording it keeps the collected links, the visited URLs and the start facts in step. */
  lemma AbandonKeepsCollected(s: CrawlState, t: CrawlState, start: string, web: map<string, FetchedPage>, links: set<string>)
    requires s.queue != []
    requires s.queue[0].1 > 0 ==> s.queue[0].0 in s.all
    requires s.queue[0].1 == 0 ==> s.queue[0].0 == start
    requires s.queue[0].0 in web ==> !Parses(web[s.queue[0].0].links)
    requires s.queue[0].0 !in web ==> links == {}
    requires LinkUnion(s.pages) <= s.all && (CleanWeb(web) ==> s.all == LinkUnion(s.pages)) && LinkedFrom(s.pages, s.all)
    requires forall i :: 0 <= i < |s.pages| ==> s.pages[i].depth == 0 ==> s.pages[i].url == start
    requires s.visited <= {start} + s.all
    requires Begun(s.pages, s.visited, s.queue, start, web)
    requires t.pages == s.pages && t.visited == s.visited + {s.queue[0].0} && t.all == s.all + links
    ensures LinkUnion(t.pages) <= t.all && LinkedFrom(t.pages, t.all)
    ensures CleanWeb(web) ==> t.all == LinkUnion(t.pages)
    ensures forall i :: 0 <= i < |t.pages| ==> t.pages[i].depth == 0 ==> t.pages[i].url == start
    ensures t.visited <= {start} + t.all
    ensures Begun(t.pages, t.visited, t.queue, start, web)
  {
    if CleanWeb(web) {
      assert s.queue[0].0 !in web;
    }
  }

  /** Marking a URL visited keeps the page facts. */
  lemma VisitKeepsPages(pages: seq<PageRecord>, visited: set<string>, url: string, web: map<string, FetchedPage>, host: string)
    requires PagesOk(pages, visited, web, host)
    ensures PagesOk(pages, visited + {url}, web, host)
  {
  }

  /** Visiting the front keeps every recorded page covered, as long as the rest of the queue stays queued. */
  lemma VisitKeepsCovered(pages: seq<PageRecord>, visited: set<string>, queue: seq<(string, nat)>, queue': seq<(string, nat)>)
    requires queue != [] && Covered(pages, visited, queue)
    requires Pending(queue) == {queue[0].0} + Pending(queue[1..])
    requires Pending(queue[1..]) <= Pending(queue')
    ensures Covered(pages, visited + {queue[0].0}, queue')
  {
  }

  /** Visiting a URL that served no completely scanned page records nothing new that is owed. */
  lemma VisitKeepsRecords(pages: seq<PageRecord>, visited: set<string>, url: string, web: map<string, FetchedPage>)
    requires RecordsVisited(pages, visited, web)
    requires url in web ==> !Parses(web[url].links)
    ensures RecordsVisited(pages, visited + {url}, web)
  {
  }

  /** Recording the page fetched at the front, and queueing its links, keeps the loop's state. */
  lemma RecordKeepsFrontier(pages: seq<PageRecord>, visited: set<string>, queue: seq<(string, nat)>, all: set<string>,
                            start: string, web: map<string, FetchedPage>, host: string, record: PageRecord, t: CrawlState)
    requires queue != [] && Frontier(pages, visited, queue, all, start, web, host)
    requires record.url == queue[0].0 && record.url !in visited && record.url in web
    requires record.depth == queue[0].1 && record.depth <= MaxDepth
    requires Parses(web[record.url].links)
    requires record == RecordOf(record.url, web[record.url], record.depth, host)
    requires t == CrawlState(pages + [record], visited + {record.url},
                             queue[1..] + Enqueued(web[record.url].links, host, visited + {record.url}, record.depth),
                             all + record.internalLinks)
    ensures Frontier(t.pages, t.visited, t.queue, t.all, start, web, host)
  {
    var links := web[record.url].links;
    var added := Enqueued(links, host, visited + {record.url}, record.depth);
    RecordKeepsPages(pages, visited, web, host, queue, all, start, record);
    AddedBelow(links, host, visited + {record.url}, queue[0].1, added, record.internalLinks);
    assert QueueOk(queue, pages, all, start);
    assert (pages + [record])[|pages|] == record;
    NextQueue(queue, pages, pages + [record], all, start, added, record.internalLinks);
    LinkUnionAppend(pages, record);
    RecordedAppend(pages, record);
    PendingPop(queue);
    PendingAppend(queue[1..], added);
    if record.depth < MaxDepth {
      EnqueuedCovers(links, host, visited + {record.url}, record.depth);
    }
    RecordKeepsLinked(pages, all, start, record);
    RecordKeepsCovered(pages, visited, queue, record, queue[1..] + added);
    RecordKeepsCollected(pages, visited, queue, all, start, web, record);
  }

  /** Recording the front page keeps the collected links, the visited URLs and the start facts in step with the pages. */
  lemma RecordKeepsCollected(pages: seq<PageRecord>, visited: set<string>, queue: seq<(string, nat)>, all: set<string>,
                             start: string, web: map<string, FetchedPage>, record: PageRecord)
    requires queue != [] && record.url == queue[0].0 && record.depth == queue[0].1
    requires queue[0].1 > 0 ==> queue[0].0 in all
    requires queue[0].1 == 0 ==> queue[0].0 == start
    requires LinkUnion(pages) <= all && (CleanWeb(web) ==> all == LinkUnion(pages))
    requires visited <= {start} + all
    requires RecordsVisited(pages, visited, web) && Begun(pages, visited, queue, start, web)
    requires Recorded(pages + [record]) == Recorded(pages) + {record.url}
    requires LinkUnion(pages + [record]) == LinkUnion(pages) + record.internalLinks
    ensures LinkUnion(pages + [record]) <= all + record.internalLinks
    ensures CleanWeb(web) ==> all + record.internalLinks == LinkUnion(pages + [record])
    ensures visited + {record.url} <= {start} + (all + record.internalLinks)
    ensures RecordsVisited(pages + [record], visited + {record.url}, web)
    ensures Begun(pages + [record], visited + {record.url}, queue[1..], start, web)
  {
    if visited == {} {
      assert pages == [] && record.url == start;
    } else {
      assert pages == [] || (pages + [record])[0] == pages[0];
    }
  }

  /** Recording the page fetched at the queue's front keeps the page facts. */
  lemma RecordKeepsPages(pages: seq<PageRecord>, visited: set<string>, web: map<string, FetchedPage>, host: string,
                         queue: seq<(string, nat)>, all: set<string>, start: string, record: PageRecord)
    requires queue != [] && QueueOk(queue, pages, all, start) && PagesOk(pages, visited, web, host)
    requires record.url == queue[0].0 && record.url !in visited && record.url in web
    requires record.depth == queue[0].1 && record.depth <= MaxDepth
    requires Parses(web[record.url].links)
    requires record == RecordOf(record.url, web[record.url], record.depth, host)
    ensures PagesOk(pages + [record], visited + {record.url}, web, host)
  {
    var pages' := pages + [record];
    SortedAppend(pages, record);
    forall i | 0 <= i < |pages'| ensures pages'[i].url in visited + {record.url} && pages'[i].depth <= MaxDepth {
      if i < |pages| { assert pages'[i] == pages[i]; }
    }
    forall i, j | 0 <= i < j < |pages'| ensures pages'[i].url != pages'[j].url {
      assert pages'[i] == pages[i];
      if j < |pages| { assert pages'[j] == pages[j]; }
    }
    forall i | 0 <= i < |pages'|
      ensures pages'[i].url in web && Parses(web[pages'[i].url].links)
              && pages'[i] == RecordOf(pages'[i].url, web[pages'[i].url], pages'[i].depth, host)
    {
      if i < |pages| { assert pages'[i] == pages[i]; }
    }
  }

  /** A recorded page below the start was reached through a collected link; at depth 0 it is the start. */
  lemma RecordKeepsLinked(pages: seq<PageRecord>, all: set<string>, start: string, record: PageRecord)
    requires LinkedFrom(pages, all)
    requires forall i :: 0 <= i < |pages| ==> pages[i].depth == 0 ==> pages[i].url == start
    requires record.depth > 0 ==> record.url in all
    requires record.depth == 0 ==> record.url == start
    ensures LinkedFrom(pages + [record], all + record.internalLinks)
    ensures forall i :: 0 <= i < |pages| + 1 ==> (pages + [record])[i].depth == 0 ==> (pages + [record])[i].url == start
  {
    var pages' := pages + [record];
    forall i | 0 <= i < |pages'|
      ensures (pages'[i].depth > 0 ==> pages'[i].url in all + record.internalLinks)
              && (pages'[i].depth == 0 ==> pages'[i].url == start)
    {
      if i < |pages| { assert pages'[i] == pages[i]; }
    }
  }

  /** The old pages stay covered when the front is visited, and the new page's links are visited or queued. */
  lemma RecordKeepsCovered(pages: seq<PageRecord>, visited: set<string>, queue: seq<(string, nat)>,
                           record: PageRecord, queue': seq<(string, nat)>)
    requires queue != [] && Covered(pages, visited, queue) && record.url == queue[0].0
    requires Pending(queue) == {queue[0].0} + Pending(queue[1..])
    requires Pending(queue[1..]) <= Pending(queue')
    requires record.depth < MaxDepth ==> record.internalLinks <= visited + {record.url} + Pending(queue')
    ensures Covered(pages + [record], visited + {record.url}, queue')
  {
    var pages' := pages + [record];
    forall i | 0 <= i < |pages'| && pages'[i].depth < MaxDepth
      ensures pages'[i].internalLinks <= visited + {record.url} + Pending(queue')
    {
      if i < |pages| { assert pages'[i] == pages[i]; }
    }
  }

  /** Before the first iteration: only the start URL is queued. */
  lemma FrontierInit(start: string, web: map<string, FetchedPage>, host: string)
    ensures Frontier([], {}, [(start, 0)], {}, start, web, host)
  {
    assert Pending([(start, 0)]) == {start};
  }

  /** When the queue is empty or the budget is spent, the loop's state gives the crawl's guarantees. */
  lemma FrontierDone(pages: seq<PageRecord>, visited: set<string>, queue: seq<(string, nat)>, all: set<string>,
                     start: string, maxPages: int, web: map<string, FetchedPage>, host: string)
    requires |pages| <= |visited| && (|visited| <= maxPages || visited == {})
    requires Frontier(pages, visited, queue, all, start, web, host)
    requires queue == [] || |visited| >= maxPages
    ensures Crawled(CrawlResult(pages, |pages|, all), visited, start, maxPages, web, host)
  {
    if queue == [] {
      assert Pending(queue) == {};
    }
  }

  /** `page['url'] not in all_linked_urls and page['depth'] > 0` counted over the pages. */
  function OrphanCount(pages: seq<PageRecord>, linked: set<string>): nat
  {
    if |pages| == 0 then 0
    else OrphanCount(pages[..|pages| - 1], linked)
         + (if pages[|pages| - 1].url !in linked && pages[|pages| - 1].depth > 0 then 1 else 0)
  }

  /** Pages at depth 3 or more. */
  function DeepPages(pages: seq<PageRecord>): nat
  {
    if |pages| == 0 then 0 else DeepPages(pages[..|pages| - 1]) + (if pages[|pages| - 1].depth >= 3 then 1 else 0)
  }

  /** Pages whose `has_headings` is false. */
  function PagesWithoutHeadings(pages: seq<PageRecord>): nat
  {
    if |pages| == 0 then 0 else PagesWithoutHeadings(pages[..|pages| - 1]) + (if pages[|pages| - 1].hasHeadings then 0 else 1)
  }

  /** With every page below the start linked from somewhere, no page counts as an orphan. */
  lemma {:induction false} NoOrphansWhenLinked(pages: seq<PageRecord>, linked: set<string>)
    requires forall i :: 0 <= i < |pages| ==> pages[i].depth > 0 ==> pages[i].url in linked
    ensures OrphanCount(pages, linked) == 0
  {
    if pages != [] {
      var init := pages[..|pages| - 1];
      assert forall i :: 0 <= i < |init| ==> init[i] == pages[i];
      NoOrphansWhenLinked(init, linked);
    }
  }

  /**
   * The orphan-page statistic of the internal-linking metric is 0 on the
   * pages of a crawl in which no link scan raised: a page is only reached
   * through a link of a page the crawl recorded.
   */
  lemma CrawlHasNoOrphans(result: CrawlResult, visited: set<string>, start: string, maxPages: int,
                          web: map<string, FetchedPage>, host: string)
    requires Crawled(result, visited, start, maxPages, web, host) && CleanWeb(web)
    ensures OrphanCount(result.pages, LinkUnion(result.pages)) == 0
  {
    NoOrphansWhenLinked(result.pages, LinkUnion(result.pages));
  }

  /** The pages recorded at exactly `depth`. */
  function PagesAt(pages: seq<PageRecord>, depth: nat): nat
  {
    if |pages| == 0 then 0 else PagesAt(pages[..|pages| - 1], depth) + (if pages[|pages| - 1].depth == depth then 1 else 0)
  }

  /** When no page lies below depth 3, the pages at depth 3 or more are exactly those at depth 3. */
  lemma {:induction false} DeepPagesAreLastLevel(pages: seq<PageRecord>)
    requires forall i :: 0 <= i < |pages| ==> pages[i].depth <= MaxDepth
    ensures DeepPages(pages) == PagesAt(pages, MaxDepth)
  {
    if pages != [] {
      var init := pages[..|pages| - 1];
      assert forall i :: 0 <= i < |init| ==> init[i] == pages[i];
      DeepPagesAreLastLevel(init);
    }
  }

  /** On the pages of a crawl, the deep-page statistic counts the pages of the last crawled level. */
  lemma CrawlDeepPages(result: CrawlResult, visited: set<string>, web: map<string, FetchedPage>, host: string)
    requires PagesOk(result.pages, visited, web, host)
    ensures DeepPages(result.pages) == PagesAt(result.pages, MaxDepth)
  {
    DeepPagesAreLastLevel(result.pages);
  }
}

/**
 * The frontier loop of `crawl_website`: one iteration as a function, the
 * loop that repeats it, and the crawl from a start URL through either
 * normaliser.
 */
module CrawlWebsite {
  import opened Urls
  import opened Crawler

  /**
   * The crawl from `startUrl`, whose normalised form is on `host`, with the
   * start URL going through the normaliser as the code has it.
   */
  method Crawl(startUrl: string, host: string, maxPages: int, web: map<string, FetchedPage>)
    returns (result: CrawlResult, visited: set<string>)
    ensures Crawled(result, visited, NormalizeUrl(startUrl), maxPages, web, host)
  {
    result, visited := CrawlFrom(NormalizeUrl(startUrl), host, maxPages, web);
  }

  /**
   * The same crawl with the corrected normaliser, which keeps a protocol
   * embedded in the query of the start URL.
   */
  method CrawlCorrected(startUrl: string, host: string, maxPages: int, web: map<string, FetchedPage>)
    returns (result: CrawlResult, visited: set<string>)
    ensures Crawled(result, visited, NormalizeUrlCorrected(startUrl), maxPages, web, host)
  {
    result, visited := CrawlFrom(NormalizeUrlCorrected(startUrl), host, maxPages, web);
  }

  /** The crawl loop, from the already normalised start URL. */
  method CrawlFrom(start: string, host: string, maxPages: int, web: map<string, FetchedPage>)
    returns (result: CrawlResult, visited: set<string>)
    ensures Crawled(result, visited, start, maxPages, web, host)
  {
    visited := {};
    var queue: seq<(string, nat)> := [(start, 0)];
    var pages: seq<PageRecord> := [];
    var all: set<string> := {};
    FrontierInit(start, web, host);
    while queue != [] && |visited| < maxPages
      invariant |pages| <= |visited| && (|visited| <= maxPages || visited == {})
      invariant Frontier(pages, visited, queue, all, start, web, host)
      decreases maxPages - |visited|, |queue|
    {
      ghost var s := CrawlState(pages, visited, queue, all);
      StepKeepsFrontier(s, start, web, host);
      pages, visited, queue, all := Visit(pages, visited, queue, all, web, host);
    }
    result := CrawlResult(pages, |pages|, all);
    FrontierDone(pages, visited, queue, all, start, maxPages, web, host);
  }

  /**
   * One iteration of the frontier loop: the front of the queue is skipped
   * when visited or deeper than 3; otherwise it is marked visited and, when
   * it was served, its links are scanned until one raises, and its record is
   * appended when none did.
   */
  function Step(s: CrawlState, web: map<string, FetchedPage>, host: string): CrawlState
    requires s.queue != []
  {
    var (url, depth) := s.queue[0];
    if url in s.visited || depth > MaxDepth then CrawlState(s.pages, s.visited, s.queue[1..], s.all)
    else
      var scanned := Scanned(LinksAt(web, url));
      CrawlState(s.pages + (if url in web && Parses(web[url].links) then [RecordOf(url, web[url], depth, host)] else []),
                 s.visited + {url},
                 s.queue[1..] + Enqueued(scanned, host, s.visited + {url}, depth),
                 s.all + SameHostLinks(scanned, host))
  }

  /** What one iteration from `s` to `t` keeps: the loop's state, one unit of the budget or a shorter queue, and every page so far. */
  ghost predicate Advances(s: CrawlState, t: CrawlState, start: string, web: map<string, FetchedPage>, host: string)
  {
    Frontier(t.pages, t.visited, t.queue, t.all, start, web, host)
    && (|t.visited| == |s.visited| + 1 || (t.visited == s.visited && |t.queue| < |s.queue|))
    && |t.pages| - |s.pages| <= |t.visited| - |s.visited|
    && |t.pages| >= |s.pages| && t.pages[..|s.pages|] == s.pages
  }

  /** Each iteration keeps the loop's state and makes progress. */
  lemma StepKeepsFrontier(s: CrawlState, start: string, web: map<string, FetchedPage>, host: string)
    requires s.queue != [] && Frontier(s.pages, s.visited, s.queue, s.all, start, web, host)
    ensures Advances(s, Step(s, web, host), start, web, host)
  {
    var (url, depth) := s.queue[0];
    if url in s.visited || depth > MaxDepth {
      StepSkips(s, start, web, host);
    } else if url in web && Parses(web[url].links) {
      RecordedStep(s, web, host);
      StepRecords(s, Step(s, web, host), start, web, host);
    } else {
      AbandonedStep(s, web, host);
      StepAbandons(s, Step(s, web, host), start, web, host);
    }
  }

  /** A front entry already visited, or deeper than 3, is dropped. */
  lemma StepSkips(s: CrawlState, start: string, web: map<string, FetchedPage>, host: string)
    requires s.queue != [] && Frontier(s.pages, s.visited, s.queue, s.all, start, web, host)
    requires s.queue[0].0 in s.visited || s.queue[0].1 > MaxDepth
    ensures Advances(s, Step(s, web, host), start, web, host)
  {
    assert Step(s, web, host) == CrawlState(s.pages, s.visited, s.queue[1..], s.all);
    SkipKeepsFrontier(s.pages, s.visited, s.queue, s.all, start, web, host);
  }

  /** A new URL whose page scans completely is recorded, and its links are queued. */
  lemma StepRecords(s: CrawlState, t: CrawlState, start: string, web: map<string, FetchedPage>, host: string)
    requires s.queue != [] && Frontier(s.pages, s.visited, s.queue, s.all, start, web, host)
    requires s.queue[0].0 !in s.visited && s.queue[0].1 <= MaxDepth && s.queue[0].0 in web
    requires Parses(web[s.queue[0].0].links)
    requires var url, record := s.queue[0].0, RecordOf(s.queue[0].0, web[s.queue[0].0], s.queue[0].1, host);
      t == CrawlState(s.pages + [record], s.visited + {url},
                      s.queue[1..] + Enqueued(web[url].links, host, s.visited + {url}, s.queue[0].1),
                      s.all + record.internalLinks)
    ensures Advances(s, t, start, web, host)
  {
    var url, depth := s.queue[0].0, s.queue[0].1;
    assert |s.visited + {url}| == |s.visited| + 1;
    var record := RecordOf(url, web[url], depth, host);
    RecordKeepsFrontier(s.pages, s.visited, s.queue, s.all, start, web, host, record, t);
    assert (s.pages + [record])[..|s.pages|] == s.pages;
  }

  /** A recorded visit appends the page fetched at the front and everything its links add. */
  lemma RecordedStep(s: CrawlState, web: map<string, FetchedPage>, host: string)
    requires s.queue != [] && s.queue[0].0 !in s.visited && s.queue[0].1 <= MaxDepth && s.queue[0].0 in web
    requires Parses(web[s.queue[0].0].links)
    ensures var url, record := s.queue[0].0, RecordOf(s.queue[0].0, web[s.queue[0].0], s.queue[0].1, host);
      Step(s, web, host)
      == CrawlState(s.pages + [record], s.visited + {url},
                    s.queue[1..] + Enqueued(web[url].links, host, s.visited + {url}, s.queue[0].1),
                    s.all + record.internalLinks)
  {
    assert Scanned(web[s.queue[0].0].links) == web[s.queue[0].0].links;
  }

  /**
   * A new URL whose fetch raised, or whose scan raised, is marked visited,
   * keeping the links it queued and collected before the failure.
   */
  lemma StepAbandons(s: CrawlState, t: CrawlState, start: string, web: map<string, FetchedPage>, host: string)
    requires s.queue != [] && Frontier(s.pages, s.visited, s.queue, s.all, start, web, host)
    requires s.queue[0].0 !in s.visited && s.queue[0].1 <= MaxDepth
    requires s.queue[0].0 in web ==> !Parses(web[s.queue[0].0].links)
    requires var url, scanned := s.queue[0].0, Scanned(LinksAt(web, s.queue[0].0));
      t == CrawlState(s.pages, s.visited + {url}, s.queue[1..] + Enqueued(scanned, host, s.visited + {url}, s.queue[0].1),
                      s.all + SameHostLinks(scanned, host))
    ensures Advances(s, t, start, web, host)
  {
    AbandonKeepsFrontier(s, t, start, web, host);
    assert |t.visited| == |s.visited| + 1;
    assert t.pages[..|s.pages|] == s.pages;
  }

  /** An abandoned visit records nothing and keeps what the scan collected before it raised. */
  lemma AbandonedStep(s: CrawlState, web: map<string, FetchedPage>, host: string)
    requires s.queue != [] && s.queue[0].0 !in s.visited && s.queue[0].1 <= MaxDepth
    requires s.queue[0].0 in web ==> !Parses(web[s.queue[0].0].links)
    ensures var url, scanned := s.queue[0].0, Scanned(LinksAt(web, s.queue[0].0));
      Step(s, web, host)
      == CrawlState(s.pages, s.visited + {url}, s.queue[1..] + Enqueued(scanned, host, s.visited + {url}, s.queue[0].1),
                    s.all + SameHostLinks(scanned, host))
  {
    assert s.pages + [] == s.pages;
  }

  /** The body of the frontier loop, computing `Step`. */
  method Visit(pages: seq<PageRecord>, visited: set<string>, queue: seq<(string, nat)>, all: set<string>,
               web: map<string, FetchedPage>, host: string)
    returns (pages': seq<PageRecord>, visited': set<string>, queue': seq<(string, nat)>, all': set<string>)
    requires queue != []
    ensures CrawlState(pages', visited', queue', all') == Step(CrawlState(pages, visited, queue, all), web, host)
  {
    var (url, depth) := queue[0];
    if url in visited || depth > MaxDepth {
      pages', visited', queue', all' := pages, visited, queue[1..], all;
    } else if url !in web {
      pages', visited', queue', all' := pages, visited + {url}, queue[1..], all;
      assert Scanned(LinksAt(web, url)) == [];
      assert queue' == queue[1..] + [] && all' == all + {} && pages' == pages + [];
    } else {
      var page := web[url];
      visited' := visited + {url};
      var ok, links;
      ok, links, queue', all' := ScanLinks(page, host, visited', depth, queue[1..], all);
      if ok {
        pages' := pages + [PageRecord(url, TitleOf(page), depth, page.hasHeadings, links)];
        assert Scanned(page.links) == page.links;
      } else {
        pages' := pages;
        assert pages' == pages + [];
      }
    }
  }
}
