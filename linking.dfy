/**
 * `_analyze_internal_linking` (backend/seo_analyzer.py). Each <a href> of
 * the page is abstracted to its href text and, already resolved against the
 * page URL, the host and the full URL it points to. The HEAD probes of the
 * broken-link check are an input map from URL to status code; a URL missing
 * from the map is one whose probe raised. The site-wide checks read the
 * pages of a crawl, when there is one.
 */
module Linking {
  import opened Options
  import opened Classifier
  import opened Metrics
  import opened Crawler

  datatype Anchor = Anchor(href: string, host: string, url: string)

  /** The full URLs of the links with a non-empty href whose host is (or is not) the page's own. */
  function LinksTo(anchors: seq<Anchor>, domain: string, internal: bool): (r: seq<string>)
    ensures |r| <= |anchors|
  {
    if |anchors| == 0 then []
    else
      var a := anchors[|anchors| - 1];
      LinksTo(anchors[..|anchors| - 1], domain, internal)
      + (if a.href != "" && (a.host == domain) == internal then [a.url] else [])
  }

  /** The partition loop: every link with a non-empty href goes to exactly one of the two lists. */
  method PartitionLinks(anchors: seq<Anchor>, domain: string) returns (internal: seq<string>, external: seq<string>)
    ensures internal == LinksTo(anchors, domain, true)
    ensures external == LinksTo(anchors, domain, false)
  {
    internal, external := [], [];
    for i := 0 to |anchors|
      invariant internal == LinksTo(anchors[..i], domain, true)
      invariant external == LinksTo(anchors[..i], domain, false)
    {
      assert anchors[..i + 1][..i] == anchors[..i];
      var href := anchors[i].href;
      if href == "" {
        continue;
      }
      if anchors[i].host == domain {
        internal := internal + [anchors[i].url];
      } else {
        external := external + [anchors[i].url];
      }
    }
    assert anchors[..|anchors|] == anchors;
  }

  /** The number of links with a non-empty href. */
  function WithHref(anchors: seq<Anchor>): nat
  {
    if |anchors| == 0 then 0 else WithHref(anchors[..|anchors| - 1]) + (if anchors[|anchors| - 1].href != "" then 1 else 0)
  }

  /** The partition loses no link and counts none twice. */
  lemma {:induction false} PartitionIsComplete(anchors: seq<Anchor>, domain: string)
    ensures |LinksTo(anchors, domain, true)| + |LinksTo(anchors, domain, false)| == WithHref(anchors)
    ensures WithHref(anchors) <= |anchors|
  {
    if anchors != [] {
      PartitionIsComplete(anchors[..|anchors| - 1], domain);
    }
  }

  /** The number of links the broken-link check probes. */
  const ProbeLimit: nat := 5

  /** A probe that raised, or answered with status 400 or above. */
  predicate IsBroken(probe: map<string, int>, url: string)
  {
    url !in probe || probe[url] >= 400
  }

  function BrokenAmong(urls: seq<string>, probe: map<string, int>): (r: nat)
    ensures r <= |urls|
  {
    if |urls| == 0 then 0
    else BrokenAmong(urls[..|urls| - 1], probe) + (if IsBroken(probe, urls[|urls| - 1]) then 1 else 0)
  }

  /** The first five internal links, or all of them when there are fewer. */
  function Probed(internal: seq<string>): (r: seq<string>)
    ensures |r| <= ProbeLimit
  {
    if |internal| <= ProbeLimit then internal else internal[..ProbeLimit]
  }

  /** The broken-link loop over the first five internal links. */
  method CountBroken(internal: seq<string>, probe: map<string, int>) returns (broken: nat)
    ensures broken == BrokenAmong(Probed(internal), probe)
  {
    var probed := if |internal| <= 5 then internal else internal[..5];
    broken := 0;
    for i := 0 to |probed|
      invariant broken == BrokenAmong(probed[..i], probe)
    {
      assert probed[..i + 1][..i] == probed[..i];
      var link := probed[i];
      if link !in probe || probe[link] >= 400 {
        broken := broken + 1;
      }
    }
    assert probed[..|probed|] == probed;
  }

  /** The orphan loops: the union of the pages' links, then the pages below the start that no page links to. */
  method CountOrphans(pages: seq<PageRecord>) returns (linked: set<string>, orphans: nat)
    ensures linked == LinkUnion(pages)
    ensures orphans == OrphanCount(pages, linked)
  {
    linked := {};
    for i := 0 to |pages|
      invariant linked == LinkUnion(pages[..i])
    {
      assert pages[..i + 1][..i] == pages[..i];
      linked := linked + pages[i].internalLinks;
    }
    assert pages[..|pages|] == pages;
    orphans := 0;
    for i := 0 to |pages|
      invariant orphans == OrphanCount(pages[..i], linked)
    {
      assert pages[..i + 1][..i] == pages[..i];
      if pages[i].url !in linked && pages[i].depth > 0 {
        orphans := orphans + 1;
      }
    }
    assert pages[..|pages|] == pages;
  }

  /** The site-wide rules: orphan pages, and more than five pages at depth 3 or more. */
  function SiteFindings(site: Option<seq<PageRecord>>): seq<Issue>
  {
    match site
    case None => []
    case Some(pages) =>
      var orphans := OrphanCount(pages, LinkUnion(pages));
      When(orphans > 0, InternalLinking(OrphanPages(orphans)))
      + When(DeepPages(pages) > 5, InternalLinking(DeepLinks(DeepPages(pages))))
  }

  /** The linking rules in the order the source applies them. */
  function LinkingFindings(anchors: seq<Anchor>, domain: string, probe: map<string, int>, site: Option<seq<PageRecord>>): seq<Issue>
  {
    var broken := BrokenAmong(Probed(LinksTo(anchors, domain, true)), probe);
    When(broken > 0, InternalLinking(BrokenLinks(broken)))
    + When(|LinksTo(anchors, domain, false)| > 15, InternalLinking(TooManyExternalLinks))
    + SiteFindings(site)
  }

  function LinkingDataOf(anchors: seq<Anchor>, domain: string, probe: map<string, int>, site: Option<seq<PageRecord>>): MetricData
  {
    var external := LinksTo(anchors, domain, false);
    LinkingData(|anchors|, BrokenAmong(Probed(LinksTo(anchors, domain, true)), probe), |external|,
                if |external| <= 5 then external else external[..5],
                if site.Some? then OrphanCount(site.value, LinkUnion(site.value)) else 0,
                if site.Some? then DeepPages(site.value) else 0)
  }

  /** The page checks: 10 points a broken link, 10 for more than 15 external links. */
  method CheckPageLinks(broken: nat, external: seq<string>, wt: WebsiteType, score: int, issues: seq<Issue>)
    returns (score': int, issues': seq<Issue>)
    requires score == 100 - TotalDeduction(issues, wt)
    ensures score' == 100 - TotalDeduction(issues', wt)
    ensures issues' == issues + When(broken > 0, InternalLinking(BrokenLinks(broken)))
                              + When(|external| > 15, InternalLinking(TooManyExternalLinks))
  {
    score', issues' := score, issues;
    if broken > 0 {
      TotalDeductionAppend(issues', InternalLinking(BrokenLinks(broken)), wt);
      score', issues' := score' - broken * 10, issues' + [InternalLinking(BrokenLinks(broken))];
    }
    if |external| > 15 {
      TotalDeductionAppend(issues', InternalLinking(TooManyExternalLinks), wt);
      score', issues' := score' - 10, issues' + [InternalLinking(TooManyExternalLinks)];
    }
  }

  /** The site checks: 5 points an orphan page, at most 15, and 10 for more than five deep pages. */
  method CheckSite(site: Option<seq<PageRecord>>, wt: WebsiteType, score: int, issues: seq<Issue>)
    returns (orphans: nat, deep: nat, score': int, issues': seq<Issue>)
    requires score == 100 - TotalDeduction(issues, wt)
    ensures score' == 100 - TotalDeduction(issues', wt)
    ensures issues' == issues + SiteFindings(site)
    ensures orphans == (if site.Some? then OrphanCount(site.value, LinkUnion(site.value)) else 0)
    ensures deep == (if site.Some? then DeepPages(site.value) else 0)
  {
    score', issues' := score, issues;
    orphans, deep := 0, 0;
    if site.Some? {
      var pages := site.value;
      var linked;
      linked, orphans := CountOrphans(pages);
      deep := DeepPages(pages);
      if orphans > 0 {
        TotalDeductionAppend(issues', InternalLinking(OrphanPages(orphans)), wt);
        score', issues' := score' - Min(15, orphans * 5), issues' + [InternalLinking(OrphanPages(orphans))];
      }
      if deep > 5 {
        TotalDeductionAppend(issues', InternalLinking(DeepLinks(deep)), wt);
        score', issues' := score' - 10, issues' + [InternalLinking(DeepLinks(deep))];
      }
    }
  }

  /** The page and site checks, from a score of 100. */
  method CheckLinks(broken: nat, external: seq<string>, site: Option<seq<PageRecord>>, wt: WebsiteType)
    returns (orphans: nat, deep: nat, score: int, issues: seq<Issue>)
    ensures score == 100 - TotalDeduction(issues, wt)
    ensures issues == When(broken > 0, InternalLinking(BrokenLinks(broken)))
                      + When(|external| > 15, InternalLinking(TooManyExternalLinks)) + SiteFindings(site)
    ensures orphans == (if site.Some? then OrphanCount(site.value, LinkUnion(site.value)) else 0)
    ensures deep == (if site.Some? then DeepPages(site.value) else 0)
  {
    score, issues := CheckPageLinks(broken, external, wt, 100, []);
    assert issues == When(broken > 0, InternalLinking(BrokenLinks(broken)))
                     + When(|external| > 15, InternalLinking(TooManyExternalLinks));
    orphans, deep, score, issues := CheckSite(site, wt, score, issues);
  }

  /** The linking metric: partition the links, probe, apply the page and site checks, clamp at 0. */
  method AnalyzeInternalLinking(anchors: seq<Anchor>, domain: string, probe: map<string, int>,
                                wt: WebsiteType, site: Option<seq<PageRecord>>)
    returns (r: MetricResult)
    ensures r.issues == Some(LinkingFindings(anchors, domain, probe, site))
    ensures Scored(r, wt)
    ensures r.data == LinkingDataOf(anchors, domain, probe, site)
  {
    var internal, external := PartitionLinks(anchors, domain);
    var broken := CountBroken(internal, probe);
    var orphans, deep, score, issues := CheckLinks(broken, external, site, wt);
    var shown := if |external| <= 5 then external else external[..5];
    r := MetricResult(Clamp(score), Some(issues), LinkingData(|anchors|, broken, |external|, shown, orphans, deep));
  }

  /** A linking issue is reported exactly when the rule that reports it fires. */
  lemma LinkingFindingsParts(anchors: seq<Anchor>, domain: string, probe: map<string, int>, site: Option<seq<PageRecord>>)
    ensures var broken := BrokenAmong(Probed(LinksTo(anchors, domain, true)), probe);
            var external := |LinksTo(anchors, domain, false)|;
      forall x :: x in LinkingFindings(anchors, domain, probe, site) <==>
        (broken > 0 && x == InternalLinking(BrokenLinks(broken)))
        || (external > 15 && x == InternalLinking(TooManyExternalLinks))
        || x in SiteFindings(site)
  {
  }

  /** At most five links are probed, so the broken-link rule costs at most 50 points. */
  lemma BrokenAtMostFive(anchors: seq<Anchor>, domain: string, probe: map<string, int>, wt: WebsiteType)
    ensures BrokenAmong(Probed(LinksTo(anchors, domain, true)), probe) <= ProbeLimit
    ensures Deduction(InternalLinking(BrokenLinks(BrokenAmong(Probed(LinksTo(anchors, domain, true)), probe))), wt) <= 50
  {
  }

  /** Only the first five internal links are probed: what the map says about later ones does not matter. */
  lemma LaterLinksNotProbed(internal: seq<string>, probe: map<string, int>, url: string, status: int)
    requires url !in Probed(internal)
    ensures BrokenAmong(Probed(internal), probe[url := status]) == BrokenAmong(Probed(internal), probe)
  {
    ProbedUnaffected(Probed(internal), probe, url, status);
  }

  lemma {:induction false} ProbedUnaffected(urls: seq<string>, probe: map<string, int>, url: string, status: int)
    requires url !in urls
    ensures BrokenAmong(urls, probe[url := status]) == BrokenAmong(urls, probe)
  {
    if urls != [] {
      assert url !in urls[..|urls| - 1] && urls[|urls| - 1] != url;
      ProbedUnaffected(urls[..|urls| - 1], probe, url, status);
    }
  }

  /** The pages of a crawl in which no link scan raised never produce an orphan-page issue: every page below the start was reached by a link. */
  lemma CrawledSiteHasNoOrphanIssue(result: CrawlResult, visited: set<string>, start: string, maxPages: int,
                                    web: map<string, FetchedPage>, host: string)
    requires Crawled(result, visited, start, maxPages, web, host) && CleanWeb(web)
    ensures forall n :: InternalLinking(OrphanPages(n)) !in SiteFindings(Some(result.pages))
  {
    CrawlHasNoOrphans(result, visited, start, maxPages, web, host);
  }

  /** With the broken-link rule bounded and the others capped, the linking score is at least 15 and never clamped. */
  lemma LinkingScoreFloor(anchors: seq<Anchor>, domain: string, probe: map<string, int>,
                          site: Option<seq<PageRecord>>, wt: WebsiteType)
    ensures TotalDeduction(LinkingFindings(anchors, domain, probe, site), wt) <= 85
  {
    var broken := BrokenAmong(Probed(LinksTo(anchors, domain, true)), probe);
    var b := When(broken > 0, InternalLinking(BrokenLinks(broken)));
    var e := When(|LinksTo(anchors, domain, false)| > 15, InternalLinking(TooManyExternalLinks));
    TotalDeductionWhen([], broken > 0, InternalLinking(BrokenLinks(broken)), wt);
    assert [] + b == b;
    TotalDeductionWhen(b, |LinksTo(anchors, domain, false)| > 15, InternalLinking(TooManyExternalLinks), wt);
    SiteCostAtMost(site, wt);
    TotalDeductionConcat(b + e, SiteFindings(site), wt);
  }

  lemma SiteCostAtMost(site: Option<seq<PageRecord>>, wt: WebsiteType)
    ensures TotalDeduction(SiteFindings(site), wt) <= 25
  {
    if site.Some? {
      var pages := site.value;
      var orphans := OrphanCount(pages, LinkUnion(pages));
      var o := When(orphans > 0, InternalLinking(OrphanPages(orphans)));
      TotalDeductionWhen([], orphans > 0, InternalLinking(OrphanPages(orphans)), wt);
      assert [] + o == o;
      TotalDeductionWhen(o, DeepPages(pages) > 5, InternalLinking(DeepLinks(DeepPages(pages))), wt);
    }
  }
}
