/**
 * `_analyze_sitemap` (backend/seo_analyzer.py). The GET of
 * `<scheme>://<host>/sitemap.xml` is an input: either the status code with
 * what the XML parse finds (the <lastmod> text of each <url> element, absent
 * when it has none, and whether an <image:image> element occurs), or a
 * failure caught by the bare `except` around both the request and the XML
 * parse.
 */
module Sitemap {
  import opened Options
  import opened Classifier
  import opened Metrics

  datatype SitemapFetch =
    | SitemapResponse(status: int, urlLastmods: seq<Option<string>>, hasImageTag: bool)
    | SitemapUnreachableFetch

  /** The file counts as present only with status 200. */
  predicate Present(fetch: SitemapFetch)
  {
    fetch.SitemapResponse? && fetch.status == 200
  }

  /** A sitemap listing fewer URLs than this loses points. */
  const MinPages: nat := 10

  /** The sitemap rules: a missing file, a short file, or a request that failed. */
  function SitemapFindings(fetch: SitemapFetch): seq<Issue>
  {
    match fetch
    case SitemapUnreachableFetch => [SitemapXml(SitemapUnreachable)]
    case SitemapResponse(status, urls, _) =>
      When(status != 200, SitemapXml(MissingSitemap))
      + When(status == 200 && |urls| < MinPages, SitemapXml(FewSitemapPages(|urls|)))
  }

  /** The values reported: the number of <url> elements, the first one's <lastmod>, and the image flag. */
  function SitemapDataOf(fetch: SitemapFetch): MetricData
  {
    if Present(fetch) then
      SitemapData(true, |fetch.urlLastmods|,
                  if fetch.urlLastmods == [] then None else fetch.urlLastmods[0], fetch.hasImageTag)
    else SitemapData(false, 0, None, false)
  }

  /**
   * The sitemap metric: 30 points for a status other than 200 or for a
   * request that raised, 10 for a sitemap of fewer than ten pages.
   */
  method AnalyzeSitemap(fetch: SitemapFetch, wt: WebsiteType) returns (r: MetricResult)
    ensures r.issues == Some(SitemapFindings(fetch))
    ensures Scored(r, wt)
    ensures r.data == SitemapDataOf(fetch)
  {
    var score := 100;
    var issues: seq<Issue> := [];
    match fetch {
      case SitemapResponse(status, urls, hasImageTag) =>
        if status != 200 {
          TotalDeductionAppend(issues, SitemapXml(MissingSitemap), wt);
          score, issues := score - 30, issues + [SitemapXml(MissingSitemap)];
          assert issues == SitemapFindings(fetch);
          r := MetricResult(Clamp(score), Some(issues), SitemapData(false, 0, None, false));
        } else {
          var totalPages := |urls|;
          var lastModified := None;
          if urls != [] {
            lastModified := urls[0];
          }
          if totalPages < 10 {
            TotalDeductionAppend(issues, SitemapXml(FewSitemapPages(totalPages)), wt);
            score, issues := score - 10, issues + [SitemapXml(FewSitemapPages(totalPages))];
          }
          assert issues == SitemapFindings(fetch);
          r := MetricResult(Clamp(score), Some(issues), SitemapData(true, totalPages, lastModified, hasImageTag));
        }
      case SitemapUnreachableFetch =>
        TotalDeductionAppend(issues, SitemapXml(SitemapUnreachable), wt);
        score, issues := score - 30, issues + [SitemapXml(SitemapUnreachable)];
        assert issues == SitemapFindings(fetch);
        r := MetricResult(Clamp(score), Some(issues), SitemapData(false, 0, None, false));
    }
  }

  /**
   * The sitemap score takes three values: 100 for a present sitemap of at
   * least ten pages, 90 for a shorter one, 70 when it is missing or cannot be
   * fetched.
   */
  lemma SitemapScores(fetch: SitemapFetch, wt: WebsiteType)
    ensures var score := Clamp(100 - TotalDeduction(SitemapFindings(fetch), wt));
            (score == 100 <==> Present(fetch) && |fetch.urlLastmods| >= MinPages)
            && (score == 90 <==> Present(fetch) && |fetch.urlLastmods| < MinPages)
            && (score == 70 <==> !Present(fetch))
  {
    match fetch
    case SitemapUnreachableFetch =>
      TotalDeductionAppend([], SitemapXml(SitemapUnreachable), wt);
      assert [] + [SitemapXml(SitemapUnreachable)] == SitemapFindings(fetch);
    case SitemapResponse(status, urls, _) =>
      var missing := When(status != 200, SitemapXml(MissingSitemap));
      TotalDeductionWhen([], status != 200, SitemapXml(MissingSitemap), wt);
      assert [] + missing == missing;
      assert SitemapFindings(fetch) == missing + When(status == 200 && |urls| < MinPages, SitemapXml(FewSitemapPages(|urls|)));
      TotalDeductionWhen(missing, status == 200 && |urls| < MinPages, SitemapXml(FewSitemapPages(|urls|)), wt);
  }

  /** At most one sitemap issue is ever reported, and only a sitemap issue. */
  lemma SitemapFindingsAtMostOne(fetch: SitemapFetch)
    ensures |SitemapFindings(fetch)| <= 1
    ensures forall x :: x in SitemapFindings(fetch) ==> x.SitemapXml?
    ensures SitemapFindings(fetch) == [] <==> Present(fetch) && |fetch.urlLastmods| >= MinPages
  {
  }
}
