/**
 * `_analyze_robots_txt` (backend/seo_analyzer.py). The GET of
 * `<scheme>://<host>/robots.txt` is an input: either the response's status
 * code and body text, or a request that raised.
 */
module Robots {
  import opened Options
  import opened Text
  import opened Classifier
  import opened Metrics

  datatype RobotsFetch = RobotsResponse(status: int, body: string) | RobotsUnreachable

  const AdminRule: string := "Disallow: /admin"
  const SitemapRule: string := "Sitemap:"
  const CssRule: string := "Disallow: /*.css"

  /** The file counts as present only with status 200. */
  predicate Present(fetch: RobotsFetch)
  {
    fetch.RobotsResponse? && fetch.status == 200
  }

  /** A present file whose text holds the rule that blocks style sheets. */
  predicate BlocksCss(fetch: RobotsFetch)
  {
    Present(fetch) && Contains(fetch.body, CssRule)
  }

  /** The robots rules: a missing file, a file blocking CSS, or a request that failed. */
  function RobotsFindings(fetch: RobotsFetch): seq<Issue>
  {
    match fetch
    case RobotsUnreachable => [RobotsTxt(RobotsTxtUnreachable)]
    case RobotsResponse(status, body) =>
      When(status != 200, RobotsTxt(MissingRobotsTxt))
      + When(status == 200 && Contains(body, CssRule), RobotsTxt(RobotsBlocksCss))
  }

  /** The values reported besides the score; all false or 0 unless the file is present. */
  function RobotsDataOf(fetch: RobotsFetch): MetricData
  {
    if Present(fetch) then
      RobotsData(true, if Contains(fetch.body, AdminRule) then 1 else 0,
                 Contains(fetch.body, SitemapRule), Contains(fetch.body, CssRule))
    else RobotsData(false, 0, false, false)
  }

  /**
   * The robots metric: 20 points for a status other than 200 or for a
   * request that raised, 10 for a file that blocks CSS.
   */
  method AnalyzeRobotsTxt(fetch: RobotsFetch, wt: WebsiteType) returns (r: MetricResult)
    ensures r.issues == Some(RobotsFindings(fetch))
    ensures Scored(r, wt)
    ensures r.data == RobotsDataOf(fetch)
  {
    var score := 100;
    var issues: seq<Issue> := [];
    var data;
    match fetch {
      case RobotsResponse(status, body) =>
        if status != 200 {
          TotalDeductionAppend(issues, RobotsTxt(MissingRobotsTxt), wt);
          score, issues := score - 20, issues + [RobotsTxt(MissingRobotsTxt)];
          data := RobotsData(false, 0, false, false);
          assert issues == RobotsFindings(fetch);
        } else {
          var blockingImportantPages := 0;
          if Contains(body, AdminRule) {
            blockingImportantPages := blockingImportantPages + 1;
          }
          var hasSitemapReference := Contains(body, SitemapRule);
          var blockingCss := Contains(body, CssRule);
          if blockingCss {
            TotalDeductionAppend(issues, RobotsTxt(RobotsBlocksCss), wt);
            score, issues := score - 10, issues + [RobotsTxt(RobotsBlocksCss)];
          }
          data := RobotsData(true, blockingImportantPages, hasSitemapReference, blockingCss);
          assert issues == RobotsFindings(fetch);
        }
      case RobotsUnreachable =>
        TotalDeductionAppend(issues, RobotsTxt(RobotsTxtUnreachable), wt);
        score, issues := score - 20, issues + [RobotsTxt(RobotsTxtUnreachable)];
        data := RobotsData(false, 0, false, false);
        assert issues == RobotsFindings(fetch);
    }
    r := MetricResult(Clamp(score), Some(issues), data);
  }

  /**
   * The robots score takes three values: 100 for a present file that lets
   * CSS through, 90 for one that blocks it, 80 when the file is missing or
   * cannot be fetched.
   */
  lemma RobotsScores(fetch: RobotsFetch, wt: WebsiteType)
    ensures var score := Clamp(100 - TotalDeduction(RobotsFindings(fetch), wt));
            (score == 100 <==> Present(fetch) && !BlocksCss(fetch))
            && (score == 90 <==> BlocksCss(fetch))
            && (score == 80 <==> !Present(fetch))
  {
    match fetch
    case RobotsUnreachable =>
      TotalDeductionAppend([], RobotsTxt(RobotsTxtUnreachable), wt);
      assert [] + [RobotsTxt(RobotsTxtUnreachable)] == RobotsFindings(fetch);
    case RobotsResponse(status, body) =>
      var missing := When(status != 200, RobotsTxt(MissingRobotsTxt));
      TotalDeductionWhen([], status != 200, RobotsTxt(MissingRobotsTxt), wt);
      assert [] + missing == missing;
      assert RobotsFindings(fetch) == missing + When(status == 200 && Contains(body, CssRule), RobotsTxt(RobotsBlocksCss));
      TotalDeductionWhen(missing, status == 200 && Contains(body, CssRule), RobotsTxt(RobotsBlocksCss), wt);
  }

  /** At most one robots issue is ever reported, and only a robots issue. */
  lemma RobotsFindingsAtMostOne(fetch: RobotsFetch)
    ensures |RobotsFindings(fetch)| <= 1
    ensures forall x :: x in RobotsFindings(fetch) ==> x.RobotsTxt?
    ensures RobotsFindings(fetch) == [] <==> Present(fetch) && !BlocksCss(fetch)
  {
  }
}
