/**
 * `_analyze_url_structure` (backend/seo_analyzer.py). The URL is given
 * together with the path component `urlparse` extracts from it.
 */
module UrlStructure {
  import opened Options
  import opened Classifier
  import opened Metrics
  import opened Urls

  /** The URL rules: longer than 100 characters, deeper than 5 path segments, special characters in the path. */
  function UrlFindings(url: string, path: string): seq<Issue>
  {
    When(|url| > 100, UrlStructure(UrlTooLong(|url|)))
    + When(PathDepth(path) > 5, UrlStructure(UrlTooDeep(PathDepth(path))))
    + When(HasSpecialChars(path), UrlStructure(SpecialCharacters))
  }

  function UrlDataOf(url: string, path: string): MetricData
  {
    UrlData(|url|, PathDepth(path), HasSeoKeyword(url), HasSpecialChars(path))
  }

  /** The length and depth checks: 20 points above 100 characters, 15 above 5 segments. */
  method CheckLengthAndDepth(url: string, path: string, wt: WebsiteType, score: int, issues: seq<Issue>)
    returns (score': int, issues': seq<Issue>)
    requires score == 100 - TotalDeduction(issues, wt)
    ensures score' == 100 - TotalDeduction(issues', wt)
    ensures issues' == issues + When(|url| > 100, UrlStructure(UrlTooLong(|url|)))
                              + When(PathDepth(path) > 5, UrlStructure(UrlTooDeep(PathDepth(path))))
  {
    score', issues' := score, issues;
    var length := |url|;
    var depth := PathDepth(path);
    if length > 100 {
      TotalDeductionAppend(issues', UrlStructure(UrlTooLong(length)), wt);
      score', issues' := score' - 20, issues' + [UrlStructure(UrlTooLong(length))];
    }
    if depth > 5 {
      TotalDeductionAppend(issues', UrlStructure(UrlTooDeep(depth)), wt);
      score', issues' := score' - 15, issues' + [UrlStructure(UrlTooDeep(depth))];
    }
  }

  /** The character check: 10 points when the path has a character outside `[a-zA-Z0-9\-_/]`. */
  method CheckSpecialChars(path: string, wt: WebsiteType, score: int, issues: seq<Issue>)
    returns (score': int, issues': seq<Issue>)
    requires score == 100 - TotalDeduction(issues, wt)
    ensures score' == 100 - TotalDeduction(issues', wt)
    ensures issues' == issues + When(HasSpecialChars(path), UrlStructure(SpecialCharacters))
  {
    score', issues' := score, issues;
    if HasSpecialChars(path) {
      TotalDeductionAppend(issues', UrlStructure(SpecialCharacters), wt);
      score', issues' := score' - 10, issues' + [UrlStructure(SpecialCharacters)];
    }
  }

  /** The URL metric: the length and depth checks, then the character check. */
  method AnalyzeUrlStructure(url: string, path: string, wt: WebsiteType) returns (r: MetricResult)
    ensures r.issues == Some(UrlFindings(url, path))
    ensures Scored(r, wt)
    ensures r.data == UrlDataOf(url, path)
  {
    var score, issues := CheckLengthAndDepth(url, path, wt, 100, []);
    assert issues == When(|url| > 100, UrlStructure(UrlTooLong(|url|)))
                     + When(PathDepth(path) > 5, UrlStructure(UrlTooDeep(PathDepth(path))));
    score, issues := CheckSpecialChars(path, wt, score, issues);
    assert issues == UrlFindings(url, path);
    r := MetricResult(Clamp(score), Some(issues), UrlDataOf(url, path));
  }

  /** Each URL issue is reported exactly when its rule fires, and only URL issues are. */
  lemma UrlFindingsMembers(url: string, path: string)
    ensures UrlStructure(UrlTooLong(|url|)) in UrlFindings(url, path) <==> |url| > 100
    ensures UrlStructure(UrlTooDeep(PathDepth(path))) in UrlFindings(url, path) <==> PathDepth(path) > 5
    ensures UrlStructure(SpecialCharacters) in UrlFindings(url, path) <==> HasSpecialChars(path)
    ensures forall x :: x in UrlFindings(url, path) ==> x.UrlStructure?
  {
  }

  /** Every URL keeps at least 55 points, and a short, shallow, plain URL keeps all 100. */
  lemma UrlScoreRange(url: string, path: string, wt: WebsiteType)
    ensures 55 <= 100 - TotalDeduction(UrlFindings(url, path), wt) <= 100
    ensures 100 - TotalDeduction(UrlFindings(url, path), wt) == 100
            <==> |url| <= 100 && PathDepth(path) <= 5 && !HasSpecialChars(path)
  {
    var a := When(|url| > 100, UrlStructure(UrlTooLong(|url|)));
    var b := When(PathDepth(path) > 5, UrlStructure(UrlTooDeep(PathDepth(path))));
    var c := When(HasSpecialChars(path), UrlStructure(SpecialCharacters));
    assert UrlFindings(url, path) == a + b + c;
    TotalDeductionWhen([], |url| > 100, UrlStructure(UrlTooLong(|url|)), wt);
    assert [] + a == a;
    TotalDeductionWhen(a, PathDepth(path) > 5, UrlStructure(UrlTooDeep(PathDepth(path))), wt);
    TotalDeductionWhen(a + b, HasSpecialChars(path), UrlStructure(SpecialCharacters), wt);
  }
}
