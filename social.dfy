/**
 * `_analyze_social_media_tags` (backend/seo_analyzer.py). The parsed page is
 * abstracted to which of the Open Graph, Twitter Card, `og:image` and
 * `og:description` meta tags it has.
 */
module Social {
  import opened Options
  import opened Classifier
  import opened Metrics

  datatype SocialPage = SocialPage(hasOpenGraph: bool, hasTwitterCards: bool, hasOgImage: bool, hasOgDescription: bool)

  /** Functional sites are not asked for social tags; other sites lose points for each one missing. */
  function SocialFindings(tags: SocialPage, wt: WebsiteType): seq<Issue>
  {
    if wt == Functional then []
    else
      When(!tags.hasOpenGraph, SocialTags(MissingOpenGraph))
      + When(!tags.hasTwitterCards, SocialTags(MissingTwitterCards))
      + When(!tags.hasOgImage, SocialTags(MissingOgImage))
      + When(!tags.hasOgDescription, SocialTags(MissingOgDescription))
  }

  function SocialDataOf(tags: SocialPage): MetricData
  {
    SocialData(tags.hasOpenGraph, tags.hasTwitterCards, tags.hasOgImage, tags.hasOgDescription)
  }

  /** The card checks: 20 points without Open Graph tags, 15 without Twitter cards. */
  method CheckCards(tags: SocialPage, wt: WebsiteType, score: int, issues: seq<Issue>)
    returns (score': int, issues': seq<Issue>)
    requires score == 100 - TotalDeduction(issues, wt)
    ensures score' == 100 - TotalDeduction(issues', wt)
    ensures issues' == issues + When(!tags.hasOpenGraph, SocialTags(MissingOpenGraph))
                              + When(!tags.hasTwitterCards, SocialTags(MissingTwitterCards))
  {
    score', issues' := score, issues;
    if !tags.hasOpenGraph {
      TotalDeductionAppend(issues', SocialTags(MissingOpenGraph), wt);
      score', issues' := score' - 20, issues' + [SocialTags(MissingOpenGraph)];
    }
    if !tags.hasTwitterCards {
      TotalDeductionAppend(issues', SocialTags(MissingTwitterCards), wt);
      score', issues' := score' - 15, issues' + [SocialTags(MissingTwitterCards)];
    }
  }

  /** The Open Graph field checks: 10 points each without `og:image` and without `og:description`. */
  method CheckOgFields(tags: SocialPage, wt: WebsiteType, score: int, issues: seq<Issue>)
    returns (score': int, issues': seq<Issue>)
    requires score == 100 - TotalDeduction(issues, wt)
    ensures score' == 100 - TotalDeduction(issues', wt)
    ensures issues' == issues + When(!tags.hasOgImage, SocialTags(MissingOgImage))
                              + When(!tags.hasOgDescription, SocialTags(MissingOgDescription))
  {
    score', issues' := score, issues;
    if !tags.hasOgImage {
      TotalDeductionAppend(issues', SocialTags(MissingOgImage), wt);
      score', issues' := score' - 10, issues' + [SocialTags(MissingOgImage)];
    }
    if !tags.hasOgDescription {
      TotalDeductionAppend(issues', SocialTags(MissingOgDescription), wt);
      score', issues' := score' - 10, issues' + [SocialTags(MissingOgDescription)];
    }
  }

  /** The social metric: no checks on a functional site, the four checks in turn on others. */
  method AnalyzeSocialMediaTags(tags: SocialPage, wt: WebsiteType) returns (r: MetricResult)
    ensures r.issues == Some(SocialFindings(tags, wt))
    ensures Scored(r, wt)
    ensures r.data == SocialDataOf(tags)
  {
    if wt == Functional {
      r := MetricResult(100, Some([]), SocialDataOf(tags));
    } else {
      var score, issues := CheckCards(tags, wt, 100, []);
      assert issues == When(!tags.hasOpenGraph, SocialTags(MissingOpenGraph))
                       + When(!tags.hasTwitterCards, SocialTags(MissingTwitterCards));
      score, issues := CheckOgFields(tags, wt, score, issues);
      assert issues == SocialFindings(tags, wt);
      r := MetricResult(Clamp(score), Some(issues), SocialDataOf(tags));
    }
  }

  /** A functional site scores 100 on social tags whatever tags it has. */
  lemma FunctionalSocialIsPerfect(tags: SocialPage)
    ensures SocialFindings(tags, Functional) == []
    ensures Clamp(100 - TotalDeduction(SocialFindings(tags, Functional), Functional)) == 100
  {
  }

  /** On other sites each missing tag is reported, and only missing tags are. */
  lemma SocialFindingsMembers(tags: SocialPage, wt: WebsiteType)
    requires wt != Functional
    ensures SocialTags(MissingOpenGraph) in SocialFindings(tags, wt) <==> !tags.hasOpenGraph
    ensures SocialTags(MissingTwitterCards) in SocialFindings(tags, wt) <==> !tags.hasTwitterCards
    ensures SocialTags(MissingOgImage) in SocialFindings(tags, wt) <==> !tags.hasOgImage
    ensures SocialTags(MissingOgDescription) in SocialFindings(tags, wt) <==> !tags.hasOgDescription
    ensures forall x :: x in SocialFindings(tags, wt) ==> x.SocialTags?
  {
    SocialFindingsParts(tags, wt);
  }

  /** A social issue is reported exactly when its tag is missing. */
  lemma SocialFindingsParts(tags: SocialPage, wt: WebsiteType)
    requires wt != Functional
    ensures forall x :: x in SocialFindings(tags, wt) <==>
              (!tags.hasOpenGraph && x == SocialTags(MissingOpenGraph))
              || (!tags.hasTwitterCards && x == SocialTags(MissingTwitterCards))
              || (!tags.hasOgImage && x == SocialTags(MissingOgImage))
              || (!tags.hasOgDescription && x == SocialTags(MissingOgDescription))
  {
    var a := When(!tags.hasOpenGraph, SocialTags(MissingOpenGraph));
    var b := When(!tags.hasTwitterCards, SocialTags(MissingTwitterCards));
    var c := When(!tags.hasOgImage, SocialTags(MissingOgImage));
    var d := When(!tags.hasOgDescription, SocialTags(MissingOgDescription));
    assert SocialFindings(tags, wt) == a + b + c + d;
    forall x ensures x in SocialFindings(tags, wt) <==> x in a || x in b || x in c || x in d {
    }
  }

  /** The social score of a site that is not functional is the sum of the missing tags' costs taken from 100, at least 45. */
  lemma SocialScore(tags: SocialPage, wt: WebsiteType)
    requires wt != Functional
    ensures 100 - TotalDeduction(SocialFindings(tags, wt), wt)
            == 100 - (if tags.hasOpenGraph then 0 else 20) - (if tags.hasTwitterCards then 0 else 15)
                   - (if tags.hasOgImage then 0 else 10) - (if tags.hasOgDescription then 0 else 10)
    ensures 100 - TotalDeduction(SocialFindings(tags, wt), wt) >= 45
  {
    var a := When(!tags.hasOpenGraph, SocialTags(MissingOpenGraph));
    var b := When(!tags.hasTwitterCards, SocialTags(MissingTwitterCards));
    var c := When(!tags.hasOgImage, SocialTags(MissingOgImage));
    var d := When(!tags.hasOgDescription, SocialTags(MissingOgDescription));
    assert SocialFindings(tags, wt) == a + b + c + d;
    TotalDeductionWhen([], !tags.hasOpenGraph, SocialTags(MissingOpenGraph), wt);
    assert [] + a == a;
    TotalDeductionWhen(a, !tags.hasTwitterCards, SocialTags(MissingTwitterCards), wt);
    TotalDeductionWhen(a + b, !tags.hasOgImage, SocialTags(MissingOgImage), wt);
    TotalDeductionWhen(a + b + c, !tags.hasOgDescription, SocialTags(MissingOgDescription), wt);
  }
}
