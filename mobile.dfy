/**
 * `_analyze_mobile_optimization` (backend/seo_analyzer.py). The parsed page
 * is abstracted to whether it has a viewport meta tag, the `style`
 * attribute of each button, link and input ("" when absent), and whether
 * some element has a class naming a mobile menu.
 */
module Mobile {
  import opened Options
  import opened Text
  import opened Classifier
  import opened Metrics
  import opened Counting

  datatype MobilePage = MobilePage(hasViewport: bool, controlStyles: seq<string>, hasMobileMenu: bool)

  /** A control whose style sets neither a width nor a height counts as a small touch target. */
  predicate SmallTarget(style: string)
  {
    !(Contains(style, "width") || Contains(style, "height"))
  }

  /** The number of small touch targets above which a page is penalised. */
  function TouchTargetLimit(wt: WebsiteType): nat
  {
    if wt == Functional then 20 else 10
  }

  /** The font size the source reports for every page. */
  const DefaultFontSize: nat := 16

  /** The mobile rules: a missing viewport, then too many small touch targets. */
  function MobileFindings(page: MobilePage, wt: WebsiteType): seq<Issue>
  {
    var small := Count(page.controlStyles, SmallTarget);
    When(!page.hasViewport, Mobile(MissingViewport))
    + When(small > TouchTargetLimit(wt), Mobile(SmallTouchTargets(small)))
  }

  /** The touch-target loop: counts the controls whose style mentions neither width nor height. */
  method CountSmallTouchTargets(styles: seq<string>) returns (small: nat)
    ensures small == Count(styles, SmallTarget)
  {
    small := 0;
    for i := 0 to |styles|
      invariant small == Count(styles[..i], SmallTarget)
    {
      CountAppend(styles[..i], styles[i], SmallTarget);
      assert styles[..i + 1] == styles[..i] + [styles[i]];
      if Contains(styles[i], "width") || Contains(styles[i], "height") {
      } else {
        small := small + 1;
      }
    }
    assert styles[..|styles|] == styles;
  }

  /** The viewport check: 15 points on a functional site, 30 on others. */
  method CheckViewport(page: MobilePage, wt: WebsiteType, score: int, issues: seq<Issue>)
    returns (score': int, issues': seq<Issue>)
    requires score == 100 - TotalDeduction(issues, wt)
    ensures score' == 100 - TotalDeduction(issues', wt)
    ensures issues' == issues + When(!page.hasViewport, Mobile(MissingViewport))
  {
    score', issues' := score, issues;
    if !page.hasViewport {
      TotalDeductionAppend(issues', Mobile(MissingViewport), wt);
      if wt == Functional {
        score', issues' := score' - 15, issues' + [Mobile(MissingViewport)];
      } else {
        score', issues' := score' - 30, issues' + [Mobile(MissingViewport)];
      }
    }
  }

  /** The touch-target check: 10 points above 20 small targets on a functional site, 15 above 10 on others. */
  method CheckTouchTargets(page: MobilePage, wt: WebsiteType, score: int, issues: seq<Issue>)
    returns (small: nat, score': int, issues': seq<Issue>)
    requires score == 100 - TotalDeduction(issues, wt)
    ensures score' == 100 - TotalDeduction(issues', wt)
    ensures small == Count(page.controlStyles, SmallTarget)
    ensures issues' == issues + When(small > TouchTargetLimit(wt), Mobile(SmallTouchTargets(small)))
  {
    score', issues' := score, issues;
    small := CountSmallTouchTargets(page.controlStyles);
    if wt == Functional {
      if small > 20 {
        TotalDeductionAppend(issues', Mobile(SmallTouchTargets(small)), wt);
        score', issues' := score' - 10, issues' + [Mobile(SmallTouchTargets(small))];
      }
    } else {
      if small > 10 {
        TotalDeductionAppend(issues', Mobile(SmallTouchTargets(small)), wt);
        score', issues' := score' - 15, issues' + [Mobile(SmallTouchTargets(small))];
      }
    }
  }

  /** The mobile metric: the two checks in turn, starting from 100, clamped at 0. */
  method AnalyzeMobileOptimization(page: MobilePage, wt: WebsiteType) returns (r: MetricResult)
    ensures r.issues == Some(MobileFindings(page, wt))
    ensures Scored(r, wt)
    ensures r.data == MobileData(page.hasViewport, Count(page.controlStyles, SmallTarget), DefaultFontSize, page.hasMobileMenu)
  {
    var score, issues := CheckViewport(page, wt, 100, []);
    assert issues == When(!page.hasViewport, Mobile(MissingViewport));
    var small;
    small, score, issues := CheckTouchTargets(page, wt, score, issues);
    assert issues == MobileFindings(page, wt);
    r := MetricResult(Clamp(score), Some(issues), MobileData(page.hasViewport, small, DefaultFontSize, page.hasMobileMenu));
  }

  /** Each mobile issue is reported exactly when its rule fires, and no other issue is. */
  lemma MobileFindingsMembers(page: MobilePage, wt: WebsiteType)
    ensures Mobile(MissingViewport) in MobileFindings(page, wt) <==> !page.hasViewport
    ensures var small := Count(page.controlStyles, SmallTarget);
      Mobile(SmallTouchTargets(small)) in MobileFindings(page, wt) <==> small > TouchTargetLimit(wt)
    ensures forall x :: x in MobileFindings(page, wt) ==> x.Mobile?
  {
  }

  /** Allowing more small touch targets on functional sites: never more issues there than elsewhere. */
  lemma FunctionalMobileIsLenient(page: MobilePage)
    ensures |MobileFindings(page, Functional)| <= |MobileFindings(page, Content)|
    ensures TotalDeduction(MobileFindings(page, Functional), Functional)
            <= TotalDeduction(MobileFindings(page, Content), Content)
  {
    var small := Count(page.controlStyles, SmallTarget);
    var viewport := When(!page.hasViewport, Mobile(MissingViewport));
    TotalDeductionWhen([], !page.hasViewport, Mobile(MissingViewport), Functional);
    TotalDeductionWhen([], !page.hasViewport, Mobile(MissingViewport), Content);
    assert [] + viewport == viewport;
    TotalDeductionWhen(viewport, small > 20, Mobile(SmallTouchTargets(small)), Functional);
    TotalDeductionWhen(viewport, small > 10, Mobile(SmallTouchTargets(small)), Content);
  }

  /** Styling every control with a width or height removes the touch-target issue. */
  lemma SizedControlsAreNotSmall(page: MobilePage, wt: WebsiteType)
    requires forall i :: 0 <= i < |page.controlStyles| ==> Contains(page.controlStyles[i], "width")
    ensures MobileFindings(page, wt) == When(!page.hasViewport, Mobile(MissingViewport))
  {
    CountBounds(page.controlStyles, SmallTarget);
  }
}
