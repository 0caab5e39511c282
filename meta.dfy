/**
 * `_analyze_meta_tags` (backend/seo_analyzer.py). The parsed page is
 * abstracted to its <title> text (absent without a <title>), the `content`
 * of its description meta tag ("" without the tag or the attribute), and
 * whether a keywords meta tag and a canonical link exist. The site-wide
 * duplicate-title check reads the pages of a crawl, when there is one.
 */
module Meta {
  import opened Options
  import opened Text
  import opened Classifier
  import opened Metrics
  import opened Counting
  import opened Crawler

  datatype MetaPage = MetaPage(title: Option<string>, description: string, hasKeywordMeta: bool, hasCanonical: bool)

  /** `title_tag.get_text().strip() if title_tag else ''` */
  function TitleText(page: MetaPage): string
  {
    match page.title
    case None => ""
    case Some(t) => Strip(t)
  }

  /** The shortest title that is not penalised: 10 characters on a functional site, 30 on others. */
  function MinTitle(wt: WebsiteType): nat
  {
    if wt == Functional then 10 else 30
  }

  /** The longest title that is not penalised: 50 characters on a functional site, 60 on others. */
  function MaxTitle(wt: WebsiteType): nat
  {
    if wt == Functional then 50 else 60
  }

  /** A description shorter than 120 characters is penalised, except on a functional site. */
  predicate DescriptionShort(length: nat, wt: WebsiteType)
  {
    wt != Functional && length < 120
  }

  /** A description longer than 200 characters on a functional site, or than 160 on others. */
  predicate DescriptionLong(length: nat, wt: WebsiteType)
  {
    if wt == Functional then length > 200 else length > 160
  }

  /** The non-empty titles of the crawled pages: `[page['title'] for page in pages if page['title']]`. */
  function SiteTitles(pages: seq<PageRecord>): (r: seq<string>)
  {
    if |pages| == 0 then []
    else SiteTitles(pages[..|pages| - 1]) + (if pages[|pages| - 1].title != "" then [pages[|pages| - 1].title] else [])
  }

  /** The number of titles shared by more than one crawled page, 0 without a crawl. */
  function DuplicateTitleCount(site: Option<seq<PageRecord>>): nat
  {
    if site.Some? then DuplicateCount(SiteTitles(site.value)) else 0
  }

  /** The title rules: too short, or else too long. */
  function TitleFindings(title: nat, wt: WebsiteType): seq<Issue>
  {
    When(title < MinTitle(wt), MetaTags(TitleTooShort(title)))
    + When(title > MaxTitle(wt), MetaTags(TitleTooLong(title)))
  }

  /** The description rules: too short, or else too long. */
  function DescriptionFindings(description: nat, wt: WebsiteType): seq<Issue>
  {
    When(DescriptionShort(description, wt), MetaTags(DescriptionTooShort(description)))
    + When(DescriptionLong(description, wt), MetaTags(DescriptionTooLong(description)))
  }

  /** The canonical-link rule and the duplicate-title rule. */
  function LinkFindings(hasCanonical: bool, duplicates: nat): seq<Issue>
  {
    When(!hasCanonical, MetaTags(MissingCanonical))
    + When(duplicates > 0, MetaTags(DuplicateTitles(duplicates)))
  }

  /**
   * The meta rules in the order the source applies them: title length,
   * description length, canonical link, duplicate titles across the site.
   */
  function MetaFindings(page: MetaPage, wt: WebsiteType, site: Option<seq<PageRecord>>): seq<Issue>
  {
    TitleFindings(|TitleText(page)|, wt)
    + DescriptionFindings(|page.description|, wt)
    + LinkFindings(page.hasCanonical, DuplicateTitleCount(site))
  }

  function MetaDataOf(page: MetaPage, site: Option<seq<PageRecord>>): MetricData
  {
    MetaTagsData(TitleText(page), |TitleText(page)|, page.description, |page.description|,
                 page.hasKeywordMeta, page.hasCanonical, DuplicateTitleCount(site))
  }

  /** The title check: on a functional site 10 points below 10 or above 50 characters; otherwise 20 below 30 and 15 above 60. */
  method CheckTitle(title: string, wt: WebsiteType, score: int, issues: seq<Issue>)
    returns (score': int, issues': seq<Issue>)
    requires score == 100 - TotalDeduction(issues, wt)
    ensures score' == 100 - TotalDeduction(issues', wt)
    ensures issues' == issues + TitleFindings(|title|, wt)
  {
    score', issues' := score, issues;
    var length := |title|;
    if wt == Functional {
      if length < 10 {
        TotalDeductionAppend(issues', MetaTags(TitleTooShort(length)), wt);
        score', issues' := score' - 10, issues' + [MetaTags(TitleTooShort(length))];
      } else if length > 50 {
        TotalDeductionAppend(issues', MetaTags(TitleTooLong(length)), wt);
        score', issues' := score' - 10, issues' + [MetaTags(TitleTooLong(length))];
      }
    } else {
      if length < 30 {
        TotalDeductionAppend(issues', MetaTags(TitleTooShort(length)), wt);
        score', issues' := score' - 20, issues' + [MetaTags(TitleTooShort(length))];
      } else if length > 60 {
        TotalDeductionAppend(issues', MetaTags(TitleTooLong(length)), wt);
        score', issues' := score' - 15, issues' + [MetaTags(TitleTooLong(length))];
      }
    }
  }

  /** The description check: on a functional site only a description above 200 characters costs 5 points; otherwise 15 below 120 and 10 above 160. */
  method CheckDescription(description: string, wt: WebsiteType, score: int, issues: seq<Issue>)
    returns (score': int, issues': seq<Issue>)
    requires score == 100 - TotalDeduction(issues, wt)
    ensures score' == 100 - TotalDeduction(issues', wt)
    ensures issues' == issues + DescriptionFindings(|description|, wt)
  {
    score', issues' := score, issues;
    var length := |description|;
    if wt == Functional {
      if length > 200 {
        TotalDeductionAppend(issues', MetaTags(DescriptionTooLong(length)), wt);
        score', issues' := score' - 5, issues' + [MetaTags(DescriptionTooLong(length))];
      }
    } else {
      if length < 120 {
        TotalDeductionAppend(issues', MetaTags(DescriptionTooShort(length)), wt);
        score', issues' := score' - 15, issues' + [MetaTags(DescriptionTooShort(length))];
      } else if length > 160 {
        TotalDeductionAppend(issues', MetaTags(DescriptionTooLong(length)), wt);
        score', issues' := score' - 10, issues' + [MetaTags(DescriptionTooLong(length))];
      }
    }
  }

  /** The canonical check (10 points) and the duplicate-title check (5 points a title, at most 20). */
  method CheckCanonicalAndDuplicates(page: MetaPage, wt: WebsiteType, site: Option<seq<PageRecord>>,
                                     score: int, issues: seq<Issue>)
    returns (duplicates: nat, score': int, issues': seq<Issue>)
    requires score == 100 - TotalDeduction(issues, wt)
    ensures score' == 100 - TotalDeduction(issues', wt)
    ensures duplicates == DuplicateTitleCount(site)
    ensures issues' == issues + LinkFindings(page.hasCanonical, duplicates)
  {
    score', issues' := score, issues;
    if !page.hasCanonical {
      TotalDeductionAppend(issues', MetaTags(MissingCanonical), wt);
      score', issues' := score' - 10, issues' + [MetaTags(MissingCanonical)];
    }
    duplicates := 0;
    if site.Some? {
      duplicates := DuplicateCount(SiteTitles(site.value));
      if duplicates > 0 {
        TotalDeductionAppend(issues', MetaTags(DuplicateTitles(duplicates)), wt);
        score', issues' := score' - Min(20, duplicates * 5), issues' + [MetaTags(DuplicateTitles(duplicates))];
      }
    }
  }

  /** The meta metric: the three checks in turn, starting from 100, clamped at 0. */
  method AnalyzeMetaTags(page: MetaPage, wt: WebsiteType, site: Option<seq<PageRecord>>) returns (r: MetricResult)
    ensures r.issues == Some(MetaFindings(page, wt, site))
    ensures Scored(r, wt)
    ensures r.data == MetaDataOf(page, site)
  {
    var title := TitleText(page);
    var score, issues := CheckTitle(title, wt, 100, []);
    assert issues == TitleFindings(|title|, wt);
    score, issues := CheckDescription(page.description, wt, score, issues);
    var duplicates;
    duplicates, score, issues := CheckCanonicalAndDuplicates(page, wt, site, score, issues);
    assert issues == MetaFindings(page, wt, site);
    r := MetricResult(Clamp(score), Some(issues), MetaTagsData(title, |title|, page.description, |page.description|,
                                                             page.hasKeywordMeta, page.hasCanonical, duplicates));
  }

  /** A title issue is reported exactly when its rule fires. */
  lemma TitleFindingsParts(title: nat, wt: WebsiteType)
    ensures forall x :: x in TitleFindings(title, wt) <==>
              (title < MinTitle(wt) && x == MetaTags(TitleTooShort(title)))
              || (title > MaxTitle(wt) && x == MetaTags(TitleTooLong(title)))
  {
  }

  /** A description issue is reported exactly when its rule fires. */
  lemma DescriptionFindingsParts(description: nat, wt: WebsiteType)
    ensures forall x :: x in DescriptionFindings(description, wt) <==>
              (DescriptionShort(description, wt) && x == MetaTags(DescriptionTooShort(description)))
              || (DescriptionLong(description, wt) && x == MetaTags(DescriptionTooLong(description)))
  {
  }

  /** The canonical and duplicate-title issues are reported exactly when their rules fire. */
  lemma LinkFindingsParts(hasCanonical: bool, duplicates: nat)
    ensures forall x :: x in LinkFindings(hasCanonical, duplicates) <==>
              (!hasCanonical && x == MetaTags(MissingCanonical))
              || (duplicates > 0 && x == MetaTags(DuplicateTitles(duplicates)))
  {
  }

  /** A meta issue is reported exactly when the rule that reports it fires. */
  lemma MetaFindingsParts(page: MetaPage, wt: WebsiteType, site: Option<seq<PageRecord>>)
    ensures var title, description, duplicates := |TitleText(page)|, |page.description|, DuplicateTitleCount(site);
      forall x :: x in MetaFindings(page, wt, site) <==>
        (title < MinTitle(wt) && x == MetaTags(TitleTooShort(title)))
        || (title > MaxTitle(wt) && x == MetaTags(TitleTooLong(title)))
        || (DescriptionShort(description, wt) && x == MetaTags(DescriptionTooShort(description)))
        || (DescriptionLong(description, wt) && x == MetaTags(DescriptionTooLong(description)))
        || (!page.hasCanonical && x == MetaTags(MissingCanonical))
        || (duplicates > 0 && x == MetaTags(DuplicateTitles(duplicates)))
  {
    var title, description, duplicates := |TitleText(page)|, |page.description|, DuplicateTitleCount(site);
    TitleFindingsParts(title, wt);
    DescriptionFindingsParts(description, wt);
    LinkFindingsParts(page.hasCanonical, duplicates);
    var t, d, l := TitleFindings(title, wt), DescriptionFindings(description, wt), LinkFindings(page.hasCanonical, duplicates);
    forall x ensures x in MetaFindings(page, wt, site) <==> x in t || x in d || x in l {
      assert MetaFindings(page, wt, site) == t + d + l;
    }
  }

  /** A title is never both too short and too long, nor a description. */
  lemma LengthRulesExclusive(page: MetaPage, wt: WebsiteType, site: Option<seq<PageRecord>>)
    ensures !(MetaTags(TitleTooShort(|TitleText(page)|)) in MetaFindings(page, wt, site)
              && MetaTags(TitleTooLong(|TitleText(page)|)) in MetaFindings(page, wt, site))
    ensures !(MetaTags(DescriptionTooShort(|page.description|)) in MetaFindings(page, wt, site)
              && MetaTags(DescriptionTooLong(|page.description|)) in MetaFindings(page, wt, site))
    ensures wt == Functional ==> MetaTags(DescriptionTooShort(|page.description|)) !in MetaFindings(page, wt, site)
  {
    MetaFindingsParts(page, wt, site);
  }

  /** The duplicate count is the number of distinct titles that occur on more than one crawled page. */
  lemma DuplicateTitlesMeaning(pages: seq<PageRecord>)
    ensures DuplicateTitleCount(Some(pages)) == |Duplicated(SiteTitles(pages))|
    ensures 2 * DuplicateTitleCount(Some(pages)) <= |pages|
  {
    DuplicateCountIsDuplicated(SiteTitles(pages));
    DuplicateCountAtMostHalf(SiteTitles(pages));
    SiteTitlesAtMost(pages);
  }

  lemma {:induction false} SiteTitlesAtMost(pages: seq<PageRecord>)
    ensures |SiteTitles(pages)| <= |pages|
    ensures forall t :: t in SiteTitles(pages) ==> t != ""
  {
    if pages != [] {
      SiteTitlesAtMost(pages[..|pages| - 1]);
    }
  }

  /** A site whose crawled pages each carry a title of its own has no duplicate-title issue. */
  lemma DistinctTitlesNoDuplicates(pages: seq<PageRecord>)
    requires forall i, j :: 0 <= i < j < |pages| ==> pages[i].title != pages[j].title
    ensures DuplicateTitleCount(Some(pages)) == 0
  {
    DuplicateTitlesMeaning(pages);
    DistinctTitlesOccurOnce(pages);
    assert Duplicated(SiteTitles(pages)) == {};
  }

  lemma {:induction false} DistinctTitlesOccurOnce(pages: seq<PageRecord>)
    requires forall i, j :: 0 <= i < j < |pages| ==> pages[i].title != pages[j].title
    ensures forall t :: Occurrences(SiteTitles(pages), t) <= 1
  {
    if pages != [] {
      var init, last := pages[..|pages| - 1], pages[|pages| - 1];
      assert forall i :: 0 <= i < |init| ==> init[i] == pages[i];
      DistinctTitlesOccurOnce(init);
      forall t ensures Occurrences(SiteTitles(pages), t) <= 1 {
        if last.title != "" {
          assert SiteTitles(pages) == SiteTitles(init) + [last.title];
          OccurrencesAppend(SiteTitles(init), last.title, t);
          if t == last.title {
            assert forall i :: 0 <= i < |init| ==> init[i].title != last.title;
            TitleNotEarlier(init, last.title);
          }
        } else {
          assert SiteTitles(pages) == SiteTitles(init);
        }
      }
    }
  }

  lemma {:induction false} TitleNotEarlier(pages: seq<PageRecord>, title: string)
    requires forall i :: 0 <= i < |pages| ==> pages[i].title != title
    ensures Occurrences(SiteTitles(pages), title) == 0
  {
    if pages != [] {
      var init := pages[..|pages| - 1];
      assert forall i :: 0 <= i < |init| ==> init[i] == pages[i];
      TitleNotEarlier(init, title);
      var last := pages[|pages| - 1].title;
      if last != "" {
        assert SiteTitles(pages) == SiteTitles(init) + [last];
        OccurrencesAppend(SiteTitles(init), last, title);
      } else {
        assert SiteTitles(pages) == SiteTitles(init);
      }
    }
  }

  /** At most one title rule fires, costing at most 20 points. */
  lemma TitleCostAtMost(title: nat, wt: WebsiteType)
    ensures TotalDeduction(TitleFindings(title, wt), wt) <= 20
  {
    var short := When(title < MinTitle(wt), MetaTags(TitleTooShort(title)));
    TotalDeductionWhen([], title < MinTitle(wt), MetaTags(TitleTooShort(title)), wt);
    assert [] + short == short;
    TotalDeductionWhen(short, title > MaxTitle(wt), MetaTags(TitleTooLong(title)), wt);
  }

  /** At most one description rule fires, costing at most 15 points. */
  lemma DescriptionCostAtMost(description: nat, wt: WebsiteType)
    ensures TotalDeduction(DescriptionFindings(description, wt), wt) <= 15
  {
    var short := When(DescriptionShort(description, wt), MetaTags(DescriptionTooShort(description)));
    TotalDeductionWhen([], DescriptionShort(description, wt), MetaTags(DescriptionTooShort(description)), wt);
    assert [] + short == short;
    TotalDeductionWhen(short, DescriptionLong(description, wt), MetaTags(DescriptionTooLong(description)), wt);
  }

  /** The canonical link costs 10 points and duplicate titles at most 20. */
  lemma LinkCostAtMost(hasCanonical: bool, duplicates: nat, wt: WebsiteType)
    ensures TotalDeduction(LinkFindings(hasCanonical, duplicates), wt) <= 30
  {
    var canonical := When(!hasCanonical, MetaTags(MissingCanonical));
    TotalDeductionWhen([], !hasCanonical, MetaTags(MissingCanonical), wt);
    assert [] + canonical == canonical;
    TotalDeductionWhen(canonical, duplicates > 0, MetaTags(DuplicateTitles(duplicates)), wt);
  }

  /** The capped rules lose at most 65 points together, so the meta score is at least 35 and never clamped. */
  lemma MetaScoreFloor(page: MetaPage, wt: WebsiteType, site: Option<seq<PageRecord>>)
    ensures TotalDeduction(MetaFindings(page, wt, site), wt) <= 65
  {
    var t := TitleFindings(|TitleText(page)|, wt);
    var d := DescriptionFindings(|page.description|, wt);
    var l := LinkFindings(page.hasCanonical, DuplicateTitleCount(site));
    TitleCostAtMost(|TitleText(page)|, wt);
    DescriptionCostAtMost(|page.description|, wt);
    LinkCostAtMost(page.hasCanonical, DuplicateTitleCount(site), wt);
    TotalDeductionConcat(t, d, wt);
    TotalDeductionConcat(t + d, l, wt);
  }
}
