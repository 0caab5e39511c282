/**
 * `_check_heading_hierarchy` and `_analyze_heading_structure`
 * (backend/seo_analyzer.py). The parsed page is abstracted to the number of
 * h1 … h6 elements it has; level l (1-based) has `counts[l - 1]` headings.
 */
module Headings {
  import opened Options
  import opened Classifier
  import opened Metrics
  import opened Crawler

  /** `n` copies of `level`. */
  function Repeat(level: nat, n: nat): (r: seq<nat>)
    ensures |r| == n && forall k :: 0 <= k < n ==> r[k] == level
  {
    if n == 0 then [] else Repeat(level, n - 1) + [level]
  }

  /** The levels of all headings as the source gathers them: every h1, then every h2, and so on. */
  function Gathered(counts: seq<nat>): seq<nat>
  {
    if |counts| == 0 then [] else Gathered(counts[..|counts| - 1]) + Repeat(|counts|, counts[|counts| - 1])
  }

  /** The number of adjacent pairs of levels that rise by more than one. */
  function Skips(levels: seq<nat>): nat
  {
    if |levels| <= 1 then 0
    else Skips(levels[..|levels| - 1]) + (if levels[|levels| - 1] as int - levels[|levels| - 2] as int > 1 then 1 else 0)
  }

  /** Some level among `counts` has a heading. */
  ghost predicate AnyPresent(counts: seq<nat>)
  {
    exists j :: 0 <= j < |counts| && counts[j] > 0
  }

  /**
   * The reference count, read off the histogram: the levels that have
   * headings while the level just above them has none and some higher
   * level has one.
   */
  ghost function Gaps(counts: seq<nat>): nat
  {
    if |counts| <= 1 then 0
    else
      var n := |counts|;
      Gaps(counts[..n - 1]) + (if counts[n - 1] > 0 && counts[n - 2] == 0 && AnyPresent(counts[..n - 2]) then 1 else 0)
  }

  /** Gathered levels lie in 1 .. |counts|, never decrease, and there are as many as headings. */
  lemma {:induction false} GatheredShape(counts: seq<nat>)
    ensures forall k :: 0 <= k < |Gathered(counts)| ==> 1 <= Gathered(counts)[k] <= |counts|
    ensures forall a, b :: 0 <= a < b < |Gathered(counts)| ==> Gathered(counts)[a] <= Gathered(counts)[b]
    ensures Gathered(counts) == [] <==> !AnyPresent(counts)
  {
    if counts != [] {
      var n := |counts|;
      var init := counts[..n - 1];
      GatheredShape(init);
      var g0 := Gathered(init);
      var block := Repeat(n, counts[n - 1]);
      var g := Gathered(counts);
      assert g == g0 + block;
      forall k | 0 <= k < |g| ensures 1 <= g[k] <= n {
        if k < |g0| { assert g[k] == g0[k]; } else { assert g[k] == block[k - |g0|]; }
      }
      forall a, b | 0 <= a < b < |g| ensures g[a] <= g[b] {
        if b < |g0| {
          assert g[a] == g0[a] && g[b] == g0[b];
        } else if a < |g0| {
          assert g[a] == g0[a] && g[b] == block[b - |g0|];
        } else {
          assert g[a] == block[a - |g0|] && g[b] == block[b - |g0|];
        }
      }
      if AnyPresent(counts) {
        var j :| 0 <= j < n && counts[j] > 0;
        if j < n - 1 { assert init[j] > 0; } else { assert |block| > 0; }
      }
      if AnyPresent(init) {
        var j :| 0 <= j < n - 1 && init[j] > 0;
        assert counts[j] > 0;
      }
    }
  }

  /** Appending a run of one level adds a skip only at the join, and only when it rises by more than one. */
  lemma {:induction false} SkipsAppendRun(levels: seq<nat>, level: nat, n: nat)
    ensures Skips(levels + Repeat(level, n)) ==
              Skips(levels) + (if n > 0 && levels != [] && level as int - levels[|levels| - 1] as int > 1 then 1 else 0)
  {
    if n > 0 {
      SkipsAppendRun(levels, level, n - 1);
      var s := levels + Repeat(level, n);
      assert s[..|s| - 1] == levels + Repeat(level, n - 1);
      if n == 1 {
        assert levels + Repeat(level, 0) == levels;
      } else {
        assert s[|s| - 2] == level;
      }
    } else {
      assert levels + Repeat(level, 0) == levels;
    }
  }

  /** The last gathered level is the deepest level that has headings. */
  lemma LastGathered(counts: seq<nat>)
    requires |counts| >= 1 && Gathered(counts) != []
    ensures var g := Gathered(counts); counts[|counts| - 1] > 0 ==> g[|g| - 1] == |counts|
    ensures var g := Gathered(counts); counts[|counts| - 1] == 0 ==> g[|g| - 1] <= |counts| - 1
  {
    var n := |counts|;
    var init := counts[..n - 1];
    var g := Gathered(counts);
    assert g == Gathered(init) + Repeat(n, counts[n - 1]);
    if counts[n - 1] == 0 {
      assert g == Gathered(init);
      GatheredShape(init);
      assert g[|g| - 1] <= |init|;
    }
  }

  /** A level without headings neither adds gathered levels nor changes whether any level above has one. */
  lemma EmptyLevelAbove(counts: seq<nat>)
    requires |counts| >= 2 && counts[|counts| - 2] == 0
    ensures AnyPresent(counts[..|counts| - 1]) <==> AnyPresent(counts[..|counts| - 2])
  {
    var n := |counts|;
    var init := counts[..n - 1];
    if AnyPresent(init) {
      var j :| 0 <= j < n - 1 && init[j] > 0;
      assert j < n - 2 && counts[..n - 2][j] > 0;
    }
    if AnyPresent(counts[..n - 2]) {
      var j :| 0 <= j < n - 2 && counts[..n - 2][j] > 0;
      assert init[j] > 0;
    }
  }

  /**
   * The levels gathered above the deepest one end more than one level
   * short of it exactly when the level just above it is empty while some
   * higher level is not.
   */
  lemma JoinRises(counts: seq<nat>)
    requires |counts| >= 2
    ensures var n, g := |counts|, Gathered(counts[..|counts| - 1]);
            (g != [] && n - g[|g| - 1] > 1) <==> (counts[n - 2] == 0 && AnyPresent(counts[..n - 2]))
  {
    var n := |counts|;
    var init := counts[..n - 1];
    GatheredShape(init);
    assert init[..n - 2] == counts[..n - 2];
    assert init[n - 2] == counts[n - 2];
    if Gathered(init) != [] {
      LastGathered(init);
    }
    GatheredShape(init[..n - 2]);
    if counts[n - 2] == 0 {
      EmptyLevelAbove(counts);
    }
  }

  /** The source's count of skips is the reference count of level gaps. */
  lemma {:induction false} SkipsAreGaps(counts: seq<nat>)
    ensures Skips(Gathered(counts)) == Gaps(counts)
  {
    if counts != [] {
      var n := |counts|;
      var init := counts[..n - 1];
      SkipsAreGaps(init);
      SkipsAppendRun(Gathered(init), n, counts[n - 1]);
      if n == 1 {
        assert init == [];
      } else {
        JoinRises(counts);
      }
    }
  }

  /** With no level missing between two present ones, nothing is skipped. */
  lemma {:induction false} GapFreeHasNoSkips(counts: seq<nat>)
    requires forall l :: 0 < l < |counts| ==> counts[l] > 0 ==> counts[l - 1] > 0 || !AnyPresent(counts[..l - 1])
    ensures Skips(Gathered(counts)) == 0
  {
    SkipsAreGaps(counts);
    GapsZero(counts);
  }

  lemma {:induction false} GapsZero(counts: seq<nat>)
    requires forall l :: 0 < l < |counts| ==> counts[l] > 0 ==> counts[l - 1] > 0 || !AnyPresent(counts[..l - 1])
    ensures Gaps(counts) == 0
  {
    if |counts| > 1 {
      var n := |counts|;
      var init := counts[..n - 1];
      forall l | 0 < l < |init| && init[l] > 0 ensures init[l - 1] > 0 || !AnyPresent(init[..l - 1]) {
        assert init[..l - 1] == counts[..l - 1];
      }
      GapsZero(init);
    }
  }

  /** At most every adjacent pair is a skip. */
  lemma {:induction false} SkipsAtMostPairs(levels: seq<nat>)
    ensures Skips(levels) <= if levels == [] then 0 else |levels| - 1
  {
    if |levels| > 1 {
      SkipsAtMostPairs(levels[..|levels| - 1]);
    }
  }

  /** The first half of the skip counter: the levels of all headings, every h1 first, then every h2, and so on. */
  method GatherLevels(counts: seq<nat>) returns (all: seq<nat>)
    ensures all == Gathered(counts)
  {
    all := [];
    var level := 1;
    while level <= |counts|
      invariant 1 <= level <= |counts| + 1
      invariant all == Gathered(counts[..level - 1])
    {
      var k := 0;
      while k < counts[level - 1]
        invariant 0 <= k <= counts[level - 1]
        invariant all == Gathered(counts[..level - 1]) + Repeat(level, k)
      {
        all := all + [level];
        k := k + 1;
      }
      assert counts[..level][..level - 1] == counts[..level - 1];
      level := level + 1;
    }
    assert counts[..|counts|] == counts;
  }

  /** The second half: walk the levels remembering the previous one (0 before the first) and count each rise of more than one. */
  method CountSkips(all: seq<nat>) returns (skipped: nat)
    requires forall k :: 0 <= k < |all| ==> all[k] >= 1
    ensures skipped == Skips(all)
  {
    skipped := 0;
    var prev: nat := 0;
    var i := 0;
    while i < |all|
      invariant 0 <= i <= |all|
      invariant skipped == Skips(all[..i])
      invariant prev == if i == 0 then 0 else all[i - 1]
    {
      var current := all[i];
      assert all[..i + 1][..i] == all[..i];
      if prev > 0 && current as int - prev as int > 1 {
        skipped := skipped + 1;
      }
      prev := current;
      i := i + 1;
    }
    assert all[..i] == all;
  }

  /** The skip counter finds exactly the level gaps of the histogram. */
  method CheckHeadingHierarchy(counts: seq<nat>) returns (skipped: nat)
    ensures skipped == Gaps(counts)
  {
    var all := GatherLevels(counts);
    GatheredShape(counts);
    skipped := CountSkips(all);
    SkipsAreGaps(counts);
  }

  /** The heading counts of one page, h1 to h6. */
  datatype HeadingCounts = HeadingCounts(h1: nat, h2: nat, h3: nat, h4: nat, h5: nat, h6: nat)

  function Levels(page: HeadingCounts): seq<nat>
  {
    [page.h1, page.h2, page.h3, page.h4, page.h5, page.h6]
  }

  /** The number of h1 elements over which a page is penalised: more than 2 on a functional site, more than 1 otherwise. */
  function MaxH1(wt: WebsiteType): nat
  {
    if wt == Functional then 2 else 1
  }

  /** The number of h2 elements below which a page is penalised. */
  function MinH2(wt: WebsiteType): nat
  {
    if wt == Functional then 1 else 3
  }

  /** `sum(1 for page in pages if not page['has_headings'])` over the crawl, 0 without one. */
  function MissingHeadings(site: Option<seq<PageRecord>>): nat
  {
    if site.Some? then PagesWithoutHeadings(site.value) else 0
  }

  /**
   * The heading rules, in the order the source applies them: no h1, too
   * many h1s, too few h2s, skipped levels, and pages of the crawl without
   * any heading.
   */
  ghost function HeadingFindings(page: HeadingCounts, wt: WebsiteType, site: Option<seq<PageRecord>>): seq<Issue>
  {
    When(page.h1 == 0, HeadingStructure(MissingH1))
    + When(page.h1 > MaxH1(wt), HeadingStructure(TooManyH1(page.h1)))
    + When(page.h2 < MinH2(wt), HeadingStructure(FewH2(page.h2)))
    + When(Gaps(Levels(page)) > 0, HeadingStructure(SkippedHeadingLevels(Gaps(Levels(page)))))
    + When(MissingHeadings(site) > 0, HeadingStructure(PagesMissingHeadings(MissingHeadings(site))))
  }

  /** The h1 checks: functional sites lose 10 points without an h1 and 15 above two; other sites 30 and 20 above one. */
  method CheckH1(page: HeadingCounts, wt: WebsiteType, score: int, issues: seq<Issue>)
    returns (score': int, issues': seq<Issue>)
    requires score == 100 - TotalDeduction(issues, wt)
    ensures score' == 100 - TotalDeduction(issues', wt)
    ensures issues' == issues + When(page.h1 == 0, HeadingStructure(MissingH1))
                              + When(page.h1 > MaxH1(wt), HeadingStructure(TooManyH1(page.h1)))
  {
    score', issues' := score, issues;
    if wt == Functional {
      if page.h1 == 0 {
        TotalDeductionAppend(issues', HeadingStructure(MissingH1), wt);
        score', issues' := score' - 10, issues' + [HeadingStructure(MissingH1)];
      } else if page.h1 > 2 {
        TotalDeductionAppend(issues', HeadingStructure(TooManyH1(page.h1)), wt);
        score', issues' := score' - 15, issues' + [HeadingStructure(TooManyH1(page.h1))];
      }
    } else {
      if page.h1 == 0 {
        TotalDeductionAppend(issues', HeadingStructure(MissingH1), wt);
        score', issues' := score' - 30, issues' + [HeadingStructure(MissingH1)];
      } else if page.h1 > 1 {
        TotalDeductionAppend(issues', HeadingStructure(TooManyH1(page.h1)), wt);
        score', issues' := score' - 20, issues' + [HeadingStructure(TooManyH1(page.h1))];
      }
    }
  }

  /** The h2 check: fewer than one h2 costs a functional site 10 points, fewer than three costs other sites 15. */
  method CheckH2(page: HeadingCounts, wt: WebsiteType, score: int, issues: seq<Issue>)
    returns (score': int, issues': seq<Issue>)
    requires score == 100 - TotalDeduction(issues, wt)
    ensures score' == 100 - TotalDeduction(issues', wt)
    ensures issues' == issues + When(page.h2 < MinH2(wt), HeadingStructure(FewH2(page.h2)))
  {
    score', issues' := score, issues;
    if wt == Functional {
      if page.h2 < 1 {
        TotalDeductionAppend(issues', HeadingStructure(FewH2(page.h2)), wt);
        score', issues' := score' - 10, issues' + [HeadingStructure(FewH2(page.h2))];
      }
    } else {
      if page.h2 < 3 {
        TotalDeductionAppend(issues', HeadingStructure(FewH2(page.h2)), wt);
        score', issues' := score' - 15, issues' + [HeadingStructure(FewH2(page.h2))];
      }
    }
  }

  /** The level check: 5 points for each skip the hierarchy counter finds. */
  method CheckLevels(page: HeadingCounts, wt: WebsiteType, score: int, issues: seq<Issue>)
    returns (skipped: nat, score': int, issues': seq<Issue>)
    requires score == 100 - TotalDeduction(issues, wt)
    ensures score' == 100 - TotalDeduction(issues', wt)
    ensures skipped == Gaps(Levels(page))
    ensures issues' == issues + When(skipped > 0, HeadingStructure(SkippedHeadingLevels(skipped)))
  {
    score', issues' := score, issues;
    skipped := CheckHeadingHierarchy(Levels(page));
    if skipped > 0 {
      TotalDeductionAppend(issues', HeadingStructure(SkippedHeadingLevels(skipped)), wt);
      score', issues' := score' - skipped * 5, issues' + [HeadingStructure(SkippedHeadingLevels(skipped))];
    }
  }

  /** The crawl check: 3 points for each crawled page without headings, at most 15. */
  method CheckPagesWithoutHeadings(wt: WebsiteType, site: Option<seq<PageRecord>>, score: int, issues: seq<Issue>)
    returns (missing: nat, score': int, issues': seq<Issue>)
    requires score == 100 - TotalDeduction(issues, wt)
    ensures score' == 100 - TotalDeduction(issues', wt)
    ensures missing == MissingHeadings(site)
    ensures issues' == issues + When(missing > 0, HeadingStructure(PagesMissingHeadings(missing)))
  {
    score', issues' := score, issues;
    missing := 0;
    if site.Some? {
      missing := PagesWithoutHeadings(site.value);
      if missing > 0 {
        TotalDeductionAppend(issues', HeadingStructure(PagesMissingHeadings(missing)), wt);
        score', issues' := score' - Min(15, missing * 3), issues' + [HeadingStructure(PagesMissingHeadings(missing))];
      }
    }
  }

  /**
   * The heading metric: the checks above in turn, starting from 100, and
   * the result clamped at 0.
   */
  method AnalyzeHeadingStructure(page: HeadingCounts, wt: WebsiteType, site: Option<seq<PageRecord>>)
    returns (r: MetricResult)
    ensures r.issues == Some(HeadingFindings(page, wt, site))
    ensures Scored(r, wt)
    ensures r.data == HeadingData(page.h1, page.h2, page.h3, Gaps(Levels(page)), MissingHeadings(site))
  {
    var score, issues := CheckH1(page, wt, 100, []);
    assert issues == When(page.h1 == 0, HeadingStructure(MissingH1))
                     + When(page.h1 > MaxH1(wt), HeadingStructure(TooManyH1(page.h1)));
    score, issues := CheckH2(page, wt, score, issues);
    var skipped;
    skipped, score, issues := CheckLevels(page, wt, score, issues);
    var missing;
    missing, score, issues := CheckPagesWithoutHeadings(wt, site, score, issues);
    assert issues == HeadingFindings(page, wt, site);
    r := MetricResult(Clamp(score), Some(issues), HeadingData(page.h1, page.h2, page.h3, skipped, missing));
  }

  /** Each heading rule reports its issue exactly when its condition holds, and nothing else is reported. */
  lemma HeadingFindingsMembers(page: HeadingCounts, wt: WebsiteType, site: Option<seq<PageRecord>>)
    ensures HeadingStructure(MissingH1) in HeadingFindings(page, wt, site) <==> page.h1 == 0
    ensures HeadingStructure(TooManyH1(page.h1)) in HeadingFindings(page, wt, site) <==> page.h1 > MaxH1(wt)
    ensures HeadingStructure(FewH2(page.h2)) in HeadingFindings(page, wt, site) <==> page.h2 < MinH2(wt)
    ensures (HeadingStructure(SkippedHeadingLevels(Gaps(Levels(page)))) in HeadingFindings(page, wt, site))
            == (Gaps(Levels(page)) > 0)
    ensures (HeadingStructure(PagesMissingHeadings(MissingHeadings(site))) in HeadingFindings(page, wt, site))
            == (MissingHeadings(site) > 0)
  {
    HeadingFindingsParts(page, wt, site);
  }

  /** The heading rules report heading issues only, each one of the five above. */
  lemma HeadingFindingsClosed(page: HeadingCounts, wt: WebsiteType, site: Option<seq<PageRecord>>)
    ensures forall x :: x in HeadingFindings(page, wt, site) ==>
              x.HeadingStructure? && x.heading in
                {MissingH1, TooManyH1(page.h1), FewH2(page.h2), SkippedHeadingLevels(Gaps(Levels(page))),
                 PagesMissingHeadings(MissingHeadings(site))}
  {
    HeadingFindingsParts(page, wt, site);
  }

  /** A heading issue is reported exactly when the rule that reports it fires. */
  lemma HeadingFindingsParts(page: HeadingCounts, wt: WebsiteType, site: Option<seq<PageRecord>>)
    ensures forall x :: x in HeadingFindings(page, wt, site) <==>
              (page.h1 == 0 && x == HeadingStructure(MissingH1))
              || (page.h1 > MaxH1(wt) && x == HeadingStructure(TooManyH1(page.h1)))
              || (page.h2 < MinH2(wt) && x == HeadingStructure(FewH2(page.h2)))
              || (Gaps(Levels(page)) > 0 && x == HeadingStructure(SkippedHeadingLevels(Gaps(Levels(page)))))
              || (MissingHeadings(site) > 0 && x == HeadingStructure(PagesMissingHeadings(MissingHeadings(site))))
  {
    var gaps, missing := Gaps(Levels(page)), MissingHeadings(site);
    var a := When(page.h1 == 0, HeadingStructure(MissingH1));
    var b := When(page.h1 > MaxH1(wt), HeadingStructure(TooManyH1(page.h1)));
    var c := When(page.h2 < MinH2(wt), HeadingStructure(FewH2(page.h2)));
    var d := When(gaps > 0, HeadingStructure(SkippedHeadingLevels(gaps)));
    var e := When(missing > 0, HeadingStructure(PagesMissingHeadings(missing)));
    assert HeadingFindings(page, wt, site) == a + b + c + d + e;
    forall x ensures x in HeadingFindings(page, wt, site) <==> x in a || x in b || x in c || x in d || x in e {
    }
  }

  /** Every heading issue costs points, so the metric is 100 exactly when no rule fires. */
  lemma HeadingFindingsCostly(page: HeadingCounts, wt: WebsiteType, site: Option<seq<PageRecord>>)
    ensures Costly(HeadingFindings(page, wt, site), wt)
  {
    HeadingFindingsParts(page, wt, site);
  }
}
