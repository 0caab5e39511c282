/**
 * What every `_analyze_*` evaluator of backend/seo_analyzer.py returns: a
 * score that starts at 100, loses a fixed number of points for each problem
 * found, and is clamped at 0; the list of problems found; and the measured
 * values. Each problem the source reports as a message is an `Issue` here,
 * carrying the numbers the message quotes.
 */
module Metrics {
  import opened Options
  import opened Classifier

  datatype MobileIssue = MissingViewport | SmallTouchTargets(count: nat)
  datatype MetaIssue =
    | TitleTooShort(length: nat) | TitleTooLong(length: nat)
    | DescriptionTooShort(length: nat) | DescriptionTooLong(length: nat)
    | MissingCanonical | DuplicateTitles(count: nat)
  datatype HeadingIssue =
    | MissingH1 | TooManyH1(count: nat) | FewH2(count: nat)
    | SkippedHeadingLevels(count: nat) | PagesMissingHeadings(count: nat)
  datatype ImageIssue = MissingAlt(count: nat) | LargeImages(count: nat) | FewWebp
  datatype LinkingIssue = BrokenLinks(count: nat) | TooManyExternalLinks | OrphanPages(count: nat) | DeepLinks(count: nat)
  datatype SslIssue = NoHttps | NoHsts | MixedContent(count: nat) | CertificateExpiring(days: int) | CertificateCheckFailed(reason: string)
  datatype SocialIssue = MissingOpenGraph | MissingTwitterCards | MissingOgImage | MissingOgDescription
  datatype ContentIssue =
    | ThinContent(words: nat) | FewInternalLinks | NoKeywords | FewKeywords(count: nat)
    | LowKeywordDensity(density: real) | HighKeywordDensity(density: real)
    | PoorReadability(readability: int) | DuplicateContent(count: nat)
  datatype UrlIssue = UrlTooLong(length: nat) | UrlTooDeep(depth: nat) | SpecialCharacters
  datatype RobotsIssue = MissingRobotsTxt | RobotsBlocksCss | RobotsTxtUnreachable
  datatype SitemapIssue = MissingSitemap | FewSitemapPages(count: nat) | SitemapUnreachable

  /**
   * One message of an evaluator's `issues` list, grouped by the metric that
   * reports it.
   */
  datatype Issue =
    | Mobile(mobile: MobileIssue) | MetaTags(meta: MetaIssue) | HeadingStructure(heading: HeadingIssue)
    | Images(image: ImageIssue) | InternalLinking(linking: LinkingIssue) | SslCertificate(ssl: SslIssue)
    | SocialTags(social: SocialIssue) | ContentQuality(content: ContentIssue) | UrlStructure(url: UrlIssue)
    | RobotsTxt(robots: RobotsIssue) | SitemapXml(sitemap: SitemapIssue)

  function Min(a: int, b: int): int
  {
    if a <= b then a else b
  }

  function MobileDeduction(i: MobileIssue, wt: WebsiteType): nat
  {
    var functional := wt == Functional;
    match i
    case MissingViewport => if functional then 15 else 30
    case SmallTouchTargets(_) => if functional then 10 else 15
  }

  function MetaDeduction(i: MetaIssue, wt: WebsiteType): nat
  {
    var functional := wt == Functional;
    match i
    case TitleTooShort(_) => if functional then 10 else 20
    case TitleTooLong(_) => if functional then 10 else 15
    case DescriptionTooShort(_) => 15
    case DescriptionTooLong(_) => if functional then 5 else 10
    case MissingCanonical => 10
    case DuplicateTitles(n) => Min(20, n * 5)
  }

  function HeadingDeduction(i: HeadingIssue, wt: WebsiteType): nat
  {
    var functional := wt == Functional;
    match i
    case MissingH1 => if functional then 10 else 30
    case TooManyH1(_) => if functional then 15 else 20
    case FewH2(_) => if functional then 10 else 15
    case SkippedHeadingLevels(n) => n * 5
    case PagesMissingHeadings(n) => Min(15, n * 3)
  }

  function ImageDeduction(i: ImageIssue, wt: WebsiteType): nat
  {
    var functional := wt == Functional;
    match i
    case MissingAlt(n) => if functional then n * 2 else n * 5
    case LargeImages(_) => if functional then 10 else 15
    case FewWebp => if functional then 5 else 10
  }

  function LinkingDeduction(i: LinkingIssue): nat
  {
    match i
    case BrokenLinks(n) => n * 10
    case TooManyExternalLinks => 10
    case OrphanPages(n) => Min(15, n * 5)
    case DeepLinks(_) => 10
  }

  /** Losing HTTPS sets the score to 0, which is a loss of all 100 points. */
  function SslDeduction(i: SslIssue): nat
  {
    match i
    case NoHttps => 100
    case NoHsts => 10
    case MixedContent(n) => Min(30, n * 10)
    case CertificateExpiring(_) => 20
    case CertificateCheckFailed(_) => 20
  }

  function SocialDeduction(i: SocialIssue): nat
  {
    match i
    case MissingOpenGraph => 20
    case MissingTwitterCards => 15
    case MissingOgImage => 10
    case MissingOgDescription => 10
  }

  function ContentDeduction(i: ContentIssue, wt: WebsiteType): nat
  {
    var functional := wt == Functional;
    match i
    case ThinContent(words) =>
      if functional then (if words < 50 then 10 else 5)
      else if wt == Ecommerce then 15 else 20
    case FewInternalLinks => if functional then 5 else 10
    case NoKeywords => 5
    case FewKeywords(_) => if wt == Ecommerce then 10 else 15
    case LowKeywordDensity(_) => if wt == Ecommerce then 10 else 15
    case HighKeywordDensity(_) => if wt == Ecommerce then 15 else 20
    case PoorReadability(_) => 10
    case DuplicateContent(_) => 15
  }

  function UrlDeduction(i: UrlIssue): nat
  {
    match i
    case UrlTooLong(_) => 20
    case UrlTooDeep(_) => 15
    case SpecialCharacters => 10
  }

  function RobotsDeduction(i: RobotsIssue): nat
  {
    match i
    case MissingRobotsTxt => 20
    case RobotsBlocksCss => 10
    case RobotsTxtUnreachable => 20
  }

  function SitemapDeduction(i: SitemapIssue): nat
  {
    match i
    case MissingSitemap => 30
    case FewSitemapPages(_) => 10
    case SitemapUnreachable => 30
  }

  /** The points the source subtracts together with each message, for a site of type wt. */
  function Deduction(issue: Issue, wt: WebsiteType): nat
  {
    match issue
    case Mobile(i) => MobileDeduction(i, wt)
    case MetaTags(i) => MetaDeduction(i, wt)
    case HeadingStructure(i) => HeadingDeduction(i, wt)
    case Images(i) => ImageDeduction(i, wt)
    case InternalLinking(i) => LinkingDeduction(i)
    case SslCertificate(i) => SslDeduction(i)
    case SocialTags(i) => SocialDeduction(i)
    case ContentQuality(i) => ContentDeduction(i, wt)
    case UrlStructure(i) => UrlDeduction(i)
    case RobotsTxt(i) => RobotsDeduction(i)
    case SitemapXml(i) => SitemapDeduction(i)
  }

  /**
   * The capped deductions: duplicate titles cost 5 points each up to 20,
   * pages without headings 3 each up to 15, orphan pages 5 each up to 15,
   * and mixed-content resources 10 each up to 30.
   */
  lemma CappedDeductions(n: nat, wt: WebsiteType)
    ensures Deduction(MetaTags(DuplicateTitles(n)), wt) == if n <= 4 then 5 * n else 20
    ensures Deduction(HeadingStructure(PagesMissingHeadings(n)), wt) == if n <= 5 then 3 * n else 15
    ensures Deduction(InternalLinking(OrphanPages(n)), wt) == if n <= 3 then 5 * n else 15
    ensures Deduction(SslCertificate(MixedContent(n)), wt) == if n <= 3 then 10 * n else 30
  {
  }

  /** The points lost for all the issues of a list. */
  function TotalDeduction(issues: seq<Issue>, wt: WebsiteType): nat
  {
    DeductionUpTo(issues, |issues|, wt)
  }

  /** The points lost for the first n issues of a list. */
  function DeductionUpTo(issues: seq<Issue>, n: nat, wt: WebsiteType): nat
    requires n <= |issues|
  {
    if n == 0 then 0 else DeductionUpTo(issues, n - 1, wt) + Deduction(issues[n - 1], wt)
  }

  /** Appending issues does not change what the first ones cost. */
  lemma {:induction false} DeductionUpToPrefix(issues: seq<Issue>, more: seq<Issue>, n: nat, wt: WebsiteType)
    requires n <= |issues|
    ensures DeductionUpTo(issues + more, n, wt) == DeductionUpTo(issues, n, wt)
  {
    if n > 0 {
      DeductionUpToPrefix(issues, more, n - 1, wt);
    }
  }

  lemma TotalDeductionAppend(issues: seq<Issue>, issue: Issue, wt: WebsiteType)
    ensures TotalDeduction(issues + [issue], wt) == TotalDeduction(issues, wt) + Deduction(issue, wt)
  {
    DeductionUpToPrefix(issues, [issue], |issues|, wt);
  }

  /** The points lost for two lists of issues add up. */
  lemma {:induction false} TotalDeductionConcat(a: seq<Issue>, b: seq<Issue>, wt: WebsiteType)
    ensures TotalDeduction(a + b, wt) == TotalDeduction(a, wt) + TotalDeduction(b, wt)
    decreases |b|
  {
    if b == [] {
      assert a + b == a;
    } else {
      var front, last := b[..|b| - 1], b[|b| - 1];
      TotalDeductionConcat(a, front, wt);
      assert a + b == (a + front) + [last];
      assert b == front + [last];
      TotalDeductionAppend(a + front, last, wt);
      TotalDeductionAppend(front, last, wt);
    }
  }

  /** The issue a rule reports: `[issue]` when its condition holds, nothing otherwise. */
  function When(condition: bool, issue: Issue): seq<Issue>
  {
    if condition then [issue] else []
  }

  /** A rule that fires costs its deduction; one that does not costs nothing. */
  lemma TotalDeductionWhen(issues: seq<Issue>, condition: bool, issue: Issue, wt: WebsiteType)
    ensures TotalDeduction(issues + When(condition, issue), wt)
            == TotalDeduction(issues, wt) + (if condition then Deduction(issue, wt) else 0)
  {
    if condition {
      TotalDeductionAppend(issues, issue, wt);
    } else {
      assert issues + When(condition, issue) == issues;
    }
  }

  /** `max(0, score)` */
  function Clamp(score: int): (r: nat)
    ensures r <= 100 || r == score
    ensures score <= 100 ==> r <= 100
    ensures r == 0 || r == score
    ensures r >= score
  {
    if score < 0 then 0 else score
  }

  /** The measured values each evaluator reports besides its score and issues. */
  datatype MetricData =
    | PageSpeedData(loadTime: int, totalSize: real, imageSize: real, cssSize: real, jsSize: real,
                    totalImages: nat, largeImages: nat)
    | MobileData(hasViewport: bool, smallTouchTargets: nat, fontSize: nat, hasMobileMenu: bool)
    | MetaTagsData(title: string, titleLength: nat, description: string, descriptionLength: nat,
                   hasKeywordMeta: bool, hasCanonical: bool, duplicateTitles: nat)
    | HeadingData(h1Count: nat, h2Count: nat, h3Count: nat, skippedLevels: nat, missingHeadings: nat)
    | ImageData(totalImages: nat, largeImages: nat, missingAlt: nat, webpImages: nat, lazyLoaded: nat)
    | LinkingData(totalLinks: nat, brokenLinks: nat, externalLinks: nat, externalLinksList: seq<string>,
                  orphanPages: nat, deepLinks: nat)
    | SslData(hasSsl: bool, daysToExpire: int, hasHsts: bool, mixedContent: nat)
    | SocialData(hasOpenGraph: bool, hasTwitterCards: bool, hasOgImage: bool, hasOgDescription: bool)
    | ContentData(wordCount: nat, keywordDensity: real, readability: int, duplicateContent: nat,
                  internalLinks: nat, uniqueKeywords: nat)
    | UrlData(urlLength: nat, urlDepth: nat, hasKeyword: bool, specialChars: bool)
    | RobotsData(hasRobotsTxt: bool, blockingImportantPages: nat, hasSitemapReference: bool, blockingCss: bool)
    | SitemapData(hasSitemap: bool, totalPages: nat, lastModified: Option<string>, includesImages: bool)
    | ErrorData(message: string)

  /**
   * One evaluator's dictionary. `issues` is absent for the page-speed metric
   * and for the error fallback, whose dictionaries have no `issues` key.
   */
  datatype MetricResult = MetricResult(score: int, issues: Option<seq<Issue>>, data: MetricData)

  /** The dictionary every evaluator returns when its analysis raises: score 0 and the error text. */
  function ErrorResult(message: string): (r: MetricResult)
    ensures r.score == 0 && r.issues == None && r.data == ErrorData(message)
  {
    MetricResult(0, None, ErrorData(message))
  }

  /**
   * The shape every evaluator's result has: the score is what is left of 100
   * after the deductions of the issues it reports, clamped at 0.
   */
  predicate Scored(r: MetricResult, wt: WebsiteType)
  {
    r.issues.Some? && r.score == Clamp(100 - TotalDeduction(r.issues.value, wt))
  }

  /** Issues that cost points. */
  predicate Costly(issues: seq<Issue>, wt: WebsiteType)
  {
    forall x :: x in issues ==> Deduction(x, wt) > 0
  }

  lemma TotalDeductionPositive(issues: seq<Issue>, wt: WebsiteType)
    requires Costly(issues, wt)
    ensures issues != [] ==> TotalDeduction(issues, wt) > 0
  {
    if issues != [] {
      assert issues[|issues| - 1] in issues;
      assert DeductionUpTo(issues, |issues|, wt) >= Deduction(issues[|issues| - 1], wt);
    }
  }

  /**
   * A scored result lies in [0, 100], and when each reported issue costs
   * points it is 100 exactly when no issue is reported.
   */
  lemma ScoredBounds(r: MetricResult, wt: WebsiteType)
    requires Scored(r, wt)
    ensures 0 <= r.score <= 100
    ensures Costly(r.issues.value, wt) ==> (r.score == 100 <==> r.issues.value == [])
  {
    if Costly(r.issues.value, wt) {
      TotalDeductionPositive(r.issues.value, wt);
    }
  }
}
