/**
 * `_analyze_content_quality` and `_analyze_keyword_density`
 * (backend/seo_analyzer.py). The page is abstracted to its visible text, the
 * path of its URL, the keyword lists the metadata extraction finds (title
 * words, meta keywords, h1 words; their regular expressions are not
 * modelled), the number of regex words of the text that the density
 * divides by, and the number of its <a href> elements. Averages are exact
 * real numbers; the source rounds them to two decimals.
 */
module Content {
  import opened Options
  import opened Text
  import opened Urls
  import opened Classifier
  import opened Metrics
  import opened Counting

  datatype ContentPage = ContentPage(
    text: string, path: string, titleWords: seq<string>, metaKeywords: seq<string>, h1Words: seq<string>,
    regexWords: nat, anchors: nat)

  // ---------------------------------------------------------------------------
  // Words and sentences

  /** `len(s.split())`: the number of maximal runs of non-whitespace characters. */
  function WordCount(s: string): nat
  {
    if |s| == 0 then 0
    else WordCount(s[..|s| - 1]) + (if !IsSpace(s[|s| - 1]) && (|s| == 1 || IsSpace(s[|s| - 2])) then 1 else 0)
  }

  /** A text has no words exactly when it is all whitespace, and a word takes a character and a separator. */
  lemma {:induction false} WordCountBounds(s: string)
    ensures WordCount(s) == 0 <==> forall i :: 0 <= i < |s| ==> IsSpace(s[i])
    ensures 2 * WordCount(s) <= |s| + 1
    ensures |s| > 0 && IsSpace(s[|s| - 1]) ==> 2 * WordCount(s) <= |s|
  {
    if |s| > 0 {
      var front := s[..|s| - 1];
      WordCountBounds(front);
      assert forall i :: 0 <= i < |front| ==> front[i] == s[i];
      if |s| >= 2 && !IsSpace(s[|s| - 1]) && !IsSpace(s[|s| - 2]) {
        WordCountPositive(front);
      }
    }
  }

  /** A text ending in a non-whitespace character has a word. */
  lemma WordCountPositive(s: string)
    requires |s| > 0 && !IsSpace(s[|s| - 1])
    ensures WordCount(s) > 0
  {
    if |s| > 1 && !IsSpace(s[|s| - 2]) {
      WordCountPositive(s[..|s| - 1]);
    }
  }

  /** The sentence delimiters `[.!?。！？]`. */
  const SentenceDelimiters: set<char> := {'.', '!', '?', '。', '！', '？'}

  /** The stripped, non-empty pieces: `[s.strip() for s in pieces if s.strip()]`. */
  function NonEmptyStripped(pieces: seq<string>): (r: seq<string>)
    ensures |r| <= |pieces|
    ensures forall k :: 0 <= k < |r| ==> r[k] != "" && Stripped(r[k])
  {
    if |pieces| == 0 then []
    else
      var p := Strip(pieces[|pieces| - 1]);
      NonEmptyStripped(pieces[..|pieces| - 1]) + (if p != "" then [p] else [])
  }

  /** The sentences of the text. */
  function Sentences(text: string): seq<string>
  {
    NonEmptyStripped(SplitOn(text, SentenceDelimiters))
  }

  function TotalWords(sentences: seq<string>): nat
  {
    if |sentences| == 0 then 0 else TotalWords(sentences[..|sentences| - 1]) + WordCount(sentences[|sentences| - 1])
  }

  /** The average number of words per sentence, 0 without sentences. */
  function AverageSentenceLength(sentences: seq<string>): (r: real)
    ensures r >= 0.0
  {
    if |sentences| == 0 then 0.0 else (TotalWords(sentences) as real) / (|sentences| as real)
  }

  function Max0(x: real): real
  {
    if x < 0.0 then 0.0 else x
  }

  /**
   * The readability score from the average sentence length: 100 between 10
   * and 30 words, 2 points less per word above 30, 3 points less per word
   * below 10, never below 0.
   */
  function Readability(average: real): real
  {
    if average > 30.0 then Max0(100.0 - (average - 30.0) * 2.0)
    else if average < 10.0 then Max0(100.0 - (10.0 - average) * 3.0)
    else 100.0
  }

  /** The readability score lies in [0, 100] and is full exactly for averages from 10 to 30 words. */
  lemma ReadabilityRange(average: real)
    requires average >= 0.0
    ensures 0.0 <= Readability(average) <= 100.0
    ensures Readability(average) == 100.0 <==> 10.0 <= average <= 30.0
  {
  }

  /**
   * Short sentences alone can cost at most 30 readability points, so the
   * readability rule fires exactly when sentences average more than 50 words.
   */
  lemma PoorReadabilityMeansLongSentences(average: real)
    requires average >= 0.0
    ensures Readability(average) < 60.0 <==> average > 50.0
  {
  }

  // ---------------------------------------------------------------------------
  // Keywords and their density

  /** The keywords of all sources, in the order the source gathers them (duplicates included). */
  function AllKeywords(page: ContentPage): seq<string>
  {
    ExtractKeywordsFromPath(page.path) + page.titleWords + page.metaKeywords + page.h1Words
  }

  /** `order` lists each keyword of `all` once: one of the orders `list(set(all))` may produce. */
  ghost predicate ListsOnce(order: seq<string>, all: seq<string>)
  {
    (forall i, j :: 0 <= i < j < |order| ==> order[i] != order[j])
    && (forall k :: k in order <==> k in all)
  }

  /** Python's str.count, which counts an empty pattern once more than the string has characters. */
  function PyCount(s: string, pattern: string): nat
  {
    if pattern == "" then |s| + 1 else CountOf(s, pattern)
  }

  /** How often a keyword occurs in the lower-cased text. */
  function KeywordCount(text: string, keyword: string): nat
  {
    PyCount(Lower(text), Lower(keyword))
  }

  /** The number of density entries: keywords that occur at least once. */
  function Occurring(text: string, keywords: seq<string>): nat
  {
    if |keywords| == 0 then 0
    else Occurring(text, keywords[..|keywords| - 1]) + (if KeywordCount(text, keywords[|keywords| - 1]) > 0 then 1 else 0)
  }

  /** The sum of the percentages `count / total * 100` of the keywords that occur. */
  function DensitySum(text: string, keywords: seq<string>, total: nat): real
    requires total > 0
  {
    if |keywords| == 0 then 0.0
    else
      var count := KeywordCount(text, keywords[|keywords| - 1]);
      DensitySum(text, keywords[..|keywords| - 1], total)
      + (if count > 0 then (count as real) / (total as real) * 100.0 else 0.0)
  }

  /** The first ten keywords, the ones the density analysis looks at. */
  function FirstTen(keywords: seq<string>): seq<string>
  {
    if |keywords| <= 10 then keywords else keywords[..10]
  }

  /** The average density of the occurring keywords among the first ten, 0 without words or without entries. */
  function AverageDensity(text: string, keywords: seq<string>, total: nat): real
  {
    var first := FirstTen(keywords);
    if total == 0 || Occurring(text, first) == 0 then 0.0
    else DensitySum(text, first, total) / (Occurring(text, first) as real)
  }

  /** The density loop over the first ten keywords, keeping the entries of the ones that occur. */
  method AnalyzeKeywordDensity(text: string, keywords: seq<string>, totalWords: nat) returns (average: real)
    ensures average == AverageDensity(text, keywords, totalWords)
  {
    if totalWords == 0 {
      return 0.0;
    }
    var first := if |keywords| <= 10 then keywords else keywords[..10];
    var sum, entries := 0.0, 0;
    for i := 0 to |first|
      invariant sum == DensitySum(text, first[..i], totalWords)
      invariant entries == Occurring(text, first[..i])
    {
      assert first[..i + 1][..i] == first[..i];
      var count := PyCount(Lower(text), Lower(first[i]));
      var density := (count as real) / (totalWords as real) * 100.0;
      if count > 0 {
        sum, entries := sum + density, entries + 1;
      }
    }
    assert first[..|first|] == first;
    average := if entries > 0 then sum / (entries as real) else 0.0;
  }

  /** Every occurring keyword adds a positive percentage, so the sum is positive once one occurs. */
  lemma {:induction false} DensitySumSign(text: string, keywords: seq<string>, total: nat)
    requires total > 0
    ensures DensitySum(text, keywords, total) >= 0.0
    ensures Occurring(text, keywords) > 0 <==> DensitySum(text, keywords, total) > 0.0
  {
    if |keywords| > 0 {
      DensitySumSign(text, keywords[..|keywords| - 1], total);
    }
  }

  /** The average density is never negative, and is 0 exactly when no keyword among the first ten occurs in the text. */
  lemma DensityZeroIff(text: string, keywords: seq<string>, total: nat)
    requires total > 0
    ensures AverageDensity(text, keywords, total) >= 0.0
    ensures AverageDensity(text, keywords, total) == 0.0 <==> Occurring(text, FirstTen(keywords)) == 0
  {
    DensitySumSign(text, FirstTen(keywords), total);
  }

  // ---------------------------------------------------------------------------
  // The rules

  /** The measures the content rules read. */
  datatype ContentMeasures = ContentMeasures(
    words: nat, links: nat, keywords: nat, density: real, readability: real, duplicates: nat)

  function MeasuresOf(page: ContentPage, order: seq<string>): ContentMeasures
  {
    var sentences := Sentences(page.text);
    ContentMeasures(WordCount(page.text), page.anchors, |order|, AverageDensity(page.text, order, page.regexWords),
                    Readability(AverageSentenceLength(sentences)), DuplicateCount(sentences))
  }

  /** The functional rules: under 100 words, under 2 links, no keyword at all. */
  function FunctionalFindings(m: ContentMeasures): seq<Issue>
  {
    When(m.words < 100, ContentQuality(ThinContent(m.words)))
    + When(m.links < 2, ContentQuality(FewInternalLinks))
    + When(m.keywords == 0, ContentQuality(NoKeywords))
  }

  /** The e-commerce rules: under 200 words, under 3 links, under 3 keywords, density outside 0.5% to 5%. */
  function EcommerceFindings(m: ContentMeasures): seq<Issue>
  {
    When(m.words < 200, ContentQuality(ThinContent(m.words)))
    + When(m.links < 3, ContentQuality(FewInternalLinks))
    + When(m.keywords < 3, ContentQuality(FewKeywords(m.keywords)))
    + When(m.density < 0.5, ContentQuality(LowKeywordDensity(m.density)))
    + When(m.density > 5.0, ContentQuality(HighKeywordDensity(m.density)))
  }

  /** The content-site rules: under 300 words, under 5 links, under 5 keywords, density outside 1% to 3%. */
  function StandardFindings(m: ContentMeasures): seq<Issue>
  {
    When(m.words < 300, ContentQuality(ThinContent(m.words)))
    + When(m.links < 5, ContentQuality(FewInternalLinks))
    + When(m.keywords < 5, ContentQuality(FewKeywords(m.keywords)))
    + When(m.density < 1.0, ContentQuality(LowKeywordDensity(m.density)))
    + When(m.density > 3.0, ContentQuality(HighKeywordDensity(m.density)))
  }

  function TypeFindings(m: ContentMeasures, wt: WebsiteType): seq<Issue>
  {
    match wt
    case Functional => FunctionalFindings(m)
    case Ecommerce => EcommerceFindings(m)
    case Content => StandardFindings(m)
  }

  /** The rules for every site type: readability under 60, more than three repeated sentences. */
  function QualityFindings(m: ContentMeasures): seq<Issue>
  {
    When(m.readability < 60.0, ContentQuality(PoorReadability(m.readability.Floor)))
    + When(m.duplicates > 3, ContentQuality(DuplicateContent(m.duplicates)))
  }

  function ContentFindings(m: ContentMeasures, wt: WebsiteType): seq<Issue>
  {
    TypeFindings(m, wt) + QualityFindings(m)
  }

  function ContentDataOf(m: ContentMeasures): MetricData
  {
    ContentData(m.words, m.density, m.readability.Floor, m.duplicates, m.links, m.keywords)
  }

  /** The functional checks: 10 points under 50 words or 5 under 100, 5 under 2 links, 5 without keywords. */
  method CheckFunctionalContent(m: ContentMeasures, score: int, issues: seq<Issue>)
    returns (score': int, issues': seq<Issue>)
    requires score == 100 - TotalDeduction(issues, Functional)
    ensures score' == 100 - TotalDeduction(issues', Functional)
    ensures issues' == issues + FunctionalFindings(m)
  {
    var wt := Functional;
    score', issues' := score, issues;
    if m.words < 50 {
      TotalDeductionAppend(issues', ContentQuality(ThinContent(m.words)), wt);
      score', issues' := score' - 10, issues' + [ContentQuality(ThinContent(m.words))];
    } else if m.words < 100 {
      TotalDeductionAppend(issues', ContentQuality(ThinContent(m.words)), wt);
      score', issues' := score' - 5, issues' + [ContentQuality(ThinContent(m.words))];
    }
    if m.links < 2 {
      TotalDeductionAppend(issues', ContentQuality(FewInternalLinks), wt);
      score', issues' := score' - 5, issues' + [ContentQuality(FewInternalLinks)];
    }
    if m.keywords == 0 {
      TotalDeductionAppend(issues', ContentQuality(NoKeywords), wt);
      score', issues' := score' - 5, issues' + [ContentQuality(NoKeywords)];
    }
  }

  /** The amount checks of an e-commerce site: 15 points under 200 words, 10 under 3 links, 10 under 3 keywords. */
  method CheckEcommerceAmounts(m: ContentMeasures, score: int, issues: seq<Issue>)
    returns (score': int, issues': seq<Issue>)
    requires score == 100 - TotalDeduction(issues, Ecommerce)
    ensures score' == 100 - TotalDeduction(issues', Ecommerce)
    ensures issues' == issues + When(m.words < 200, ContentQuality(ThinContent(m.words)))
                              + When(m.links < 3, ContentQuality(FewInternalLinks))
                              + When(m.keywords < 3, ContentQuality(FewKeywords(m.keywords)))
  {
    var wt := Ecommerce;
    score', issues' := score, issues;
    if m.words < 200 {
      TotalDeductionAppend(issues', ContentQuality(ThinContent(m.words)), wt);
      score', issues' := score' - 15, issues' + [ContentQuality(ThinContent(m.words))];
    }
    if m.links < 3 {
      TotalDeductionAppend(issues', ContentQuality(FewInternalLinks), wt);
      score', issues' := score' - 10, issues' + [ContentQuality(FewInternalLinks)];
    }
    if m.keywords < 3 {
      TotalDeductionAppend(issues', ContentQuality(FewKeywords(m.keywords)), wt);
      score', issues' := score' - 10, issues' + [ContentQuality(FewKeywords(m.keywords))];
    }
  }

  /** The density check of an e-commerce site: 10 points under 0.5%, 15 above 5%. */
  method CheckEcommerceDensity(m: ContentMeasures, score: int, issues: seq<Issue>)
    returns (score': int, issues': seq<Issue>)
    requires score == 100 - TotalDeduction(issues, Ecommerce)
    ensures score' == 100 - TotalDeduction(issues', Ecommerce)
    ensures issues' == issues + When(m.density < 0.5, ContentQuality(LowKeywordDensity(m.density)))
                              + When(m.density > 5.0, ContentQuality(HighKeywordDensity(m.density)))
  {
    var wt := Ecommerce;
    score', issues' := score, issues;
    if m.density < 0.5 {
      TotalDeductionAppend(issues', ContentQuality(LowKeywordDensity(m.density)), wt);
      score', issues' := score' - 10, issues' + [ContentQuality(LowKeywordDensity(m.density))];
    } else if m.density > 5.0 {
      TotalDeductionAppend(issues', ContentQuality(HighKeywordDensity(m.density)), wt);
      score', issues' := score' - 15, issues' + [ContentQuality(HighKeywordDensity(m.density))];
    }
  }

  /** The amount checks of a content site: 20 points under 300 words, 10 under 5 links, 15 under 5 keywords. */
  method CheckStandardAmounts(m: ContentMeasures, score: int, issues: seq<Issue>)
    returns (score': int, issues': seq<Issue>)
    requires score == 100 - TotalDeduction(issues, Content)
    ensures score' == 100 - TotalDeduction(issues', Content)
    ensures issues' == issues + When(m.words < 300, ContentQuality(ThinContent(m.words)))
                              + When(m.links < 5, ContentQuality(FewInternalLinks))
                              + When(m.keywords < 5, ContentQuality(FewKeywords(m.keywords)))
  {
    var wt := Content;
    score', issues' := score, issues;
    if m.words < 300 {
      TotalDeductionAppend(issues', ContentQuality(ThinContent(m.words)), wt);
      score', issues' := score' - 20, issues' + [ContentQuality(ThinContent(m.words))];
    }
    if m.links < 5 {
      TotalDeductionAppend(issues', ContentQuality(FewInternalLinks), wt);
      score', issues' := score' - 10, issues' + [ContentQuality(FewInternalLinks)];
    }
    if m.keywords < 5 {
      TotalDeductionAppend(issues', ContentQuality(FewKeywords(m.keywords)), wt);
      score', issues' := score' - 15, issues' + [ContentQuality(FewKeywords(m.keywords))];
    }
  }

  /** The density check of a content site: 15 points under 1%, 20 above 3%. */
  method CheckStandardDensity(m: ContentMeasures, score: int, issues: seq<Issue>)
    returns (score': int, issues': seq<Issue>)
    requires score == 100 - TotalDeduction(issues, Content)
    ensures score' == 100 - TotalDeduction(issues', Content)
    ensures issues' == issues + When(m.density < 1.0, ContentQuality(LowKeywordDensity(m.density)))
                              + When(m.density > 3.0, ContentQuality(HighKeywordDensity(m.density)))
  {
    var wt := Content;
    score', issues' := score, issues;
    if m.density < 1.0 {
      TotalDeductionAppend(issues', ContentQuality(LowKeywordDensity(m.density)), wt);
      score', issues' := score' - 15, issues' + [ContentQuality(LowKeywordDensity(m.density))];
    } else if m.density > 3.0 {
      TotalDeductionAppend(issues', ContentQuality(HighKeywordDensity(m.density)), wt);
      score', issues' := score' - 20, issues' + [ContentQuality(HighKeywordDensity(m.density))];
    }
  }

  /** The e-commerce checks, from a score of 100. */
  method CheckEcommerce(m: ContentMeasures) returns (score: int, issues: seq<Issue>)
    ensures score == 100 - TotalDeduction(issues, Ecommerce)
    ensures issues == EcommerceFindings(m)
  {
    score, issues := CheckEcommerceAmounts(m, 100, []);
    assert issues == When(m.words < 200, ContentQuality(ThinContent(m.words)))
                     + When(m.links < 3, ContentQuality(FewInternalLinks))
                     + When(m.keywords < 3, ContentQuality(FewKeywords(m.keywords)));
    score, issues := CheckEcommerceDensity(m, score, issues);
  }

  /** The content-site checks, from a score of 100. */
  method CheckStandard(m: ContentMeasures) returns (score: int, issues: seq<Issue>)
    ensures score == 100 - TotalDeduction(issues, Content)
    ensures issues == StandardFindings(m)
  {
    score, issues := CheckStandardAmounts(m, 100, []);
    assert issues == When(m.words < 300, ContentQuality(ThinContent(m.words)))
                     + When(m.links < 5, ContentQuality(FewInternalLinks))
                     + When(m.keywords < 5, ContentQuality(FewKeywords(m.keywords)));
    score, issues := CheckStandardDensity(m, score, issues);
  }

  /** The checks of the site's type, from a score of 100. */
  method CheckByType(m: ContentMeasures, wt: WebsiteType) returns (score: int, issues: seq<Issue>)
    ensures score == 100 - TotalDeduction(issues, wt)
    ensures issues == TypeFindings(m, wt)
  {
    match wt {
      case Functional =>
        score, issues := CheckFunctionalContent(m, 100, []);
        assert issues == FunctionalFindings(m);
      case Ecommerce =>
        score, issues := CheckEcommerce(m);
      case Content =>
        score, issues := CheckStandard(m);
    }
  }

  /** The checks for every site: 10 points for readability under 60, 15 for more than three repeated sentences. */
  method CheckQuality(m: ContentMeasures, wt: WebsiteType, score: int, issues: seq<Issue>)
    returns (score': int, issues': seq<Issue>)
    requires score == 100 - TotalDeduction(issues, wt)
    ensures score' == 100 - TotalDeduction(issues', wt)
    ensures issues' == issues + QualityFindings(m)
  {
    score', issues' := score, issues;
    if m.readability < 60.0 {
      TotalDeductionAppend(issues', ContentQuality(PoorReadability(m.readability.Floor)), wt);
      score', issues' := score' - 10, issues' + [ContentQuality(PoorReadability(m.readability.Floor))];
    }
    if m.duplicates > 3 {
      TotalDeductionAppend(issues', ContentQuality(DuplicateContent(m.duplicates)), wt);
      score', issues' := score' - 15, issues' + [ContentQuality(DuplicateContent(m.duplicates))];
    }
  }

  /** The measurements of the page: words, sentences, readability, repeated sentences and keyword density. */
  method MeasureContent(page: ContentPage, order: seq<string>) returns (m: ContentMeasures)
    ensures m == MeasuresOf(page, order)
  {
    var sentences := Sentences(page.text);
    var average := AverageSentenceLength(sentences);
    var readability := Readability(average);
    var density := AnalyzeKeywordDensity(page.text, order, page.regexWords);
    m := ContentMeasures(WordCount(page.text), page.anchors, |order|, density, readability, DuplicateCount(sentences));
  }

  /**
   * The content metric for one order of the unique keywords: measure, apply
   * the rules of the site type and the common rules, clamp at 0.
   */
  method AnalyzeContentQuality(page: ContentPage, order: seq<string>, wt: WebsiteType) returns (r: MetricResult)
    requires ListsOnce(order, AllKeywords(page))
    ensures r.issues == Some(ContentFindings(MeasuresOf(page, order), wt))
    ensures Scored(r, wt)
    ensures r.data == ContentDataOf(MeasuresOf(page, order))
  {
    var m := MeasureContent(page, order);
    var score, issues := CheckByType(m, wt);
    score, issues := CheckQuality(m, wt, score, issues);
    r := MetricResult(Clamp(score), Some(issues), ContentData(m.words, m.density, m.readability.Floor, m.duplicates, m.links, m.keywords));
  }

  // ---------------------------------------------------------------------------
  // Properties of the rules

  /** A content issue is reported exactly when the rule that reports it fires. */
  lemma QualityFindingsParts(m: ContentMeasures)
    ensures forall x :: x in QualityFindings(m) <==>
              (m.readability < 60.0 && x == ContentQuality(PoorReadability(m.readability.Floor)))
              || (m.duplicates > 3 && x == ContentQuality(DuplicateContent(m.duplicates)))
  {
  }

  /** A page never reports both a low and a high keyword density. */
  lemma DensityRulesExclusive(m: ContentMeasures, wt: WebsiteType)
    ensures !(ContentQuality(LowKeywordDensity(m.density)) in TypeFindings(m, wt)
              && ContentQuality(HighKeywordDensity(m.density)) in TypeFindings(m, wt))
    ensures wt == Functional ==>
              forall x :: x in TypeFindings(m, wt) ==> !x.content.LowKeywordDensity? && !x.content.HighKeywordDensity?
  {
    match wt
    case Functional =>
    case Ecommerce =>
      EcommerceParts(m);
    case Content =>
      StandardParts(m);
  }

  lemma EcommerceParts(m: ContentMeasures)
    ensures forall x :: x in EcommerceFindings(m) <==>
              (m.words < 200 && x == ContentQuality(ThinContent(m.words)))
              || (m.links < 3 && x == ContentQuality(FewInternalLinks))
              || (m.keywords < 3 && x == ContentQuality(FewKeywords(m.keywords)))
              || (m.density < 0.5 && x == ContentQuality(LowKeywordDensity(m.density)))
              || (m.density > 5.0 && x == ContentQuality(HighKeywordDensity(m.density)))
  {
    var a := When(m.words < 200, ContentQuality(ThinContent(m.words)))
             + When(m.links < 3, ContentQuality(FewInternalLinks))
             + When(m.keywords < 3, ContentQuality(FewKeywords(m.keywords)));
    var b := When(m.density < 0.5, ContentQuality(LowKeywordDensity(m.density)))
             + When(m.density > 5.0, ContentQuality(HighKeywordDensity(m.density)));
    assert EcommerceFindings(m) == a + b;
  }

  lemma StandardParts(m: ContentMeasures)
    ensures forall x :: x in StandardFindings(m) <==>
              (m.words < 300 && x == ContentQuality(ThinContent(m.words)))
              || (m.links < 5 && x == ContentQuality(FewInternalLinks))
              || (m.keywords < 5 && x == ContentQuality(FewKeywords(m.keywords)))
              || (m.density < 1.0 && x == ContentQuality(LowKeywordDensity(m.density)))
              || (m.density > 3.0 && x == ContentQuality(HighKeywordDensity(m.density)))
  {
    var a := When(m.words < 300, ContentQuality(ThinContent(m.words)))
             + When(m.links < 5, ContentQuality(FewInternalLinks))
             + When(m.keywords < 5, ContentQuality(FewKeywords(m.keywords)));
    var b := When(m.density < 1.0, ContentQuality(LowKeywordDensity(m.density)))
             + When(m.density > 3.0, ContentQuality(HighKeywordDensity(m.density)));
    assert StandardFindings(m) == a + b;
  }

  /** The functional rules never cost more than 20 points, the e-commerce ones 50, the content ones 65. */
  lemma TypeCostAtMost(m: ContentMeasures, wt: WebsiteType)
    ensures TotalDeduction(TypeFindings(m, wt), wt) <= (match wt case Functional => 20 case Ecommerce => 50 case Content => 65)
  {
    match wt
    case Functional => FunctionalCostAtMost(m);
    case Ecommerce => EcommerceCostAtMost(m);
    case Content => StandardCostAtMost(m);
  }

  lemma FunctionalCostAtMost(m: ContentMeasures)
    ensures TotalDeduction(FunctionalFindings(m), Functional) <= 20
  {
    var wt := Functional;
    var a := When(m.words < 100, ContentQuality(ThinContent(m.words)));
    var b := When(m.links < 2, ContentQuality(FewInternalLinks));
    TotalDeductionWhen([], m.words < 100, ContentQuality(ThinContent(m.words)), wt);
    assert [] + a == a;
    TotalDeductionWhen(a, m.links < 2, ContentQuality(FewInternalLinks), wt);
    TotalDeductionWhen(a + b, m.keywords == 0, ContentQuality(NoKeywords), wt);
  }

  lemma EcommerceCostAtMost(m: ContentMeasures)
    ensures TotalDeduction(EcommerceFindings(m), Ecommerce) <= 50
  {
    var a := When(m.words < 200, ContentQuality(ThinContent(m.words)))
             + When(m.links < 3, ContentQuality(FewInternalLinks))
             + When(m.keywords < 3, ContentQuality(FewKeywords(m.keywords)));
    var b := When(m.density < 0.5, ContentQuality(LowKeywordDensity(m.density)))
             + When(m.density > 5.0, ContentQuality(HighKeywordDensity(m.density)));
    assert EcommerceFindings(m) == a + b;
    AmountsCostAtMost(m, 200, 3, 3, Ecommerce);
    DensityCostAtMost(m, 0.5, 5.0, Ecommerce);
    TotalDeductionConcat(a, b, Ecommerce);
  }

  lemma StandardCostAtMost(m: ContentMeasures)
    ensures TotalDeduction(StandardFindings(m), Content) <= 65
  {
    var a := When(m.words < 300, ContentQuality(ThinContent(m.words)))
             + When(m.links < 5, ContentQuality(FewInternalLinks))
             + When(m.keywords < 5, ContentQuality(FewKeywords(m.keywords)));
    var b := When(m.density < 1.0, ContentQuality(LowKeywordDensity(m.density)))
             + When(m.density > 3.0, ContentQuality(HighKeywordDensity(m.density)));
    assert StandardFindings(m) == a + b;
    AmountsCostAtMost(m, 300, 5, 5, Content);
    DensityCostAtMost(m, 1.0, 3.0, Content);
    TotalDeductionConcat(a, b, Content);
  }

  lemma AmountsCostAtMost(m: ContentMeasures, words: nat, links: nat, keywords: nat, wt: WebsiteType)
    requires wt != Functional
    ensures var issues := When(m.words < words, ContentQuality(ThinContent(m.words)))
                          + When(m.links < links, ContentQuality(FewInternalLinks))
                          + When(m.keywords < keywords, ContentQuality(FewKeywords(m.keywords)));
            TotalDeduction(issues, wt) <= (if wt == Ecommerce then 35 else 45)
  {
    var a := When(m.words < words, ContentQuality(ThinContent(m.words)));
    var b := When(m.links < links, ContentQuality(FewInternalLinks));
    TotalDeductionWhen([], m.words < words, ContentQuality(ThinContent(m.words)), wt);
    assert [] + a == a;
    TotalDeductionWhen(a, m.links < links, ContentQuality(FewInternalLinks), wt);
    TotalDeductionWhen(a + b, m.keywords < keywords, ContentQuality(FewKeywords(m.keywords)), wt);
  }

  lemma DensityCostAtMost(m: ContentMeasures, low: real, high: real, wt: WebsiteType)
    requires wt != Functional && low < high
    ensures var issues := When(m.density < low, ContentQuality(LowKeywordDensity(m.density)))
                          + When(m.density > high, ContentQuality(HighKeywordDensity(m.density)));
            TotalDeduction(issues, wt) <= (if wt == Ecommerce then 15 else 20)
  {
    var a := When(m.density < low, ContentQuality(LowKeywordDensity(m.density)));
    TotalDeductionWhen([], m.density < low, ContentQuality(LowKeywordDensity(m.density)), wt);
    assert [] + a == a;
    TotalDeductionWhen(a, m.density > high, ContentQuality(HighKeywordDensity(m.density)), wt);
  }

  /** With the common rules costing at most 25 points, no site type's content score is ever clamped. */
  lemma ContentScoreFloor(m: ContentMeasures, wt: WebsiteType)
    ensures TotalDeduction(ContentFindings(m, wt), wt) <= 90
  {
    TypeCostAtMost(m, wt);
    QualityCostAtMost(m, wt);
    TotalDeductionConcat(TypeFindings(m, wt), QualityFindings(m), wt);
  }

  lemma QualityCostAtMost(m: ContentMeasures, wt: WebsiteType)
    ensures TotalDeduction(QualityFindings(m), wt) <= 25
  {
    var a := When(m.readability < 60.0, ContentQuality(PoorReadability(m.readability.Floor)));
    TotalDeductionWhen([], m.readability < 60.0, ContentQuality(PoorReadability(m.readability.Floor)), wt);
    assert [] + a == a;
    TotalDeductionWhen(a, m.duplicates > 3, ContentQuality(DuplicateContent(m.duplicates)), wt);
  }

  /** Repeated sentences are at most half of the sentences, so more than three need at least eight sentences. */
  lemma DuplicateContentNeedsSentences(text: string)
    ensures 2 * DuplicateCount(Sentences(text)) <= |Sentences(text)|
  {
    DuplicateCountAtMostHalf(Sentences(text));
  }
}
