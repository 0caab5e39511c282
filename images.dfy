/**
 * `_analyze_image_optimization` (backend/seo_analyzer.py). Each <img> is
 * abstracted to its `alt`, `src` and `loading` attributes, each "" when
 * absent. The fractions of the source (`total * 0.5`, `total * 0.3`) are
 * compared exactly, as integer inequalities.
 */
module Images {
  import opened Options
  import opened Text
  import opened Classifier
  import opened Metrics
  import opened Counting

  datatype ImageTag = ImageTag(alt: string, src: string, loading: string)

  /** `not img.get('alt')`: no alt text, or an empty one. */
  predicate MissingAltText(img: ImageTag)
  {
    img.alt == ""
  }

  /** `src.endswith('.webp')`, with the letter case as written. */
  predicate IsWebp(img: ImageTag)
  {
    EndsWith(img.src, ".webp")
  }

  /** The size heuristic: a source mentioning "large" or "big" in any letter case. */
  predicate IsLarge(img: ImageTag)
  {
    Contains(Lower(img.src), "large") || Contains(Lower(img.src), "big")
  }

  predicate IsLazy(img: ImageTag)
  {
    img.loading == "lazy"
  }

  /** The four counters of the image loop. */
  datatype ImageCounts = ImageCounts(missingAlt: nat, webp: nat, large: nat, lazy: nat)

  function CountsOf(images: seq<ImageTag>): ImageCounts
  {
    ImageCounts(Count(images, MissingAltText), Count(images, IsWebp), Count(images, IsLarge), Count(images, IsLazy))
  }

  /** The image loop: one pass over the images, bumping each counter whose test the image meets. */
  method CountImages(images: seq<ImageTag>) returns (c: ImageCounts)
    ensures c == CountsOf(images)
  {
    var missingAlt, webp, large, lazy := 0, 0, 0, 0;
    for i := 0 to |images|
      invariant missingAlt == Count(images[..i], MissingAltText)
      invariant webp == Count(images[..i], IsWebp)
      invariant large == Count(images[..i], IsLarge)
      invariant lazy == Count(images[..i], IsLazy)
    {
      var img := images[i];
      assert images[..i + 1] == images[..i] + [img];
      CountAppend(images[..i], img, MissingAltText);
      CountAppend(images[..i], img, IsWebp);
      CountAppend(images[..i], img, IsLarge);
      CountAppend(images[..i], img, IsLazy);
      if img.alt == "" {
        missingAlt := missingAlt + 1;
      }
      if EndsWith(img.src, ".webp") {
        webp := webp + 1;
      }
      if Contains(Lower(img.src), "large") || Contains(Lower(img.src), "big") {
        large := large + 1;
      }
      if img.loading == "lazy" {
        lazy := lazy + 1;
      }
    }
    assert images[..|images|] == images;
    c := ImageCounts(missingAlt, webp, large, lazy);
  }

  /** Missing alt texts are penalised above half of the images on a functional site, from the first one otherwise. */
  predicate TooManyMissingAlt(c: ImageCounts, total: nat, wt: WebsiteType)
  {
    if wt == Functional then 2 * c.missingAlt > total else c.missingAlt > 0
  }

  /** Large images are penalised above 5 on a functional site and above 3 otherwise. */
  predicate TooManyLarge(c: ImageCounts, wt: WebsiteType)
  {
    if wt == Functional then c.large > 5 else c.large > 3
  }

  /** WebP images are penalised below 30% of the images on a functional site and below half otherwise. */
  predicate TooFewWebp(c: ImageCounts, total: nat, wt: WebsiteType)
  {
    if wt == Functional then 10 * c.webp < 3 * total else 2 * c.webp < total
  }

  /** The image rules, in the order the source applies them. */
  function ImageFindingsOf(c: ImageCounts, total: nat, wt: WebsiteType): seq<Issue>
  {
    When(TooManyMissingAlt(c, total, wt), Images(MissingAlt(c.missingAlt)))
    + When(TooManyLarge(c, wt), Images(LargeImages(c.large)))
    + When(TooFewWebp(c, total, wt), Images(FewWebp))
  }

  function ImageFindings(images: seq<ImageTag>, wt: WebsiteType): seq<Issue>
  {
    ImageFindingsOf(CountsOf(images), |images|, wt)
  }

  function ImageDataOf(images: seq<ImageTag>): MetricData
  {
    var c := CountsOf(images);
    ImageData(|images|, c.large, c.missingAlt, c.webp, c.lazy)
  }

  /** The functional thresholds: missing alt texts cost 2 points each, large images 10, few WebP images 5. */
  method CheckFunctional(c: ImageCounts, total: nat, score: int, issues: seq<Issue>)
    returns (score': int, issues': seq<Issue>)
    requires score == 100 - TotalDeduction(issues, Functional)
    ensures score' == 100 - TotalDeduction(issues', Functional)
    ensures issues' == issues + ImageFindingsOf(c, total, Functional)
  {
    score', issues' := score, issues;
    if 2 * c.missingAlt > total {
      TotalDeductionAppend(issues', Images(MissingAlt(c.missingAlt)), Functional);
      score', issues' := score' - c.missingAlt * 2, issues' + [Images(MissingAlt(c.missingAlt))];
    }
    if c.large > 5 {
      TotalDeductionAppend(issues', Images(LargeImages(c.large)), Functional);
      score', issues' := score' - 10, issues' + [Images(LargeImages(c.large))];
    }
    if 10 * c.webp < 3 * total {
      TotalDeductionAppend(issues', Images(FewWebp), Functional);
      score', issues' := score' - 5, issues' + [Images(FewWebp)];
    }
  }

  /** The standard thresholds: missing alt texts cost 5 points each, large images 15, few WebP images 10. */
  method CheckStandard(c: ImageCounts, total: nat, wt: WebsiteType, score: int, issues: seq<Issue>)
    returns (score': int, issues': seq<Issue>)
    requires wt != Functional
    requires score == 100 - TotalDeduction(issues, wt)
    ensures score' == 100 - TotalDeduction(issues', wt)
    ensures issues' == issues + ImageFindingsOf(c, total, wt)
  {
    assert TooManyMissingAlt(c, total, wt) == (c.missingAlt > 0);
    assert TooManyLarge(c, wt) == (c.large > 3);
    assert TooFewWebp(c, total, wt) == (2 * c.webp < total);
    score', issues' := score, issues;
    if c.missingAlt > 0 {
      TotalDeductionAppend(issues', Images(MissingAlt(c.missingAlt)), wt);
      score', issues' := score' - c.missingAlt * 5, issues' + [Images(MissingAlt(c.missingAlt))];
    }
    if c.large > 3 {
      TotalDeductionAppend(issues', Images(LargeImages(c.large)), wt);
      score', issues' := score' - 15, issues' + [Images(LargeImages(c.large))];
    }
    if 2 * c.webp < total {
      TotalDeductionAppend(issues', Images(FewWebp), wt);
      score', issues' := score' - 10, issues' + [Images(FewWebp)];
    }
  }

  /** The image metric: count, apply the thresholds of the site type, clamp at 0. */
  method AnalyzeImageOptimization(images: seq<ImageTag>, wt: WebsiteType) returns (r: MetricResult)
    ensures r.issues == Some(ImageFindings(images, wt))
    ensures Scored(r, wt)
    ensures r.data == ImageDataOf(images)
  {
    var c := CountImages(images);
    var score, issues;
    if wt == Functional {
      score, issues := CheckFunctional(c, |images|, 100, []);
    } else {
      score, issues := CheckStandard(c, |images|, wt, 100, []);
    }
    assert issues == ImageFindings(images, wt);
    r := MetricResult(Clamp(score), Some(issues), ImageData(|images|, c.large, c.missingAlt, c.webp, c.lazy));
  }

  /** An image issue is reported exactly when its rule fires. */
  lemma ImageFindingsParts(c: ImageCounts, total: nat, wt: WebsiteType)
    ensures forall x :: x in ImageFindingsOf(c, total, wt) <==>
              (TooManyMissingAlt(c, total, wt) && x == Images(MissingAlt(c.missingAlt)))
              || (TooManyLarge(c, wt) && x == Images(LargeImages(c.large)))
              || (TooFewWebp(c, total, wt) && x == Images(FewWebp))
  {
  }

  /** Every counter counts images, so none exceeds the number of images. */
  lemma CountsAtMostTotal(images: seq<ImageTag>)
    ensures var c := CountsOf(images);
            c.missingAlt <= |images| && c.webp <= |images| && c.large <= |images| && c.lazy <= |images|
  {
    CountBounds(images, MissingAltText);
    CountBounds(images, IsWebp);
    CountBounds(images, IsLarge);
    CountBounds(images, IsLazy);
  }

  /** A page without images meets every image rule and scores 100. */
  lemma NoImagesScorePerfect(wt: WebsiteType)
    ensures ImageFindings([], wt) == []
  {
  }

  /**
   * The functional thresholds are the lenient ones: each rule that fires on
   * a functional site fires on others too, and costs no more there.
   */
  lemma FunctionalImagesAreLenient(c: ImageCounts, total: nat)
    ensures TotalDeduction(ImageFindingsOf(c, total, Functional), Functional)
            <= TotalDeduction(ImageFindingsOf(c, total, Content), Content)
  {
    var fa := When(TooManyMissingAlt(c, total, Functional), Images(MissingAlt(c.missingAlt)));
    var ca := When(TooManyMissingAlt(c, total, Content), Images(MissingAlt(c.missingAlt)));
    var fl := When(TooManyLarge(c, Functional), Images(LargeImages(c.large)));
    var cl := When(TooManyLarge(c, Content), Images(LargeImages(c.large)));
    TotalDeductionWhen([], TooManyMissingAlt(c, total, Functional), Images(MissingAlt(c.missingAlt)), Functional);
    TotalDeductionWhen([], TooManyMissingAlt(c, total, Content), Images(MissingAlt(c.missingAlt)), Content);
    assert [] + fa == fa && [] + ca == ca;
    TotalDeductionWhen(fa, TooManyLarge(c, Functional), Images(LargeImages(c.large)), Functional);
    TotalDeductionWhen(ca, TooManyLarge(c, Content), Images(LargeImages(c.large)), Content);
    TotalDeductionWhen(fa + fl, TooFewWebp(c, total, Functional), Images(FewWebp), Functional);
    TotalDeductionWhen(ca + cl, TooFewWebp(c, total, Content), Images(FewWebp), Content);
  }
}
