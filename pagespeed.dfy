/**
 * `_analyze_page_speed` (backend/seo_analyzer.py). The page is abstracted to
 * the length of its body, its elapsed time in milliseconds, and the outcome
 * of the HEAD request the analyser sends for each image, stylesheet and
 * script. Sizes are exact real numbers of kilobytes; the source rounds them
 * to two decimals only when it reports them.
 */
module PageSpeed {
  import opened Options
  import opened Counting
  import opened Metrics

  /**
   * What the HEAD request for one referenced resource gave: nothing was sent
   * because the reference is empty, an answer with its status and its
   * `content-length` header (0 when absent), or a failure.
   */
  datatype Probe = NoReference | Answered(status: int, contentLength: nat) | ProbeFailed

  datatype SpeedPage = SpeedPage(
    contentLength: nat, loadTime: int, images: seq<Probe>, stylesheets: seq<Probe>, scripts: seq<Probe>)

  /** The size each kind of resource is estimated at when its request fails. */
  const ImageEstimate: real := 30.0
  const StylesheetEstimate: real := 50.0
  const ScriptEstimate: real := 100.0

  /** An image above 100 KB counts as large. */
  const LargeImageBytes: nat := 100 * 1024

  /** The kilobytes one resource adds: its size on status 200, the estimate on failure, nothing otherwise. */
  function ProbeSize(p: Probe, estimate: real): real
  {
    match p
    case NoReference => 0.0
    case Answered(status, n) => if status == 200 then (n as real) / 1024.0 else 0.0
    case ProbeFailed => estimate
  }

  function TotalSize(probes: seq<Probe>, estimate: real): real
  {
    if |probes| == 0 then 0.0
    else TotalSize(probes[..|probes| - 1], estimate) + ProbeSize(probes[|probes| - 1], estimate)
  }

  predicate IsLargeImage(p: Probe)
  {
    p.Answered? && p.status == 200 && p.contentLength > LargeImageBytes
  }

  predicate IsFailed(p: Probe)
  {
    p.ProbeFailed?
  }

  /** The image loop: sums the image sizes and counts the large images. */
  method MeasureImages(images: seq<Probe>) returns (size: real, large: nat)
    ensures size == TotalSize(images, ImageEstimate)
    ensures large == Count(images, IsLargeImage)
  {
    size, large := 0.0, 0;
    for i := 0 to |images|
      invariant size == TotalSize(images[..i], ImageEstimate)
      invariant large == Count(images[..i], IsLargeImage)
    {
      assert images[..i + 1][..i] == images[..i];
      CountAppend(images[..i], images[i], IsLargeImage);
      assert images[..i + 1] == images[..i] + [images[i]];
      match images[i] {
        case NoReference =>
        case Answered(status, n) =>
          if status == 200 {
            size := size + (n as real) / 1024.0;
            if n > 100 * 1024 {
              large := large + 1;
            }
          }
        case ProbeFailed =>
          size := size + 30.0;
      }
    }
    assert images[..|images|] == images;
  }

  /** The stylesheet and script loops: sum the sizes, with the given estimate for a failed request. */
  method MeasureAssets(probes: seq<Probe>, estimate: real) returns (size: real)
    ensures size == TotalSize(probes, estimate)
  {
    size := 0.0;
    for i := 0 to |probes|
      invariant size == TotalSize(probes[..i], estimate)
    {
      assert probes[..i + 1][..i] == probes[..i];
      match probes[i] {
        case NoReference =>
        case Answered(status, n) =>
          if status == 200 {
            size := size + (n as real) / 1024.0;
          }
        case ProbeFailed =>
          size := size + estimate;
      }
    }
    assert probes[..|probes|] == probes;
  }

  /** The points the page size costs: 30 above 2000 KB, 15 above 1000 KB. */
  function SizePenalty(totalSize: real): nat
  {
    if totalSize > 2000.0 then 30 else if totalSize > 1000.0 then 15 else 0
  }

  /** The points large images cost: 20 for more than five, 10 for more than two. */
  function LargeImagePenalty(large: nat): nat
  {
    if large > 5 then 20 else if large > 2 then 10 else 0
  }

  /** The points stylesheets or scripts cost: 10 above 500 KB. */
  function AssetPenalty(size: real): nat
  {
    if size > 500.0 then 10 else 0
  }

  /** The speed score as 100 less the four independent penalties. */
  function SpeedScore(totalSize: real, large: nat, cssSize: real, jsSize: real): int
  {
    100 - SizePenalty(totalSize) - LargeImagePenalty(large) - AssetPenalty(cssSize) - AssetPenalty(jsSize)
  }

  /** The measurements of a page. */
  datatype SpeedMeasures = SpeedMeasures(totalSize: real, imageSize: real, large: nat, cssSize: real, jsSize: real)

  function MeasuresOf(page: SpeedPage): SpeedMeasures
  {
    SpeedMeasures((page.contentLength as real) / 1024.0, TotalSize(page.images, ImageEstimate),
                  Count(page.images, IsLargeImage), TotalSize(page.stylesheets, StylesheetEstimate),
                  TotalSize(page.scripts, ScriptEstimate))
  }

  function SpeedScoreOf(m: SpeedMeasures): int
  {
    SpeedScore(m.totalSize, m.large, m.cssSize, m.jsSize)
  }

  /**
   * The page-speed metric: measure, then deduct rule by rule. Its dictionary
   * has no issues list.
   */
  method AnalyzePageSpeed(page: SpeedPage) returns (r: MetricResult)
    ensures r.score == SpeedScoreOf(MeasuresOf(page))
    ensures r.issues == None
    ensures r.data == PageSpeedData(page.loadTime, MeasuresOf(page).totalSize, MeasuresOf(page).imageSize,
                                    MeasuresOf(page).cssSize, MeasuresOf(page).jsSize,
                                    |page.images|, MeasuresOf(page).large)
  {
    var totalSize := (page.contentLength as real) / 1024.0;
    var imageSize, large := MeasureImages(page.images);
    var cssSize := MeasureAssets(page.stylesheets, 50.0);
    var jsSize := MeasureAssets(page.scripts, 100.0);
    var score := 100;
    if totalSize > 2000.0 {
      score := score - 30;
    } else if totalSize > 1000.0 {
      score := score - 15;
    }
    if large > 5 {
      score := score - 20;
    } else if large > 2 {
      score := score - 10;
    }
    if cssSize > 500.0 {
      score := score - 10;
    }
    if jsSize > 500.0 {
      score := score - 10;
    }
    SpeedScoreRange(totalSize, large, cssSize, jsSize);
    r := MetricResult(Clamp(score), None,
                      PageSpeedData(page.loadTime, totalSize, imageSize, cssSize, jsSize, |page.images|, large));
  }

  // ---------------------------------------------------------------------------
  // Properties

  /** The deductions add up to at most 70, so the score lies in [30, 100] and the clamp at 0 never applies. */
  lemma SpeedScoreRange(totalSize: real, large: nat, cssSize: real, jsSize: real)
    ensures 30 <= SpeedScore(totalSize, large, cssSize, jsSize) <= 100
    ensures Clamp(SpeedScore(totalSize, large, cssSize, jsSize)) == SpeedScore(totalSize, large, cssSize, jsSize)
  {
  }

  /** A page scores 100 exactly when no threshold is exceeded. */
  lemma FullSpeedScore(totalSize: real, large: nat, cssSize: real, jsSize: real)
    ensures SpeedScore(totalSize, large, cssSize, jsSize) == 100 <==>
              totalSize <= 1000.0 && large <= 2 && cssSize <= 500.0 && jsSize <= 500.0
  {
  }

  /** A page that is bigger in every measure never scores better. */
  lemma SpeedScoreMonotone(t1: real, l1: nat, c1: real, j1: real, t2: real, l2: nat, c2: real, j2: real)
    requires t1 <= t2 && l1 <= l2 && c1 <= c2 && j1 <= j2
    ensures SpeedScore(t2, l2, c2, j2) <= SpeedScore(t1, l1, c1, j1)
  {
  }

  /** The page-size thresholds in bytes: 2000 KB is 2048000 bytes and 1000 KB is 1024000. */
  lemma SizeThresholdsInBytes(contentLength: nat)
    ensures SizePenalty((contentLength as real) / 1024.0) ==
              if contentLength > 2048000 then 30 else if contentLength > 1024000 then 15 else 0
  {
  }

  /** Sizes are never negative, and each failed request adds its estimate. */
  lemma {:induction false} TotalSizeBounds(probes: seq<Probe>, estimate: real)
    requires estimate >= 0.0
    ensures TotalSize(probes, estimate) >= (Count(probes, IsFailed) as real) * estimate
  {
    if |probes| > 0 {
      var front, last := probes[..|probes| - 1], probes[|probes| - 1];
      TotalSizeBounds(front, estimate);
      var c := Count(front, IsFailed);
      assert Count(probes, IsFailed) == c + (if IsFailed(last) then 1 else 0);
      assert TotalSize(probes, estimate) == TotalSize(front, estimate) + ProbeSize(last, estimate);
      ProbeSizeBounds(last, estimate);
      MultiplyStep(c, estimate);
    }
  }

  lemma ProbeSizeBounds(p: Probe, estimate: real)
    requires estimate >= 0.0
    ensures ProbeSize(p, estimate) >= 0.0
    ensures IsFailed(p) ==> ProbeSize(p, estimate) == estimate
  {
  }

  lemma MultiplyStep(c: nat, e: real)
    ensures ((c + 1) as real) * e == (c as real) * e + e
  {
  }

  /** A list of references whose requests all fail is sized at exactly the estimate per reference. */
  lemma {:induction false} AllFailedSize(probes: seq<Probe>, estimate: real)
    requires forall i :: 0 <= i < |probes| ==> probes[i] == ProbeFailed
    ensures TotalSize(probes, estimate) == (|probes| as real) * estimate
  {
    if |probes| > 0 {
      var front := probes[..|probes| - 1];
      assert forall i :: 0 <= i < |front| ==> front[i] == probes[i];
      AllFailedSize(front, estimate);
      assert (|probes| as real) * estimate == (|front| as real) * estimate + estimate;
    }
  }

  /** Only images whose request succeeded can be large, and a large one alone adds more than 100 KB. */
  lemma {:induction false} LargeImagesAreAnswered(images: seq<Probe>)
    ensures TotalSize(images, ImageEstimate) >= 100.0 * (Count(images, IsLargeImage) as real)
  {
    if |images| > 0 {
      LargeImagesAreAnswered(images[..|images| - 1]);
    }
  }
}
