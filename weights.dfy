/**
 * The twelve metrics and the weight tables over them: a list of (metric,
 * weight) pairs in the order the source writes them. The analyser's own
 * `website_type_weights` (backend/seo_analyzer.py) is defined here; the
 * tables the total score uses are in module App.
 */
module Weights {
  import opened Options
  import opened Classifier

  datatype MetricKey =
    | PageSpeedKey | MobileOptimizationKey | MetaTagsKey | HeadingStructureKey | ImageOptimizationKey
    | InternalLinkingKey | SslCertificateKey | SocialMediaTagsKey | ContentQualityKey | UrlStructureKey
    | RobotsTxtKey | SitemapKey

  /** The key the metric's result is stored under. */
  function Name(k: MetricKey): string
  {
    match k
    case PageSpeedKey => "pageSpeed"
    case MobileOptimizationKey => "mobileOptimization"
    case MetaTagsKey => "metaTags"
    case HeadingStructureKey => "headingStructure"
    case ImageOptimizationKey => "imageOptimization"
    case InternalLinkingKey => "internalLinking"
    case SslCertificateKey => "sslCertificate"
    case SocialMediaTagsKey => "socialMediaTags"
    case ContentQualityKey => "contentQuality"
    case UrlStructureKey => "urlStructure"
    case RobotsTxtKey => "robotsTxt"
    case SitemapKey => "sitemap"
  }

  /** The metric a result key names, if any. */
  function KeyOf(s: string): (r: Option<MetricKey>)
    ensures r.Some? ==> Name(r.value) == s
  {
    if s == "pageSpeed" then Some(PageSpeedKey)
    else if s == "mobileOptimization" then Some(MobileOptimizationKey)
    else if s == "metaTags" then Some(MetaTagsKey)
    else if s == "headingStructure" then Some(HeadingStructureKey)
    else if s == "imageOptimization" then Some(ImageOptimizationKey)
    else if s == "internalLinking" then Some(InternalLinkingKey)
    else if s == "sslCertificate" then Some(SslCertificateKey)
    else if s == "socialMediaTags" then Some(SocialMediaTagsKey)
    else if s == "contentQuality" then Some(ContentQualityKey)
    else if s == "urlStructure" then Some(UrlStructureKey)
    else if s == "robotsTxt" then Some(RobotsTxtKey)
    else if s == "sitemap" then Some(SitemapKey)
    else None
  }

  /** Every metric's name is recognised as that metric, so names and keys correspond one to one. */
  lemma NameRoundTrip(k: MetricKey)
    ensures KeyOf(Name(k)) == Some(k)
  {
  }

  /** The twelve metrics, in the order the total score's tables list them. */
  const AllMetrics: seq<MetricKey> := [
    PageSpeedKey, MobileOptimizationKey, MetaTagsKey, HeadingStructureKey, ImageOptimizationKey,
    InternalLinkingKey, SslCertificateKey, SocialMediaTagsKey, ContentQualityKey, UrlStructureKey,
    RobotsTxtKey, SitemapKey]

  /** The list names every metric once. */
  lemma AllMetricsOnce(k: MetricKey)
    ensures k in AllMetrics
    ensures forall i, j :: 0 <= i < j < |AllMetrics| ==> AllMetrics[i] != AllMetrics[j]
  {
  }

  /**
   * A weight table gives each metric a weight; as a function of the metric it
   * covers the twelve metrics by construction.
   */
  type WeightTable = MetricKey -> nat

  /** The sum of the weights of the listed metrics. */
  function TableSum(t: WeightTable, keys: seq<MetricKey>): nat
  {
    if |keys| == 0 then 0 else TableSum(t, keys[..|keys| - 1]) + t(keys[|keys| - 1])
  }

  lemma PrefixSum(t: WeightTable, keys: seq<MetricKey>, n: nat)
    requires n < |keys|
    ensures TableSum(t, keys[..n + 1]) == TableSum(t, keys[..n]) + t(keys[n])
  {
    assert keys[..n + 1][..n] == keys[..n];
  }

  /** The sum of the twelve weights, metric by metric. */
  lemma TwelveSum(t: WeightTable)
    ensures TableSum(t, AllMetrics) == t(PageSpeedKey) + t(MobileOptimizationKey) + t(MetaTagsKey)
              + t(HeadingStructureKey) + t(ImageOptimizationKey) + t(InternalLinkingKey) + t(SslCertificateKey)
              + t(SocialMediaTagsKey) + t(ContentQualityKey) + t(UrlStructureKey) + t(RobotsTxtKey) + t(SitemapKey)
  {
    var m := AllMetrics;
    assert m[..0] == [];
    PrefixSum(t, m, 0); PrefixSum(t, m, 1); PrefixSum(t, m, 2); PrefixSum(t, m, 3); PrefixSum(t, m, 4);
    PrefixSum(t, m, 5); PrefixSum(t, m, 6); PrefixSum(t, m, 7); PrefixSum(t, m, 8); PrefixSum(t, m, 9);
    PrefixSum(t, m, 10); PrefixSum(t, m, 11);
    assert m[..12] == m;
  }

  /** The analyser's `website_type_weights`. */
  function AnalyzerWeight(wt: WebsiteType, k: MetricKey): nat
  {
    match wt
    case Content =>
      (match k
       case PageSpeedKey => 18 case MobileOptimizationKey => 15 case ContentQualityKey => 20
       case MetaTagsKey => 12 case SslCertificateKey => 10 case HeadingStructureKey => 8
       case InternalLinkingKey => 7 case ImageOptimizationKey => 5 case SocialMediaTagsKey => 2
       case UrlStructureKey => 2 case RobotsTxtKey => 1 case SitemapKey => 0)
    case Functional =>
      (match k
       case PageSpeedKey => 25 case MobileOptimizationKey => 20 case SslCertificateKey => 18
       case ContentQualityKey => 8 case InternalLinkingKey => 10 case MetaTagsKey => 6
       case UrlStructureKey => 5 case ImageOptimizationKey => 3 case HeadingStructureKey => 2
       case RobotsTxtKey => 2 case SitemapKey => 1 case SocialMediaTagsKey => 0)
    case Ecommerce =>
      (match k
       case PageSpeedKey => 16 case MobileOptimizationKey => 18 case ContentQualityKey => 12
       case MetaTagsKey => 14 case SslCertificateKey => 15 case ImageOptimizationKey => 10
       case InternalLinkingKey => 8 case SocialMediaTagsKey => 4 case UrlStructureKey => 2
       case HeadingStructureKey => 1 case RobotsTxtKey => 0 case SitemapKey => 0)
  }

  /** Each of the analyser's three tables sums to 100. */
  lemma AnalyzerTablesSum(wt: WebsiteType)
    ensures TableSum(k => AnalyzerWeight(wt, k), AllMetrics) == 100
  {
    TwelveSum(k => AnalyzerWeight(wt, k));
  }
}
