/**
 * The Flask side's aggregation (backend/app.py): the weighted total score,
 * the status words, the canned recommendations and the formatting of the
 * analyser's results. Each metric's dictionary is abstracted to its score
 * and its issue texts; everything else in it travels along unchanged.
 */
module App {
  import opened Options
  import opened Classifier
  import opened Weights
  import Metrics

  /** A value of the results dictionary: a metric's dictionary, or anything else (the URL, the site type). */
  datatype Value = Dict(score: Option<int>, issues: Option<seq<string>>) | Text(text: string)

  type Results = map<string, Value>

  // ---------------------------------------------------------------------------
  // The total score

  /** `calculate_total_score`'s weight tables. */
  function AppWeight(wt: WebsiteType, k: MetricKey): nat
  {
    match wt
    case Content =>
      (match k
       case PageSpeedKey => 15 case MobileOptimizationKey => 12 case MetaTagsKey => 10
       case HeadingStructureKey => 8 case ImageOptimizationKey => 7 case InternalLinkingKey => 8
       case SslCertificateKey => 10 case SocialMediaTagsKey => 5 case ContentQualityKey => 12
       case UrlStructureKey => 6 case RobotsTxtKey => 4 case SitemapKey => 3)
    case Functional =>
      (match k
       case PageSpeedKey => 20 case MobileOptimizationKey => 15 case MetaTagsKey => 5
       case HeadingStructureKey => 3 case ImageOptimizationKey => 5 case InternalLinkingKey => 8
       case SslCertificateKey => 15 case SocialMediaTagsKey => 2 case ContentQualityKey => 5
       case UrlStructureKey => 8 case RobotsTxtKey => 6 case SitemapKey => 8)
    case Ecommerce =>
      (match k
       case PageSpeedKey => 12 case MobileOptimizationKey => 15 case MetaTagsKey => 12
       case HeadingStructureKey => 6 case ImageOptimizationKey => 12 case InternalLinkingKey => 10
       case SslCertificateKey => 12 case SocialMediaTagsKey => 8 case ContentQualityKey => 8
       case UrlStructureKey => 8 case RobotsTxtKey => 5 case SitemapKey => 2)
  }

  /** The content and functional tables sum to 100, the e-commerce table to 110. */
  lemma AppTablesSum()
    ensures TableSum(k => AppWeight(Content, k), AllMetrics) == 100
    ensures TableSum(k => AppWeight(Functional, k), AllMetrics) == 100
    ensures TableSum(k => AppWeight(Ecommerce, k), AllMetrics) == 110
  {
    TwelveSum(k => AppWeight(Content, k));
    TwelveSum(k => AppWeight(Functional, k));
    TwelveSum(k => AppWeight(Ecommerce, k));
  }

  /** `results.get('websiteType', 'content')` */
  function WebsiteTypeOf(results: Results): Value
  {
    if "websiteType" in results then results["websiteType"] else Text("content")
  }

  /** `weights.get(website_type, weights['content'])`: anything but the two other names selects the content table. */
  function TableFor(v: Value): (r: WebsiteType)
    ensures r == Functional <==> v == Text("functional")
    ensures r == Ecommerce <==> v == Text("ecommerce")
  {
    if v == Text("functional") then Functional
    else if v == Text("ecommerce") then Ecommerce
    else Content
  }

  /** A metric takes part in the total when its dictionary is present and has a score. */
  predicate Present(results: Results, k: MetricKey)
  {
    Name(k) in results && results[Name(k)].Dict? && results[Name(k)].score.Some?
  }

  function ScoreOf(results: Results, k: MetricKey): int
    requires Present(results, k)
  {
    results[Name(k)].score.value
  }

  /** The sum of score times weight over the listed metrics that are present. */
  function WeightedSum(t: WeightTable, keys: seq<MetricKey>, results: Results): int
  {
    if |keys| == 0 then 0
    else
      var k := keys[|keys| - 1];
      WeightedSum(t, keys[..|keys| - 1], results) + (if Present(results, k) then ScoreOf(results, k) * t(k) else 0)
  }

  /** The sum of the weights of the listed metrics that are present. */
  function UsedWeight(t: WeightTable, keys: seq<MetricKey>, results: Results): nat
  {
    if |keys| == 0 then 0
    else
      var k := keys[|keys| - 1];
      UsedWeight(t, keys[..|keys| - 1], results) + (if Present(results, k) then t(k) else 0)
  }

  /** The weighted average of the present scores over the listed metrics, scaled by 1.2; 0 when no weight is used. */
  function Normalized(t: WeightTable, keys: seq<MetricKey>, results: Results): real
  {
    Scaled(WeightedSum(t, keys, results), UsedWeight(t, keys, results))
  }

  /** `(weighted / used if used > 0 else 0) * 1.2` */
  function Scaled(weighted: int, used: nat): real
  {
    (if used > 0 then (weighted as real) / (used as real) else 0.0) * 1.2
  }

  function TotalScore(results: Results): real
  {
    Normalized(k => AppWeight(TableFor(WebsiteTypeOf(results)), k), AllMetrics, results)
  }

  /** The weighting loop, before rounding to one decimal. */
  method CalculateTotalScore(results: Results) returns (total: real)
    ensures total == TotalScore(results)
  {
    var wt := TableFor(WebsiteTypeOf(results));
    var t: WeightTable := k => AppWeight(wt, k);
    var weighted: int, used: nat := 0, 0;
    for i := 0 to |AllMetrics|
      invariant weighted == WeightedSum(t, AllMetrics[..i], results)
      invariant used == UsedWeight(t, AllMetrics[..i], results)
    {
      var k := AllMetrics[i];
      assert AllMetrics[..i + 1][..i] == AllMetrics[..i];
      if Name(k) in results && results[Name(k)].Dict? && results[Name(k)].score.Some? {
        weighted := weighted + results[Name(k)].score.value * AppWeight(wt, k);
        used := used + AppWeight(wt, k);
      }
    }
    assert AllMetrics[..|AllMetrics|] == AllMetrics;
    var base := if used > 0 then (weighted as real) / (used as real) else 0.0;
    total := base * 1.2;
  }

  /** Scores in [0, 100] keep the weighted sum between 0 and 100 times the weight used. */
  lemma {:induction false} WeightedSumBounds(t: WeightTable, keys: seq<MetricKey>, results: Results)
    requires forall k :: Present(results, k) ==> 0 <= ScoreOf(results, k) <= 100
    ensures 0 <= WeightedSum(t, keys, results) <= 100 * UsedWeight(t, keys, results)
  {
    if |keys| > 0 {
      WeightedSumBounds(t, keys[..|keys| - 1], results);
      var k := keys[|keys| - 1];
      if Present(results, k) {
        assert 0 <= ScoreOf(results, k) * t(k) <= 100 * t(k);
      }
    }
  }

  /** Metric scores in [0, 100] give a total in [0, 120], whatever the table's sum. */
  lemma TotalScoreBounds(t: WeightTable, keys: seq<MetricKey>, results: Results)
    requires forall k :: Present(results, k) ==> 0 <= ScoreOf(results, k) <= 100
    ensures 0.0 <= Normalized(t, keys, results) <= 120.0
  {
    WeightedSumBounds(t, keys, results);
    ScaledBounds(WeightedSum(t, keys, results), UsedWeight(t, keys, results));
  }

  lemma ScaledBounds(weighted: int, used: nat)
    requires 0 <= weighted <= 100 * used
    ensures 0.0 <= Scaled(weighted, used) <= 120.0
  {
    if used > 0 {
      var w, u := weighted as real, used as real;
      assert w <= 100.0 * u;
      assert w / u <= 100.0;
    }
  }

  /** When every present metric has the same score s, the weighted sum is s times the weight used. */
  lemma {:induction false} UniformWeightedSum(t: WeightTable, keys: seq<MetricKey>, results: Results, s: int)
    requires forall k :: Present(results, k) ==> ScoreOf(results, k) == s
    ensures WeightedSum(t, keys, results) == s * UsedWeight(t, keys, results)
  {
    if |keys| > 0 {
      var front, k := keys[..|keys| - 1], keys[|keys| - 1];
      UniformWeightedSum(t, front, results, s);
      if Present(results, k) {
        var u := UsedWeight(t, front, results);
        Distribute(s, u, t(k));
      }
    }
  }

  /**
   * Equal scores are averaged to themselves: when some weight is used and
   * every present metric scores s, the total is 1.2 s. All 100 gives 120 and
   * all 0 gives 0.
   */
  lemma UniformTotal(t: WeightTable, keys: seq<MetricKey>, results: Results, s: int)
    requires forall k :: Present(results, k) ==> ScoreOf(results, k) == s
    requires UsedWeight(t, keys, results) > 0
    ensures Normalized(t, keys, results) == 1.2 * (s as real)
  {
    UniformWeightedSum(t, keys, results, s);
    ScaledUniform(s, UsedWeight(t, keys, results));
  }

  lemma ScaledUniform(s: int, used: nat)
    requires used > 0
    ensures Scaled(s * used, used) == 1.2 * (s as real)
  {
    assert ((s * used) as real) == (s as real) * (used as real);
  }

  /** Without any present metric of positive weight no weight is used and the total is 0. */
  lemma {:induction false} NothingWeighedGivesZero(t: WeightTable, keys: seq<MetricKey>, results: Results)
    requires forall k :: Present(results, k) ==> t(k) == 0
    ensures UsedWeight(t, keys, results) == 0
    ensures Normalized(t, keys, results) == 0.0
  {
    if |keys| > 0 {
      NothingWeighedGivesZero(t, keys[..|keys| - 1], results);
    }
  }

  /** Multiplying every weight by c multiplies the weighted sum by c. */
  lemma {:induction false} ScaledWeightedSum(t: WeightTable, u: WeightTable, c: nat, keys: seq<MetricKey>, results: Results)
    requires forall k :: u(k) == c * t(k)
    ensures WeightedSum(u, keys, results) == c * WeightedSum(t, keys, results)
  {
    if |keys| > 0 {
      var front, k := keys[..|keys| - 1], keys[|keys| - 1];
      ScaledWeightedSum(t, u, c, front, results);
      if Present(results, k) {
        var x, w := ScoreOf(results, k), WeightedSum(t, front, results);
        assert x * (c * t(k)) == c * (x * t(k));
        Distribute(c, w, x * t(k));
      }
    }
  }

  /** Multiplying every weight by c multiplies the weight used by c. */
  lemma {:induction false} ScaledUsedWeight(t: WeightTable, u: WeightTable, c: nat, keys: seq<MetricKey>, results: Results)
    requires forall k :: u(k) == c * t(k)
    ensures UsedWeight(u, keys, results) == c * UsedWeight(t, keys, results)
  {
    if |keys| > 0 {
      var front, k := keys[..|keys| - 1], keys[|keys| - 1];
      ScaledUsedWeight(t, u, c, front, results);
      if Present(results, k) {
        var w := UsedWeight(t, front, results);
        Distribute(c, w, t(k));
      }
    }
  }

  lemma Distribute(c: int, a: int, b: int)
    ensures c * (a + b) == c * a + c * b
  {
  }

  /** The normalisation by the weight used makes the total independent of the table's overall scale. */
  lemma ScaleInvariant(t: WeightTable, u: WeightTable, c: nat, keys: seq<MetricKey>, results: Results)
    requires c > 0 && forall k :: u(k) == c * t(k)
    ensures Normalized(u, keys, results) == Normalized(t, keys, results)
  {
    ScaledWeightedSum(t, u, c, keys, results);
    ScaledUsedWeight(t, u, c, keys, results);
    ScaledRatio(WeightedSum(t, keys, results), UsedWeight(t, keys, results), c);
  }

  lemma ScaledRatio(weighted: int, used: nat, c: nat)
    requires c > 0
    ensures Scaled(c * weighted, c * used) == Scaled(weighted, used)
  {
    if used > 0 {
      var w, u, r := weighted as real, used as real, c as real;
      assert ((c * weighted) as real) == r * w;
      assert ((c * used) as real) == r * u;
      assert (r * w) / (r * u) == w / u;
    }
  }

  /** A missing or unknown site type is weighed with the content table. */
  lemma UnknownTypeUsesContentTable(results: Results)
    requires WebsiteTypeOf(results) != Text("functional") && WebsiteTypeOf(results) != Text("ecommerce")
    ensures TotalScore(results) == Normalized(k => AppWeight(Content, k), AllMetrics, results)
  {
  }

  // ---------------------------------------------------------------------------
  // Status words

  datatype Status = Excellent | Good | Warning | Poor

  function StatusName(s: Status): string
  {
    match s
    case Excellent => "excellent"
    case Good => "good"
    case Warning => "warning"
    case Poor => "poor"
  }

  /** The position of a status word from worst to best. */
  function Rank(s: Status): nat
  {
    match s
    case Poor => 0
    case Warning => 1
    case Good => 2
    case Excellent => 3
  }

  /** `get_status_text`: excellent from 90, good from 75, warning from 60, poor below. */
  function StatusText(score: real): (r: Status)
    ensures r == Excellent <==> score >= 90.0
    ensures r == Good <==> 75.0 <= score < 90.0
    ensures r == Warning <==> 60.0 <= score < 75.0
    ensures r == Poor <==> score < 60.0
  {
    if score >= 90.0 then Excellent
    else if score >= 75.0 then Good
    else if score >= 60.0 then Warning
    else Poor
  }

  /** A higher score never gets a worse status word. */
  lemma StatusMonotone(a: real, b: real)
    requires a <= b
    ensures Rank(StatusText(a)) <= Rank(StatusText(b))
  {
  }

  // ---------------------------------------------------------------------------
  // Recommendations

  const DefaultRecommendation: seq<string> := ["请参考SEO最佳实践"]

  /** The four canned recommendations of each metric. */
  function Advice(k: MetricKey): (r: seq<string>)
    ensures |r| == 4
  {
    match k
    case PageSpeedKey => ["优化图片大小和格式", "压缩CSS和JavaScript文件", "启用浏览器缓存", "使用CDN加速"]
    case MobileOptimizationKey => ["添加viewport meta标签", "优化触摸目标大小", "使用响应式设计", "测试移动端体验"]
    case MetaTagsKey => ["优化标题长度(30-60字符)", "编写吸引人的描述(120-160字符)", "添加canonical标签", "避免重复标题"]
    case HeadingStructureKey => ["每页只使用一个H1标签", "合理使用H2、H3标签", "保持标题层级结构", "使用描述性标题文本"]
    case ImageOptimizationKey => ["为所有图片添加alt属性", "使用WebP格式图片", "压缩图片文件大小", "实现图片懒加载"]
    case InternalLinkingKey => ["修复所有断链", "优化外部链接数量", "增加内部链接", "简化链接层级结构"]
    case SslCertificateKey => ["确保使用HTTPS", "检查SSL证书有效期", "启用HSTS", "修复混合内容问题"]
    case SocialMediaTagsKey => ["添加Open Graph标签", "配置Twitter Cards", "设置社交媒体图片", "优化分享描述"]
    case ContentQualityKey => ["增加页面内容长度", "提高内容质量", "优化关键词密度", "增加内部链接"]
    case UrlStructureKey => ["缩短URL长度", "减少URL层级", "使用关键词", "避免特殊字符"]
    case RobotsTxtKey => ["创建robots.txt文件", "引用sitemap", "避免阻止重要资源", "正确配置爬虫规则"]
    case SitemapKey => ["创建sitemap.xml文件", "定期更新sitemap", "包含所有重要页面", "提交到搜索引擎"]
  }

  /**
   * `generate_recommendations`: the metric's four recommendations, or the
   * single default one for any other key. The score it is given plays no part.
   */
  function Recommendations(metric: string, score: int): (r: seq<string>)
    ensures |r| == 4 <==> KeyOf(metric).Some?
    ensures KeyOf(metric).None? ==> r == DefaultRecommendation
  {
    match KeyOf(metric)
    case Some(k) => Advice(k)
    case None => DefaultRecommendation
  }

  /** Each known metric gets its own four recommendations, whatever its score. */
  lemma KnownMetricAdvice(k: MetricKey, s1: int, s2: int)
    ensures Recommendations(Name(k), s1) == Advice(k) == Recommendations(Name(k), s2)
  {
    NameRoundTrip(k);
  }

  // ---------------------------------------------------------------------------
  // Formatting

  /** What a formatted metric carries as its specific data: the metric's dictionary, or the error marker. */
  datatype SpecificData = Data(value: Value) | InvalidDataFormat

  datatype Formatted = Formatted(
    score: int, status: Status, details: seq<string>, recommendations: seq<string>, specificData: SpecificData)

  datatype FormattedResult = FormattedResult(
    totalScore: real, status: Status, websiteType: Value, metrics: map<string, Formatted>)

  const AnalysisFailed: seq<string> := ["分析失败"]
  const CheckConfiguration: seq<string> := ["请检查网站配置"]

  /** The keys the formatting skips. */
  predicate Skipped(key: string)
  {
    key == "url" || key == "websiteType"
  }

  /** One metric's formatted entry: its score (0 when absent), status, issues (none when absent) and advice. */
  function FormatEntry(metric: string, v: Value): Formatted
  {
    match v
    case Dict(score, issues) =>
      var s := if score.Some? then score.value else 0;
      Formatted(s, StatusText(s as real), if issues.Some? then issues.value else [], Recommendations(metric, s), Data(v))
    case Text(_) =>
      Formatted(0, Poor, AnalysisFailed, CheckConfiguration, InvalidDataFormat)
  }

  /**
   * `format_seo_result`: fills the formatted metrics key by key. The order
   * in which the loop visits the keys does not matter for the dictionary it
   * builds.
   */
  method FormatSeoResult(results: Results, totalScore: real) returns (f: FormattedResult)
    ensures f.totalScore == totalScore && f.status == StatusText(totalScore)
    ensures f.websiteType == WebsiteTypeOf(results)
    ensures f.metrics.Keys == set key | key in results && !Skipped(key)
    ensures forall key :: key in f.metrics ==> f.metrics[key] == FormatEntry(key, results[key])
  {
    var formatted: map<string, Formatted> := map[];
    var todo := results.Keys;
    while todo != {}
      invariant todo <= results.Keys
      invariant formatted.Keys == set key | key in results.Keys - todo && !Skipped(key)
      invariant forall key :: key in formatted ==> formatted[key] == FormatEntry(key, results[key])
      decreases |todo|
    {
      var metric :| metric in todo;
      todo := todo - {metric};
      if metric == "url" || metric == "websiteType" {
        continue;
      }
      var data := results[metric];
      match data {
        case Dict(score, issues) =>
          var s := if score.Some? then score.value else 0;
          formatted := formatted[metric := Formatted(s, StatusText(s as real), if issues.Some? then issues.value else [],
                                                     Recommendations(metric, s), Data(data))];
        case Text(_) =>
          formatted := formatted[metric := Formatted(0, Poor, ["分析失败"], ["请检查网站配置"], InvalidDataFormat)];
      }
    }
    f := FormattedResult(totalScore, StatusText(totalScore), WebsiteTypeOf(results), formatted);
  }

  /** A metric's dictionary keeps its score and issues and gets the status word of its score. */
  lemma FormattedDict(metric: string, v: Value)
    requires v.Dict?
    ensures FormatEntry(metric, v).status == StatusText(FormatEntry(metric, v).score as real)
    ensures v.score.Some? ==> FormatEntry(metric, v).score == v.score.value
    ensures v.score.None? ==> FormatEntry(metric, v).score == 0 && FormatEntry(metric, v).status == Poor
    ensures FormatEntry(metric, v).details == (if v.issues.Some? then v.issues.value else [])
    ensures |FormatEntry(metric, v).recommendations| == 4 <==> KeyOf(metric).Some?
  {
  }

  /** Anything but a dictionary is reported as a failed analysis with score 0. */
  lemma FormattedOther(metric: string, v: Value)
    requires v.Text?
    ensures FormatEntry(metric, v).score == 0 && FormatEntry(metric, v).status == Poor
    ensures FormatEntry(metric, v).details == AnalysisFailed
    ensures FormatEntry(metric, v).specificData == InvalidDataFormat
  {
  }

  // ---------------------------------------------------------------------------
  // A failed analysis as the Flask side sees it

  /** An evaluator's dictionary as an entry of the results: its score, and its issues rendered by `message`. */
  function ValueOf(r: Metrics.MetricResult, message: Metrics.Issue -> string): (v: Value)
    ensures v.Dict? && v.score == Some(r.score)
    ensures v.issues.Some? <==> r.issues.Some?
    ensures r.issues.Some? ==> |v.issues.value| == |r.issues.value|
                               && forall i :: 0 <= i < |r.issues.value| ==> v.issues.value[i] == message(r.issues.value[i])
  {
    Dict(Some(r.score), if r.issues.Some? then Some(seq(|r.issues.value|, i requires 0 <= i < |r.issues.value| => message(r.issues.value[i]))) else None)
  }

  /** The names of distinct keys differ. */
  lemma NamesDiffer(a: MetricKey, b: MetricKey)
    requires a != b
    ensures Name(a) != Name(b)
  {
    NameRoundTrip(a);
    NameRoundTrip(b);
  }

  /** Dropping another metric's entry leaves a metric's presence and score as they were. */
  lemma PresentAfterRemoval(results: Results, j: MetricKey, name: string)
    requires Name(j) != name
    ensures Present(results - {name}, j) == Present(results, j)
    ensures Present(results, j) ==> ScoreOf(results - {name}, j) == ScoreOf(results, j)
  {
  }

  /** Dropping an entry that none of the listed metrics is named by leaves both sums unchanged. */
  lemma {:induction false} SumsIgnoreOtherEntry(t: WeightTable, keys: seq<MetricKey>, results: Results, name: string)
    requires forall i :: 0 <= i < |keys| ==> Name(keys[i]) != name
    ensures WeightedSum(t, keys, results) == WeightedSum(t, keys, results - {name})
    ensures UsedWeight(t, keys, results) == UsedWeight(t, keys, results - {name})
  {
    if |keys| > 0 {
      var front := keys[..|keys| - 1];
      assert forall i :: 0 <= i < |front| ==> front[i] == keys[i];
      SumsIgnoreOtherEntry(t, front, results, name);
      PresentAfterRemoval(results, keys[|keys| - 1], name);
    }
  }

  /** The metric's own entry is absent once dropped, and no other listed metric is named like it. */
  lemma OthersNamedOtherwise(keys: seq<MetricKey>, k: MetricKey)
    requires k !in keys
    ensures forall i :: 0 <= i < |keys| ==> Name(keys[i]) != Name(k)
  {
    forall i | 0 <= i < |keys|
      ensures Name(keys[i]) != Name(k)
    {
      NamesDiffer(keys[i], k);
    }
  }

  /**
   * A metric whose dictionary has score 0 still takes part in the total with
   * its full weight: compared with leaving it out, the weighted sum is the
   * same and the weight used grows by the metric's weight.
   */
  lemma {:induction false} ZeroScoreCountsFullWeight(t: WeightTable, keys: seq<MetricKey>, results: Results, k: MetricKey)
    requires Name(k) in results && results[Name(k)].Dict? && results[Name(k)].score == Some(0)
    requires k in keys && forall i, j :: 0 <= i < j < |keys| ==> keys[i] != keys[j]
    ensures WeightedSum(t, keys, results) == WeightedSum(t, keys, results - {Name(k)})
    ensures UsedWeight(t, keys, results) == UsedWeight(t, keys, results - {Name(k)}) + t(k)
  {
    var front, last := keys[..|keys| - 1], keys[|keys| - 1];
    assert forall i :: 0 <= i < |front| ==> front[i] == keys[i];
    assert keys == front + [last];
    if last == k {
      assert k !in front;
      OthersNamedOtherwise(front, k);
      SumsIgnoreOtherEntry(t, front, results, Name(k));
      assert !Present(results - {Name(k)}, k);
    } else {
      assert k in front;
      ZeroScoreCountsFullWeight(t, front, results, k);
      NamesDiffer(last, k);
      PresentAfterRemoval(results, last, Name(k));
    }
  }

  /**
   * The fallback dictionary of an evaluator that raised, `{'score': 0,
   * 'error': ...}`, is scored as 0 with its metric's full weight, and is
   * formatted with score 0, status `poor` and no details.
   */
  lemma FailedMetric(results: Results, k: MetricKey, error: string, message: Metrics.Issue -> string)
    requires Name(k) in results && results[Name(k)] == ValueOf(Metrics.ErrorResult(error), message)
    ensures Present(results, k) && ScoreOf(results, k) == 0
    ensures var t: WeightTable := j => AppWeight(TableFor(WebsiteTypeOf(results)), j);
            WeightedSum(t, AllMetrics, results) == WeightedSum(t, AllMetrics, results - {Name(k)})
            && UsedWeight(t, AllMetrics, results) == UsedWeight(t, AllMetrics, results - {Name(k)}) + t(k)
    ensures var f := FormatEntry(Name(k), results[Name(k)]);
            f.score == 0 && f.status == Poor && f.details == [] && f.recommendations == Advice(k)
  {
    AllMetricsOnce(k);
    ZeroScoreCountsFullWeight(j => AppWeight(TableFor(WebsiteTypeOf(results)), j), AllMetrics, results, k);
    KnownMetricAdvice(k, 0, 0);
  }
}
