/**
 * `_analyze_ssl_certificate`, `_check_hsts_header` and
 * `_check_mixed_content` (backend/seo_analyzer.py). The network work is an
 * input: the page URL's scheme, whether the HEAD response carried a
 * non-empty Strict-Transport-Security header (false when the request
 * raised), the `src`/`href` of the page's images, scripts, links and
 * iframes that have one, and the outcome of the TLS handshake: the days
 * until the certificate expires, or the text of the exception raised.
 */
module Ssl {
  import opened Options
  import opened Text
  import opened Classifier
  import opened Metrics

  datatype CertCheck = CertValid(daysToExpire: int) | CertFailed(reason: string)

  /** The resource references `_check_mixed_content` scans, one list per tag kind. */
  datatype References = References(images: seq<string>, scripts: seq<string>, links: seq<string>, iframes: seq<string>)

  datatype SslPage = SslPage(scheme: string, hasHsts: bool, refs: References, cert: CertCheck)

  /** The references that load over plain `http://`, with the letter case as written. */
  function Insecure(refs: seq<string>): (r: nat)
    ensures r <= |refs|
  {
    if |refs| == 0 then 0 else Insecure(refs[..|refs| - 1]) + (if StartsWith(refs[|refs| - 1], "http://") then 1 else 0)
  }

  /** The mixed-content count: insecure references on an https page, 0 on any other. */
  function MixedContentOf(scheme: string, refs: References): nat
  {
    if scheme != "https" then 0
    else Insecure(refs.images) + Insecure(refs.scripts) + Insecure(refs.links) + Insecure(refs.iframes)
  }

  /** One of the four loops of the mixed-content check. */
  method CountInsecure(refs: seq<string>) returns (n: nat)
    ensures n == Insecure(refs)
  {
    n := 0;
    for i := 0 to |refs|
      invariant n == Insecure(refs[..i])
    {
      assert refs[..i + 1][..i] == refs[..i];
      if StartsWith(refs[i], "http://") {
        n := n + 1;
      }
    }
    assert refs[..|refs|] == refs;
  }

  /** `_check_mixed_content`: nothing to check off https, else the four loops. */
  method CheckMixedContent(scheme: string, refs: References) returns (mixed: nat)
    ensures mixed == MixedContentOf(scheme, refs)
  {
    if scheme != "https" {
      return 0;
    }
    mixed := 0;
    var n := CountInsecure(refs.images);
    mixed := mixed + n;
    n := CountInsecure(refs.scripts);
    mixed := mixed + n;
    n := CountInsecure(refs.links);
    mixed := mixed + n;
    n := CountInsecure(refs.iframes);
    mixed := mixed + n;
  }

  /** The certificate rules: an expiry within 30 days, or a handshake that failed. */
  function CertFindings(cert: CertCheck): seq<Issue>
  {
    match cert
    case CertValid(days) => When(days < 30, SslCertificate(CertificateExpiring(days)))
    case CertFailed(reason) => [SslCertificate(CertificateCheckFailed(reason))]
  }

  /**
   * The SSL rules: a page off https reports that alone; otherwise a missing
   * HSTS header, mixed content, and the certificate rules, in that order.
   */
  function SslFindings(page: SslPage): seq<Issue>
  {
    if page.scheme != "https" then [SslCertificate(NoHttps)]
    else
      var mixed := MixedContentOf(page.scheme, page.refs);
      When(!page.hasHsts, SslCertificate(NoHsts))
      + When(mixed > 0, SslCertificate(MixedContent(mixed)))
      + CertFindings(page.cert)
  }

  function SslDataOf(page: SslPage): MetricData
  {
    var https := page.scheme == "https";
    SslData(https,
            if https && page.cert.CertValid? then page.cert.daysToExpire else 0,
            https && page.hasHsts,
            MixedContentOf(page.scheme, page.refs))
  }

  /** The header and mixed-content checks: 10 points without HSTS, 10 a mixed resource up to 30. */
  method CheckHeaders(page: SslPage, wt: WebsiteType, score: int, issues: seq<Issue>)
    returns (mixed: nat, score': int, issues': seq<Issue>)
    requires page.scheme == "https"
    requires score == 100 - TotalDeduction(issues, wt)
    ensures score' == 100 - TotalDeduction(issues', wt)
    ensures mixed == MixedContentOf(page.scheme, page.refs)
    ensures issues' == issues + When(!page.hasHsts, SslCertificate(NoHsts))
                              + When(mixed > 0, SslCertificate(MixedContent(mixed)))
  {
    score', issues' := score, issues;
    if !page.hasHsts {
      TotalDeductionAppend(issues', SslCertificate(NoHsts), wt);
      score', issues' := score' - 10, issues' + [SslCertificate(NoHsts)];
    }
    mixed := CheckMixedContent(page.scheme, page.refs);
    if mixed > 0 {
      TotalDeductionAppend(issues', SslCertificate(MixedContent(mixed)), wt);
      score', issues' := score' - Min(30, mixed * 10), issues' + [SslCertificate(MixedContent(mixed))];
    }
  }

  /** The certificate check: 20 points for an expiry within 30 days, 20 for a handshake that raised. */
  method CheckCertificate(cert: CertCheck, wt: WebsiteType, score: int, issues: seq<Issue>)
    returns (days: int, score': int, issues': seq<Issue>)
    requires score == 100 - TotalDeduction(issues, wt)
    ensures score' == 100 - TotalDeduction(issues', wt)
    ensures days == if cert.CertValid? then cert.daysToExpire else 0
    ensures issues' == issues + CertFindings(cert)
  {
    score', issues' := score, issues;
    days := 0;
    match cert {
      case CertValid(d) =>
        days := d;
        if days < 30 {
          TotalDeductionAppend(issues', SslCertificate(CertificateExpiring(days)), wt);
          score', issues' := score' - 20, issues' + [SslCertificate(CertificateExpiring(days))];
        }
      case CertFailed(reason) =>
        TotalDeductionAppend(issues', SslCertificate(CertificateCheckFailed(reason)), wt);
        score', issues' := score' - 20, issues' + [SslCertificate(CertificateCheckFailed(reason))];
    }
  }

  /** The SSL metric: 0 off https; otherwise the header, content and certificate checks from 100, clamped at 0. */
  method AnalyzeSslCertificate(page: SslPage, wt: WebsiteType) returns (r: MetricResult)
    ensures r.issues == Some(SslFindings(page))
    ensures Scored(r, wt)
    ensures r.data == SslDataOf(page)
  {
    var hasSsl := page.scheme == "https";
    var score := 100;
    var issues: seq<Issue> := [];
    if !hasSsl {
      TotalDeductionAppend([], SslCertificate(NoHttps), wt);
      score := 0;
      issues := issues + [SslCertificate(NoHttps)];
      assert issues == SslFindings(page);
      r := MetricResult(Clamp(score), Some(issues), SslData(false, 0, false, 0));
    } else {
      var mixed;
      mixed, score, issues := CheckHeaders(page, wt, score, issues);
      assert issues == When(!page.hasHsts, SslCertificate(NoHsts)) + When(mixed > 0, SslCertificate(MixedContent(mixed)));
      var days;
      days, score, issues := CheckCertificate(page.cert, wt, score, issues);
      assert issues == SslFindings(page);
      r := MetricResult(Clamp(score), Some(issues), SslData(true, days, page.hasHsts, mixed));
    }
  }

  /** A page off https scores exactly 0 and reports only that. */
  lemma NoHttpsScoresZero(page: SslPage, wt: WebsiteType)
    requires page.scheme != "https"
    ensures SslFindings(page) == [SslCertificate(NoHttps)]
    ensures Clamp(100 - TotalDeduction(SslFindings(page), wt)) == 0
  {
    TotalDeductionAppend([], SslCertificate(NoHttps), wt);
    assert [] + [SslCertificate(NoHttps)] == SslFindings(page);
  }

  /** An https page loses at most 10 + 30 + 20 points, so it scores at least 40. */
  lemma HttpsScoreFloor(page: SslPage, wt: WebsiteType)
    requires page.scheme == "https"
    ensures TotalDeduction(SslFindings(page), wt) <= 60
  {
    var mixed := MixedContentOf(page.scheme, page.refs);
    var h := When(!page.hasHsts, SslCertificate(NoHsts));
    var m := When(mixed > 0, SslCertificate(MixedContent(mixed)));
    TotalDeductionWhen([], !page.hasHsts, SslCertificate(NoHsts), wt);
    assert [] + h == h;
    TotalDeductionWhen(h, mixed > 0, SslCertificate(MixedContent(mixed)), wt);
    CertCostAtMost(page.cert, wt);
    TotalDeductionConcat(h + m, CertFindings(page.cert), wt);
  }

  lemma CertCostAtMost(cert: CertCheck, wt: WebsiteType)
    ensures TotalDeduction(CertFindings(cert), wt) <= 20
  {
    match cert
    case CertValid(days) =>
      TotalDeductionWhen([], days < 30, SslCertificate(CertificateExpiring(days)), wt);
      assert [] + CertFindings(cert) == CertFindings(cert);
    case CertFailed(reason) =>
      TotalDeductionAppend([], SslCertificate(CertificateCheckFailed(reason)), wt);
      assert [] + CertFindings(cert) == CertFindings(cert);
  }

  /** A page off https has no mixed content by definition, whatever it references. */
  lemma MixedContentOnlyOnHttps(scheme: string, refs: References)
    ensures scheme != "https" ==> MixedContentOf(scheme, refs) == 0
    ensures MixedContentOf(scheme, refs) <= |refs.images| + |refs.scripts| + |refs.links| + |refs.iframes|
  {
  }

  /** An https page with HSTS, no insecure reference and a certificate valid for 30 days or more scores 100. */
  lemma SecurePageIsPerfect(page: SslPage)
    requires page.scheme == "https" && page.hasHsts && MixedContentOf(page.scheme, page.refs) == 0
    requires page.cert.CertValid? && page.cert.daysToExpire >= 30
    ensures SslFindings(page) == []
  {
  }
}
