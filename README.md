# SEO analyser scoring core, in Dafny

This project models the decision logic of a website SEO analyser. The analyser
is a Python service: `backend/seo_analyzer.py` holds the analyser class and
`backend/app.py` the Flask application around it. Given a URL, the analyser does
four things:

- it normalises the URL;
- it classifies the site as `content`, `functional` or `ecommerce`;
- it can crawl the site breadth-first, with a page budget and a depth limit of 3;
- it scores twelve metrics, from page speed to the sitemap.

Each metric evaluator starts at 100, subtracts a fixed penalty for every rule
that fires, and clamps the result at 0. The Flask side then does the rest:

- it combines the twelve scores into a weighted total, scaled by 1.2 so that a
  perfect site scores 120;
- it attaches a status and canned recommendations to every metric;
- it forwards progress messages to the browser until the first terminal message.

Fetching and HTML parsing are outside the model. Every measured quantity is an
input value: a status code, a header flag, a list of image tags, or a link graph
for the crawler.

## Layout

| file | module | models |
|---|---|---|
| `text.dfy` | `Options`, `Text` | ASCII lower-casing, `str.strip`, `in`, `str.count`, `re.split` on a character class |
| `urls.dfy` | `Urls` | `_normalize_url` as the code has it, a corrected variant, `_extract_keywords_from_url` and path depth |
| `classifier.dfy` | `Classifier` | `detect_website_type` |
| `counting.dfy` | `Counting` | `sum(1 for ...)` and `collections.Counter` duplicate counting |
| `crawler.dfy` | `Crawler`, `CrawlWebsite` | `crawl_website` over a supplied link graph: the page records and the loop's invariant in `Crawler`, the crawl loop itself in `CrawlWebsite` |
| `metrics.dfy` | `Metrics` | the issue vocabulary, the penalty of every rule, and the result record shared by the evaluators |
| `pagespeed.dfy`, `mobile.dfy`, `meta.dfy`, `headings.dfy`, `images.dfy`, `linking.dfy`, `ssl.dfy`, `social.dfy`, `content.dfy`, `urlstructure.dfy`, `robots.dfy`, `sitemap.dfy` | one module each | the twelve `_analyze_*` evaluators |
| `weights.dfy` | `Weights` | metric keys, weight tables, and the analyser's own `website_type_weights` |
| `app.dfy` | `App` | `calculate_total_score`, `get_status_text`, `generate_recommendations` and `format_seo_result` |
| `stream.dfy` | `Stream` | the terminal-message loop of `generate()` |

Each evaluator follows the same shape:

- The pure function `XFindings` lists the issues that the rules raise, in the
  order the code appends them.
- `TotalDeduction` adds up their penalties.
- The imperative evaluator `AnalyzeX` decrements a local `score` and appends to
  an `issues` list, one source section per small method.
- It is proved to return `Clamp(100 - TotalDeduction(XFindings(...)))` together
  with exactly those issues. The predicate `Scored` expresses this.
- Lemmas about `XFindings` state each rule as an if-and-only-if, and state the
  floor of each score.

Two facts of the code that the model keeps as they are:

- The `ecommerce` weight table in backend/app.py:202-216 sums to 110, while the other two sum to 100 (`App.AppTablesSum`).
- An evaluator that raises returns `{'score': 0, 'error': ...}` (`Metrics.ErrorResult`, `App.FailedMetric`).

## Model

| member | source | states |
|---|---|---|
| Urls.NormalizeUrl | backend/seo_analyzer.py:112-141 | the result always starts with lower-case `http://` or `https://` |
| Urls.NormalizeKeepsHttpsUrl | backend/seo_analyzer.py:133-137 | a stripped URL that starts with `https://` and has no other protocol occurrence is returned unchanged |
| Urls.NormalizeCollapsesRepeatedProtocols | backend/seo_analyzer.py:122-130 | with more than one protocol occurrence, the result is `https://` followed by the stripped input with all occurrences removed |
| Urls.NormalizeAddsHttps | backend/seo_analyzer.py:133-134 | a URL without any protocol gets `https://` in front |
| Urls.RemoveProtocolsLength | backend/seo_analyzer.py:128 | removing the protocols shortens the text by 7 per `http://` and 8 per `https://`, counted case-insensitively |
| Urls.RemoveWithoutProtocols | backend/seo_analyzer.py:128 | text without a protocol occurrence is left unchanged |
| Urls.NormalizeIdempotent | backend/seo_analyzer.py:112-141 | normalising twice equals normalising once, whenever the input has at most one protocol and that one is leading |
| Urls.NormalizeNotIdempotent | backend/seo_analyzer.py:122-130 | for `a?u=http://b`, the second normalisation gives `https://a?u=b` instead of repeating the first result |
| Urls.EmbeddedProtocolDeleted | backend/seo_analyzer.py:122-130 | normalising `https://a?u=http://b` deletes the protocol embedded in the query |
| Urls.NormalizeUrlCorrected | backend/seo_analyzer.py:112-141 | the corrected variant starts with a lower-case scheme, ends with the input minus its leading protocols, and adds 7 or 8 characters to it |
| Urls.CorrectedAgreesWhenSingleProtocol | backend/seo_analyzer.py:132-139 | with at most one protocol occurrence, the corrected variant equals the code's function |
| Urls.CorrectedShape | backend/seo_analyzer.py:122-139 | the corrected result is exactly one lower-case scheme followed by the input with its leading protocols dropped |
| Urls.CorrectedIdempotent | backend/seo_analyzer.py:112-141 | the corrected variant is idempotent on every input |
| Urls.CorrectedKeepsEmbeddedUrl | backend/seo_analyzer.py:122-130 | the corrected variant leaves `https://a?u=http://b` unchanged |
| Urls.StripPageExtension | backend/seo_analyzer.py:1072 | the result is a prefix of the path, shorter by 0, 4 or 5 characters (the extensions `.htm`, `.php`, `.asp`, `.jsp`, `.html`) |
| Urls.ExtractKeywordsFromPath | backend/seo_analyzer.py:1065-1077 | every extracted keyword is longer than two characters |
| Urls.KeywordsOfPath | backend/seo_analyzer.py:1065-1077 | a word is extracted iff it is the lower-cased form of a piece of the extension-free path, split on `/`, `-` and `_`, that is longer than two characters and not all digits |
| Urls.PathDepthBounds | backend/seo_analyzer.py:1383 | the URL depth is at most the number of `/` plus one, and is 0 iff the path holds nothing but `/` |
| Text.SplitOnRoundTrip | backend/seo_analyzer.py:1074 | splitting on a character class yields one more piece than there are delimiters, and joining the pieces gives the text without its delimiters |
| Text.ContainsIffOccurs | backend/seo_analyzer.py:86 | the substring test holds iff the pattern occurs at some position |
| Text.CountOf | backend/seo_analyzer.py:122-123 | `str.count` counts non-overlapping occurrences, so count times pattern length is at most the text length |
| Classifier.DetectWebsiteType | backend/seo_analyzer.py:77-110 | `functional` iff a functional keyword is present or, with no keyword at all, the text is shorter than 200; `ecommerce` iff a shop keyword is present and no functional one; `content` otherwise |
| Classifier.TypeName | backend/seo_analyzer.py:77-110 | the type is always one of `content`, `functional` or `ecommerce` |
| Classifier.TypeNamesDistinct | backend/seo_analyzer.py:77-110 | the three type names are distinct |
| Classifier.KeywordsOverrideLength | backend/seo_analyzer.py:84-98 | once any keyword fires, the text length does not matter |
| Classifier.UntitledPageByLength | backend/seo_analyzer.py:100-107 | an untitled page on a neutral domain is `functional` below 200 characters and `content` otherwise |
| Classifier.CaseInsensitive | backend/seo_analyzer.py:80-81 | the classification ignores the case of the domain and the title |
| Counting.DuplicateCountIsDuplicated | backend/seo_analyzer.py:1271-1272 | the Counter scan counts exactly the values that occur more than once |
| Counting.DuplicateCountAtMostHalf | backend/seo_analyzer.py:1271-1272 | at most half the entries of a list can be duplicated values |
| Counting.CountBounds | backend/seo_analyzer.py:1271-1272 | a conditional count is at most the list length, and 0 when no element qualifies |
| CrawlWebsite.Crawl | backend/seo_analyzer.py:143-234 | with the start URL normalised by the code's `_normalize_url`: at most `max_pages` URLs are visited; pages are recorded only for visited URLs, each URL at most once, at depth at most 3, in non-decreasing depth; every page is a faithful record of a fetched page whose links all resolved; a visited URL is recorded whenever its page was fetched and scanned completely; only the start and collected links are visited, and only the start sits at depth 0; `all_internal_links` holds every page's internal links, and equals their union when no link scan raised; `total_pages` is the page count; when the budget was not used up, every internal link of a page above depth 3 was visited; the start page, when it scans completely, is the first record |
| CrawlWebsite.CrawlCorrected | backend/seo_analyzer.py:143-234 | the same guarantees as `Crawl`, with the start URL normalised by the corrected normaliser |
| CrawlWebsite.CrawlFrom | backend/seo_analyzer.py:160-234 | the frontier loop keeps the visited set, the FIFO queue, the page list and the collected links consistent, every owed link visited or queued, and ends with the same guarantees as `Crawl` |
| CrawlWebsite.Visit | backend/seo_analyzer.py:171-224 | one iteration: a visited or too deep front entry is dropped; otherwise it is marked visited, its links are scanned until one fails to resolve, and it is recorded only when none failed |
| CrawlWebsite.StepKeepsFrontier | backend/seo_analyzer.py:170-224 | every iteration keeps the loop's invariant, keeps the pages so far, adds at most one page per newly visited URL, and either visits a new URL or shortens the queue |
| Crawler.ScanLinks | backend/seo_analyzer.py:193-208 | the scan succeeds iff every link resolves; up to the first link that does not, it collects exactly the same-host clean links and enqueues those not yet visited at depth plus one, only below depth 3 |
| Crawler.ScannedCount | backend/seo_analyzer.py:194-197 | the links handled before the scan stops all resolve, and the scan stops only at a link that does not |
| Crawler.SameHostLinksMembers | backend/seo_analyzer.py:194-203 | a URL is a page's internal link iff some resolved link of that page has the start host and that clean URL |
| Crawler.EnqueuedCovers | backend/seo_analyzer.py:204-208 | below depth 3, every same-host link of a scanned page is already visited or enqueued by the scan |
| Crawler.CrawlHasNoOrphans | backend/seo_analyzer.py:860-867 | on the output of a crawl in which no link scan raised, no page below the start is unlinked, so the orphan count is 0 |
| Crawler.DeepPagesAreLastLevel | backend/seo_analyzer.py:870 | when no page is deeper than 3, the pages at depth 3 or more are exactly the pages at depth 3 |
| Crawler.CrawlDeepPages | backend/seo_analyzer.py:858-870 | on crawl output, the deep-page count equals the number of pages at depth 3 |
| Metrics.CappedDeductions | backend/seo_analyzer.py:604 | duplicate titles cost `min(20, 5n)`, pages without headings `min(15, 3n)`, orphan pages `min(15, 5n)`, and mixed content `min(30, 10n)` |
| Metrics.TotalDeductionConcat | backend/seo_analyzer.py:545-608 | penalties add up across consecutive groups of rules |
| Metrics.Clamp | backend/seo_analyzer.py:456 | the result is `max(0, score)`: it is 0 or the score and at least the score, and it never exceeds 100 when the score does not |
| Metrics.ErrorResult | backend/seo_analyzer.py:469-471 | an evaluator that fails returns score 0, no issues, and the error text |
| App.ValueOf | backend/app.py:224-256 | an evaluator's dictionary enters the results with its score, and its issues, when it has them, one message per issue |
| App.ZeroScoreCountsFullWeight | backend/app.py:224-228 | a metric dictionary with score 0 leaves the weighted sum as it would be without the metric, and adds the metric's full weight to the weight used |
| App.FailedMetric | backend/app.py:224-256 | an evaluator's error fallback is present in the total with score 0 and its full weight, and is formatted with score 0, status `poor`, no details and the metric's own advice |
| Metrics.ScoredBounds | backend/seo_analyzer.py:439-456 | a scored metric lies in [0, 100], and when every listed issue costs something it is 100 iff there are no issues |
| PageSpeed.AnalyzePageSpeed | backend/seo_analyzer.py:352-471 | the score is the threshold score of the measured page and image, CSS and JS sizes, with no issue list, and the returned data are those measures |
| PageSpeed.MeasureImages | backend/seo_analyzer.py:364-391 | the image loop adds every size answered with status 200, 30 kB per failed probe, and counts images over 100 kB |
| PageSpeed.MeasureAssets | backend/seo_analyzer.py:392-437 | the stylesheet and script loops add every answered size and the 50 kB or 100 kB estimate per failed probe |
| PageSpeed.SpeedScoreRange | backend/seo_analyzer.py:439-456 | the page-speed score lies in [30, 100], so the clamp never applies |
| PageSpeed.FullSpeedScore | backend/seo_analyzer.py:439-454 | the score is 100 iff the page is at most 1000 kB, at most 2 images are large, and CSS and JS are at most 500 kB each |
| PageSpeed.SpeedScoreMonotone | backend/seo_analyzer.py:439-454 | larger sizes or more large images never raise the score |
| PageSpeed.SizeThresholdsInBytes | backend/seo_analyzer.py:356-357 | the size penalty is 30 above 2048000 bytes, 15 above 1024000 bytes, and 0 otherwise |
| PageSpeed.TotalSizeBounds | backend/seo_analyzer.py:364-437 | a summed size is at least the estimate times the number of failed probes |
| PageSpeed.AllFailedSize | backend/seo_analyzer.py:383-391 | when every probe fails, the size is the estimate times the number of probes |
| PageSpeed.LargeImagesAreAnswered | backend/seo_analyzer.py:377-386 | the image size is at least 100 kB per large image |
| Mobile.CountSmallTouchTargets | backend/seo_analyzer.py:489-496 | counts the controls whose style mentions neither width nor height |
| Mobile.AnalyzeMobileOptimization | backend/seo_analyzer.py:473-540 | the result carries exactly the mobile findings, scored and clamped, and the viewport, touch-target, font and menu data |
| Mobile.MobileFindingsMembers | backend/seo_analyzer.py:484-520 | the viewport issue appears iff there is no viewport; the touch-target issue iff the small controls exceed the type's limit |
| Mobile.FunctionalMobileIsLenient | backend/seo_analyzer.py:484-520 | a functional site never loses more than a content site on the same page |
| Mobile.SizedControlsAreNotSmall | backend/seo_analyzer.py:493-496 | when every control sets a width, only the viewport rule can fire |
| Meta.AnalyzeMetaTags | backend/seo_analyzer.py:542-621 | the result carries exactly the meta findings, scored and clamped, with the title, description and duplicate data |
| Meta.MetaFindingsParts | backend/seo_analyzer.py:553-605 | each title, description, canonical and duplicate-title issue appears iff its type-dependent length or count rule fires |
| Meta.LengthRulesExclusive | backend/seo_analyzer.py:553-586 | a title or description is never reported both too short and too long, and a functional site's description is never too short |
| Meta.DuplicateTitlesMeaning | backend/seo_analyzer.py:600-602 | the duplicate-title count is the number of non-empty titles that occur more than once, at most half the pages |
| Meta.DistinctTitlesNoDuplicates | backend/seo_analyzer.py:600-603 | pairwise distinct titles give no duplicate-title issue |
| Meta.MetaScoreFloor | backend/seo_analyzer.py:545-608 | the meta rules never cost more than 65 |
| Headings.CheckHeadingHierarchy | backend/seo_analyzer.py:623-652 | the skip count equals the number of gaps between present heading levels |
| Headings.GatherLevels | backend/seo_analyzer.py:628-636 | the gathered levels are the counts listed level by level from 1 to 6 |
| Headings.GatheredShape | backend/seo_analyzer.py:628-636 | the gathered levels lie in 1..6, are non-decreasing, and are empty iff no heading is present |
| Headings.CountSkips | backend/seo_analyzer.py:640-647 | the loop counts the adjacent pairs that rise by more than one |
| Headings.SkipsAreGaps | backend/seo_analyzer.py:628-647 | the skips over the gathered list equal the gaps between present levels |
| Headings.GapFreeHasNoSkips | backend/seo_analyzer.py:628-647 | a gap-free set of levels gives 0 skips |
| Headings.SkipsAtMostPairs | backend/seo_analyzer.py:640-647 | the skip count is at most the number of adjacent pairs |
| Headings.AnalyzeHeadingStructure | backend/seo_analyzer.py:654-731 | the result carries exactly the heading findings, scored and clamped, with the counts, skips and pages without headings |
| Headings.HeadingFindingsMembers | backend/seo_analyzer.py:670-713 | each heading issue appears iff its type-dependent rule fires |
| Headings.HeadingFindingsCostly | backend/seo_analyzer.py:670-713 | every heading issue costs something, so the score is 100 iff there is no issue |
| Images.CountImages | backend/seo_analyzer.py:746-763 | the loop counts missing alt texts, WebP files, large names and lazy images |
| Images.CountsAtMostTotal | backend/seo_analyzer.py:746-763 | no count exceeds the number of images |
| Images.AnalyzeImageOptimization | backend/seo_analyzer.py:733-805 | the result carries exactly the image findings, scored and clamped, with the counts |
| Images.ImageFindingsParts | backend/seo_analyzer.py:766-791 | each image issue appears iff its type-dependent threshold is crossed |
| Images.NoImagesScorePerfect | backend/seo_analyzer.py:766-791 | a page without images raises no issue |
| Images.FunctionalImagesAreLenient | backend/seo_analyzer.py:766-791 | a functional site never loses more than a content site on the same counts |
| Linking.PartitionLinks | backend/seo_analyzer.py:823-835 | each anchor with an href goes to the internal list iff its host is the page's domain, and to the external list otherwise |
| Linking.PartitionIsComplete | backend/seo_analyzer.py:823-835 | internal and external links together are exactly the anchors with an href |
| Linking.CountBroken | backend/seo_analyzer.py:837-844 | only the first 5 internal links are probed, and each failing or `>= 400` probe counts as broken |
| Linking.BrokenAtMostFive | backend/seo_analyzer.py:837-847 | at most 5 links are broken, so that rule costs at most 50 |
| Linking.LaterLinksNotProbed | backend/seo_analyzer.py:838 | the answer for a link beyond the first five never changes the broken count |
| Linking.CountOrphans | backend/seo_analyzer.py:858-867 | the loop unions every page's internal links and counts the pages below the start that are not in the union |
| Linking.AnalyzeInternalLinking | backend/seo_analyzer.py:807-893 | the result carries exactly the linking findings, scored and clamped, with the link counts |
| Linking.LinkingFindingsParts | backend/seo_analyzer.py:846-877 | each linking issue appears iff its count rule fires |
| Linking.CrawledSiteHasNoOrphanIssue | backend/seo_analyzer.py:858-873 | on a site crawled without a failing link scan, the orphan-page issue never appears |
| Linking.LinkingScoreFloor | backend/seo_analyzer.py:846-877 | the linking rules never cost more than 85 |
| Ssl.CheckMixedContent | backend/seo_analyzer.py:905-942 | mixed content is 0 off HTTPS, and otherwise the number of `http://` image, script, link and iframe references |
| Ssl.MixedContentOnlyOnHttps | backend/seo_analyzer.py:905-942 | mixed content is 0 on a non-HTTPS page and at most the number of references |
| Ssl.AnalyzeSslCertificate | backend/seo_analyzer.py:944-1005 | the result carries exactly the SSL findings, scored and clamped, with the HTTPS, HSTS, mixed-content and expiry data |
| Ssl.NoHttpsScoresZero | backend/seo_analyzer.py:959-961 | a non-HTTPS page has the single no-HTTPS issue and scores 0 |
| Ssl.HttpsScoreFloor | backend/seo_analyzer.py:963-992 | on HTTPS the SSL rules never cost more than 60 |
| Ssl.SecurePageIsPerfect | backend/seo_analyzer.py:963-992 | HTTPS with HSTS, no mixed content and a certificate valid for 30 more days raises no issue |
| Social.AnalyzeSocialMediaTags | backend/seo_analyzer.py:1007-1063 | the result carries exactly the social findings, scored and clamped, with the tag flags |
| Social.FunctionalSocialIsPerfect | backend/seo_analyzer.py:1030-1033 | a functional site raises no social issue and scores 100 |
| Social.SocialFindingsMembers | backend/seo_analyzer.py:1035-1050 | for other sites, each social issue appears iff its tag is missing |
| Social.SocialScore | backend/seo_analyzer.py:1035-1050 | the social score is 100 minus 20, 15, 10 and 10 for each missing tag, hence at least 45 |
| Content.WordCountBounds | backend/seo_analyzer.py:1230 | the word count is 0 iff the text is all whitespace, and at most half the text length, rounded up |
| Content.ReadabilityRange | backend/seo_analyzer.py:1263-1268 | readability lies in [0, 100], and is 100 iff the average sentence length is in [10, 30] |
| Content.PoorReadabilityMeansLongSentences | backend/seo_analyzer.py:1263-1268 | readability falls below 60 iff sentences average more than 50 words |
| Content.AnalyzeKeywordDensity | backend/seo_analyzer.py:1136-1182 | the loop returns the mean density over the first ten keywords that occur |
| Content.DensityZeroIff | backend/seo_analyzer.py:1136-1182 | the average density is never negative, and is 0 iff none of the first ten keywords occurs |
| Content.DuplicateContentNeedsSentences | backend/seo_analyzer.py:1258-1272 | at most half the sentences can be duplicated |
| Content.MeasureContent | backend/seo_analyzer.py:1226-1275 | the measures are the word count, the link count, the distinct keyword count, the density, the readability and the duplicate count of the page |
| Content.AnalyzeContentQuality | backend/seo_analyzer.py:1222-1373 | the result carries exactly the content findings, scored and clamped, with the measures |
| Content.CheckByType | backend/seo_analyzer.py:1278-1338 | the type-dependent rules raise exactly the findings of the site's type |
| Content.EcommerceParts | backend/seo_analyzer.py:1296-1316 | each ecommerce content issue appears iff its threshold is crossed |
| Content.StandardParts | backend/seo_analyzer.py:1318-1338 | each content-site issue appears iff its threshold is crossed |
| Content.QualityFindingsParts | backend/seo_analyzer.py:1340-1348 | the readability and duplicate issues appear iff readability is below 60, respectively more than 3 sentences are duplicated |
| Content.DensityRulesExclusive | backend/seo_analyzer.py:1311-1337 | the density is never reported both too low and too high, and never for a functional site |
| Content.TypeCostAtMost | backend/seo_analyzer.py:1278-1338 | the type rules cost at most 20 (functional), 50 (ecommerce) or 65 (content) |
| Content.ContentScoreFloor | backend/seo_analyzer.py:1278-1348 | the content rules never cost more than 90 |
| UrlStructure.AnalyzeUrlStructure | backend/seo_analyzer.py:1375-1417 | the result carries exactly the URL findings, scored and clamped, with length, depth and flags |
| UrlStructure.UrlFindingsMembers | backend/seo_analyzer.py:1386-1400 | the length, depth and special-character issues appear iff their rule fires |
| UrlStructure.UrlScoreRange | backend/seo_analyzer.py:1378-1400 | the URL score lies in [55, 100], and is 100 iff no rule fires |
| Robots.AnalyzeRobotsTxt | backend/seo_analyzer.py:1419-1475 | the result carries exactly the robots findings, scored and clamped, with the rule flags |
| Robots.RobotsScores | backend/seo_analyzer.py:1422-1461 | the score is 100 for a present file that does not block CSS, 90 for one that blocks CSS, and 80 for a missing or unreachable file |
| Robots.RobotsFindingsAtMostOne | backend/seo_analyzer.py:1422-1461 | at most one robots issue is raised, and none iff the file is present and does not block CSS |
| Sitemap.AnalyzeSitemap | backend/seo_analyzer.py:1477-1549 | the result carries exactly the sitemap findings, scored and clamped, with the page count and latest modification |
| Sitemap.SitemapScores | backend/seo_analyzer.py:1480-1530 | the score is 100 with a sitemap of at least 10 pages, 90 with a smaller one, and 70 without one |
| Sitemap.SitemapFindingsAtMostOne | backend/seo_analyzer.py:1480-1530 | at most one sitemap issue is raised, and none iff a sitemap of at least 10 pages is present |
| Weights.KeyOf | backend/app.py:224-225 | a metric name that resolves to a key is that key's name |
| Weights.NameRoundTrip | backend/app.py:173-216 | every metric key's name resolves back to that key |
| Weights.AllMetricsOnce | backend/app.py:173-216 | the twelve metric keys are listed once each |
| Weights.AnalyzerTablesSum | backend/seo_analyzer.py:32-75 | each of the analyser's own three weight tables sums to 100 |
| App.AppTablesSum | backend/app.py:173-216 | the `content` and `functional` tables sum to 100, and the `ecommerce` table to 110 |
| App.TableFor | backend/app.py:170-219 | the functional table is chosen iff the type is `functional`, the ecommerce one iff it is `ecommerce`, and the content table otherwise |
| App.UnknownTypeUsesContentTable | backend/app.py:170-219 | a missing or unknown website type is scored with the content table |
| App.CalculateTotalScore | backend/app.py:167-232 | the loop returns 1.2 times the weighted mean of the present scores, and ties the result to the total-score function |
| App.WeightedSumBounds | backend/app.py:224-228 | with scores in [0, 100], the weighted sum lies between 0 and 100 times the weight used |
| App.TotalScoreBounds | backend/app.py:228-232 | with scores in [0, 100], the total lies in [0, 120] |
| App.UniformTotal | backend/app.py:228-232 | when every present score is `s` and some weight is used, the total is `1.2 * s`, so all 100 gives 120 and all 0 gives 0 |
| App.NothingWeighedGivesZero | backend/app.py:231 | when no weighted metric is present, the total is 0 |
| App.ScaleInvariant | backend/app.py:231 | multiplying a table by a positive constant leaves the total unchanged, so the table sum does not matter |
| App.StatusText | backend/app.py:269-278 | `excellent` iff the score is at least 90, `good` iff in [75, 90), `warning` iff in [60, 75), and `poor` iff below 60 |
| App.StatusMonotone | backend/app.py:269-278 | a higher score never gets a worse status |
| App.Advice | backend/app.py:282-355 | every known metric has four recommendations |
| App.Recommendations | backend/app.py:280-357 | a metric name gets four recommendations iff it is one of the twelve known metrics, and otherwise the single default |
| App.KnownMetricAdvice | backend/app.py:280-357 | the recommendations of a known metric do not depend on the score |
| App.FormatSeoResult | backend/app.py:234-267 | the result carries the total, its status and the website type, with one entry per result key other than `url` and `websiteType`, each formatted from its own value |
| App.FormattedDict | backend/app.py:249-256 | a dict value keeps its score (0 if absent) with the matching status, and its issues (`[]` if absent) as details |
| App.FormattedOther | backend/app.py:257-265 | any other value becomes score 0, status `poor`, the failure detail and the invalid-format marker |
| Stream.Drain | backend/app.py:118-150 | messages are sent in queue order; nothing is sent after the first `complete` or `error`, which is sent; without a terminal message the whole queue is sent |

## Left out

- Network and TLS input and output are inputs to the model: page, asset and robots/sitemap fetches, HEAD probes, the HSTS header check, and the certificate handshake. The `datetime` expiry arithmetic is also an input, as the number of days left. `time.sleep` is left out.
- HTML parsing with BeautifulSoup and the regular expressions that scan text are left out. Their results are inputs: heading counts, image tags, anchors with resolved hosts, the regex word count, and the title, meta-keyword and H1 word lists.
- `urljoin` and `urlparse` are left out. A link arrives either with its resolved host and clean URL, or as `Unparsable` when resolving it would raise.
- Rounding is left out: `round(..., 2)` of the kB sizes and the densities, `int(...)` of the load time, and the final `round(..., 1)`. The model computes with exact reals. This includes the rounding of each keyword's density before averaging.
- The load time comes from the response and is an input.
- `Content.AnalyzeKeywordDensity` averages unrounded densities, where the code averages densities rounded to two decimals.
- `_get_top_keywords`, `_extract_keywords_from_metadata`, the `keywordSources` and `extractedKeywords` fields, the `h1_texts`, `h2_texts` and `h3_texts` heading lists, and the sorting of `keywordStats` are left out. They only shape the returned data. The metadata word lists are inputs.
- `list(set(...))` has an unspecified iteration order. The order is a parameter that lists every keyword exactly once.
- The crawler's outer exception fallback (backend/seo_analyzer.py:236-243) is left out, and so are the `base_domain` field, the progress callback and `time.sleep`. A page whose fetch or parse raises is visited but not recorded, as in the code. A page whose link scan raises part-way is visited but not recorded, while the links it scanned before the failure stay collected and queued.
- The exception fallbacks of the evaluators and of `detect_website_type` are left out. `Metrics.ErrorResult` models their `{'score': 0, 'error': ...}` result, and `App.FailedMetric` states how the Flask side scores and formats it.
- Crawler.CrawlHasNoOrphans: requires that no link scan raises. After a partial scan, a page reached only through the unrecorded page is unlinked among the records, so the code can report an orphan.
- Linking.CrawledSiteHasNoOrphanIssue: requires that no link scan raises, for the same reason.
- The orchestration in `analyze_url`, the Flask routes, CORS, SSE framing, the worker thread and the shared queue are left out. Formatting and aggregation take the results map as input.
- `get_metrics` is left out. It serves display metadata only.
- The analyser's own `website_type_weights` tables are modelled, but nothing in the code ever uses them.
- `App.CalculateTotalScore` treats a non-dict value under a metric key as absent. In the code, a string containing `score` would raise `TypeError`.
- Under `websiteType`, a dict value is unhashable in the code; here it selects the content table.
- In `App.FormatEntry`, a `Text` value stands for any non-dict value.
- `Stream.Drain` does not model waiting on an empty queue or the exception branch. When no terminal message arrives, it ends after the last queued message. The code would keep waiting.
- Issue messages are structured values on the analyser side, not formatted Chinese strings. On the app side, the issues are strings.
- `str.isdigit` is modelled on ASCII digits only, and `str.lower` on ASCII letters only.
- The regex `$` matching before a trailing newline is left out.

## Findings

| source | as written | input that shows it | evidently intended | confidence | as-written member | corrected member |
|---|---|---|---|---|---|---|
| backend/seo_analyzer.py:122-130 | when the URL holds more than one protocol, every `http://` and `https://` anywhere in it is deleted, including inside the query, so normalising is not idempotent | `a?u=http://b` normalises to `https://a?u=http://b`, which normalises again to `https://a?u=b` | collapse only the protocols repeated at the front, as in `https://Https://example.com` | not executed | Urls.NormalizeNotIdempotent | Urls.CorrectedIdempotent |

`Urls.EmbeddedProtocolDeleted` also shows the deletion when the input already starts with `https://`. `Urls.NormalizeUrlCorrected` is the corrected definition. `CrawlWebsite.Crawl` normalises its start URL as the code does, and `CrawlWebsite.CrawlCorrected` is the same crawl with the corrected definition. Two lemmas relate it to the code's function:

- `Urls.CorrectedAgreesWhenSingleProtocol`: it agrees with the code's function whenever there is at most one protocol.
- `Urls.CorrectedKeepsEmbeddedUrl`: it keeps the embedded URL.
