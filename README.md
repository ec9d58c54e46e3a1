# link-traffic, modelled in Dafny

link-traffic is a small web application. The user pastes a list of URLs. For each well-formed
URL the server estimates traffic figures (reach, unique visitors, page views, share rate), takes
a screenshot and labels the sentiment of the page text. The browser shows one card per URL.
The results can be exported as a spreadsheet or as a PDF report.

This project models the decision and formatting logic between the network calls:

- the rank and traffic estimator (`TrafficData`);
- the screenshot scanner's reuse, create and poll protocol (`UrlScanner`);
- the sentiment labelling (`Sentiment`);
- the per-URL result assembly (`Analyzer`);
- the analyse endpoint (`AnalyzeRoute`);
- the browser page's input handling and state (`HomePage`);
- the spreadsheet export (`ExcelExport`);
- the PDF layout (`PdfExport`);
- the result card's display rules (`ResultsCard`);
- the offline mock generator (`MockData`).

Supporting modules model the JavaScript built-ins the code relies on (`JsStrings`, `JsNumber`),
the shared valid/invalid split (`UrlFilter`), the records of types/index.ts (`Types`) and
`Option`/`Result` (`Wrappers`).

What the world supplies becomes a parameter:

- `Math.random()` draws are reals in [0, 1) (`TrafficData.Draw`);
- the visitor curve `Math.round(5e9 / rank ** 0.7)` is a function `curve`. `DecayCurve` states its known facts: 5e9 at rank 1, and non-increasing;
- URL well-formedness (`new URL` does not throw) is a predicate `isUrl`. The hostname is a `Result`, whose failure carries the message thrown;
- the replies of the ranking, scan-search, scan-create and scan-status requests are datatypes;
- the lexicon scorer of the `sentiment` package is a function;
- the clock readings and `toLocaleString` of dates are strings or functions;
- what `autoTable` reports (`finalY`, pages added) is a `TableFinish` input.

The state that the source updates in place is imperative Dafny:

- the page's React state is `HomePage.Home`;
- the jsPDF document is `PdfExport.PdfDocument`;
- the loops are methods proved against specification functions: `WaitForScan`, `PartitionUrls`, `ValidateUrls`, `LookUpTier`, `LayOutResults` and `DrawFooters`.

## Model

| member | source | states |
|---|---|---|
| JsStrings.TrimStart | app/page.tsx:18 | leading whitespace removed: the result is a suffix, starts with non-whitespace, and everything dropped is whitespace |
| JsStrings.TrimEnd | app/page.tsx:18 | trailing whitespace removed: the result is a prefix, ends with non-whitespace, and everything dropped is whitespace |
| JsStrings.Trim | app/page.tsx:18 | `trim()` leaves no whitespace at either end and never lengthens the string |
| JsStrings.TrimIsInfix | app/page.tsx:18 | `trim()` keeps one contiguous part of the string, with only whitespace before and after it |
| JsStrings.TrimFixesTrimmed | app/page.tsx:18 | `trim()` leaves a string unchanged exactly when it has no whitespace at an end |
| JsStrings.Split | app/page.tsx:17 | `split('\n')` gives at least one piece, and no piece contains the separator |
| JsStrings.SplitCount | app/page.tsx:17 | there is one more piece than there are separators |
| JsStrings.JoinSplit | app/page.tsx:17 | joining the pieces with the separator gives the input back |
| JsStrings.Join | app/page.tsx:54 | `join(sep)` of a non-empty list starts with the first piece and is as long as all pieces plus one separator between each two |
| JsStrings.EndsWithIsSuffix | lib/mockData.ts:42 | `endsWith` holds exactly when the suffix fits and the string is some prefix followed by the suffix |
| JsStrings.IndexOf | lib/trafficData.ts:103 | `indexOf` gives the first position where the pattern occurs, or none when it occurs nowhere |
| JsStrings.ReplaceFirst | lib/trafficData.ts:103 | `replace` with a string pattern changes nothing when the pattern occurs nowhere; otherwise exactly the first occurrence is cut out and the replacement put in its place |
| JsNumber.NatToString | lib/trafficData.ts:36 | `String(n)` is a non-empty digit string with no leading zero |
| JsNumber.NatToStringValue | lib/trafficData.ts:36 | reading the printed digits back gives the number |
| JsNumber.Round | lib/trafficData.ts:34 | `Math.round(x)` is within one half of `x`, halves rounding up |
| JsNumber.FixedOne | lib/trafficData.ts:28-31 | `toFixed(1)` text always ends in a point and one digit |
| JsNumber.FixedOneValue | lib/trafficData.ts:28-31 | the `toFixed(1)` text reads back: the part before the point parses as the whole value, the last digit is the tenths |
| JsNumber.ParseInt | lib/trafficData.ts:41-42 | `parseInt(s, 10)` is NaN exactly when no digit follows the leading whitespace and the optional sign |
| JsNumber.ParseIntNatToString | lib/trafficData.ts:41 | `parseInt(String(n), 10) == n` |
| JsNumber.ParseIntNegative | app/api/export/pdf/route.ts:84 | the text of a negative number, with its minus sign, reads back as that number |
| JsNumber.ParseIntIntToString | app/api/export/pdf/route.ts:84 | `parseInt(String(i), 10) == i` for every integer, negative ones included |
| JsNumber.ParseIntStopsAfter | app/api/export/pdf/route.ts:144 | `parseInt` of a number's text followed by a non-digit stops there and gives the number |
| JsNumber.TenthsToString | lib/trafficData.ts:140 | `String(x)` of a value in tenths is its `toFixed(1)` text without the ".0" when the value is whole, and the full `toFixed(1)` text otherwise |
| JsNumber.GroupThousandsShape | app/api/export/excel/route.ts:35 | the en-US grouping of a natural number starts with a digit and has a comma exactly from 1000 up |
| JsNumber.LocaleIntDropCommas | app/api/export/excel/route.ts:35 | dropping the commas from the en-US text of any integer, negative ones included, gives `String(i)` |
| JsNumber.GroupingOnlyAddsCommas | app/api/export/excel/route.ts:35 | the en-US `toLocaleString` of an integer is its decimal text with commas inserted and nothing else changed |
| TrafficData.ToFixed1 | lib/trafficData.ts:28-31 | `x.toFixed(1)` shows the tenths count nearest to `x` |
| TrafficData.FormatNumber | lib/trafficData.ts:26-37 | suffix B iff the number is at least 1e9, M iff in [1e6, 1e9), K iff in [1e3, 1e6); plain digits below 1000 |
| TrafficData.FormatNumberThousands | lib/trafficData.ts:33-35 | the K figure is the count divided by 1000, rounded |
| TrafficData.BucketMidpointsAreMidpoints | lib/trafficData.ts:44-57 | each table rank is the midpoint of its bucket range |
| TrafficData.BucketNumberToRank | lib/trafficData.ts:46-58 | each bucket number in a range gets that range's midpoint; above 1000000 the number itself; never below 100 |
| TrafficData.BucketNumberToRankMonotone | lib/trafficData.ts:46-58 | a larger bucket number never yields a smaller rank |
| TrafficData.BucketToRank | lib/trafficData.ts:40-59 | 500000 when `parseInt` gives NaN, else the step table applied to the parsed number |
| TrafficData.BucketToRankOfNumber | lib/trafficData.ts:41-58 | a bucket that is a number's decimal text goes through the step table with that number |
| TrafficData.BucketFiveHundred | lib/trafficData.ts:47 | bucket "500" gives rank 350 |
| TrafficData.BucketFiftyThousand | lib/trafficData.ts:53 | bucket "50000" gives rank 35000 |
| TrafficData.BucketNotANumber | lib/trafficData.ts:42 | a bucket starting with no space, sign or digit gives 500000 |
| TrafficData.Spread | lib/trafficData.ts:77-80 | `Math.round(v * (lo + r * span))` lies in [lo·v, (lo+span)·v] |
| TrafficData.EstimateTrafficFromRank | lib/trafficData.ts:61-83 | all zeros at rank ≤ 0; otherwise visitors from the curve, page views in [2v, 4v] and reach in [3v, 5v] |
| TrafficData.VisitorsDecay | lib/trafficData.ts:73-74 | a better rank never gets fewer visitors |
| TrafficData.RankOneVisitors | lib/trafficData.ts:73-74 | at rank 1 the visitors figure reads "5.0B" |
| TrafficData.EstimateShareRate | lib/trafficData.ts:85-92 | bands by 100/1000/10000/100000; in tenths within [80,150], [50,100], [30,70], [10,40] or [5,25] |
| TrafficData.ShareRateText | lib/trafficData.ts:140 | the share-rate text is the rate's number text followed by "%" |
| TrafficData.ShareRateReadsBack | lib/trafficData.ts:140 | the share-rate text parses back to the whole percent; a whole rate has only digits before "%", any other has a point and the tenths digit |
| TrafficData.StripWww | lib/trafficData.ts:153 | the name is unchanged when it contains no "www."; otherwise it is the name with its first "www.", wherever it is, cut out |
| TrafficData.HeuristicRank | lib/trafficData.ts:156-164 | 50000 iff .gov/.edu; 100000 iff otherwise .org; 200000 iff otherwise shorter than 10; 500000 iff otherwise |
| TrafficData.GetEstimatedTrafficData | lib/trafficData.ts:152-176 | tagged estimated, no rank or bucket, "~"-marked figures from the heuristic rank of the stripped hostname |
| TrafficData.EffectiveRank | lib/trafficData.ts:131 | the exact rank when present, otherwise the bucket's rank |
| TrafficData.Figures | lib/trafficData.ts:136-140 | reach, visitors and page views of the rank's estimate as formatted numbers after the marker, "/month" on the two counts, and the share-rate text; the reach always has a digit right after the marker |
| TrafficData.GetTrafficData | lib/trafficData.ts:94-149 | a hostname failure propagates; without a token or a successful ranking reply, the estimate; otherwise figures from the effective rank, rank copied, bucket "Top "+bucket, source cloudflare |
| TrafficData.ProvenanceVisible | lib/trafficData.ts:136-144 | the reach starts with "~" exactly when the figures are estimated |
| UrlScanner.FindExistingScan | lib/urlScanner.ts:40-73 | the first task's uuid iff the search succeeded, listed a task, and that task is strictly less than 24 hours old |
| UrlScanner.FailedRecentScanReused | lib/urlScanner.ts:57-67 | a recent scan is reused even when its status is "Failed" |
| UrlScanner.CreateScan | lib/urlScanner.ts:76-111 | the uuid iff the reply is a success with a non-empty uuid; otherwise nothing |
| UrlScanner.Verdict | lib/urlScanner.ts:138-144 | a terminal poll answers true exactly when the status is "Finished" and success is true |
| UrlScanner.PollBudget | lib/urlScanner.ts:118 | poll k is sent exactly when k · 2000 ms is less than the maximum wait |
| UrlScanner.WaitForScan | lib/urlScanner.ts:114-155 | polls stop at the first terminal reply, which decides; otherwise every poll of the budget is sent and the answer is true |
| UrlScanner.DefaultWaitPolls | lib/urlScanner.ts:114 | the default 30 s wait sends at most 15 polls |
| UrlScanner.ScanUrl | lib/urlScanner.ts:162-200 | no token means no calls and no result; a reused scan makes no create call; a refused create gives nothing; otherwise the proxy path whatever the wait said, after at most 15 polls |
| UrlScanner.ScanTwiceWithinADay | lib/urlScanner.ts:171-179 | a second scan within a day, with the first one listed, returns the same screenshot and creates nothing |
| Sentiment.LabelFor | lib/sentiment.ts:12-19 | Positive iff score > 2, Negative iff score < −2, Neutral iff −2 ≤ score ≤ 2 |
| Sentiment.RoundHundredths | lib/sentiment.ts:24 | the comparative is within 0.005 of the scorer's |
| Sentiment.AnalyzeSentiment | lib/sentiment.ts:8-26 | the score is passed through unchanged; the label follows the thresholds |
| Analyzer.SentimentOf | lib/analyzer.ts:20-29 | analysed text when the content is non-empty, otherwise the neutral 0/Neutral/0 |
| Analyzer.ErrorRecord | lib/analyzer.ts:44-58 | "N/A" for the four figures, neutral sentiment, no rank, bucket, source or screenshot, the error message kept |
| Analyzer.AnalyzeUrl | lib/analyzer.ts:10-59 | an error iff the traffic lookup fails; on success the figures, rank and bucket are copied, the source kept, the screenshot absent iff the scan failed |
| Analyzer.PartialFailuresAreSilent | lib/analyzer.ts:13-17 | a failed scan and scrape never produce an error record |
| Analyzer.AnalyzeUrls | lib/analyzer.ts:62-65 | one result per URL, in order, result i the analysis of URL i |
| UrlFilter.Accepted | app/api/analyze/route.ts:20-27 | only well-formed entries of the input |
| UrlFilter.Rejected | app/api/analyze/route.ts:20-27 | only malformed entries of the input |
| UrlFilter.PartitionCounts | app/page.tsx:22-36 | the two parts together hold every entry exactly once (lengths and multisets) |
| UrlFilter.AcceptedOrdered | app/page.tsx:26-33 | the valid part is an order-preserving subsequence of the input |
| UrlFilter.RejectedOrdered | app/page.tsx:26-33 | the invalid part is an order-preserving subsequence of the input |
| AnalyzeRoute.InvalidMessages | app/api/analyze/route.ts:25 | one "Invalid URL: " + entry message per malformed URL, in order |
| AnalyzeRoute.PartitionUrls | app/api/analyze/route.ts:17-27 | the loop keeps exactly the well-formed URLs and reports exactly the others |
| AnalyzeRoute.Post | app/api/analyze/route.ts:5-47 | 500 for an unparsable body; 400 for a missing, non-array or empty list; 400 with the messages when nothing is valid; otherwise the analysis of the valid URLs only |
| AnalyzeRoute.ResponseAccountsForEveryUrl | app/api/analyze/route.ts:29-39 | results plus error messages number the input entries; result i is for valid URL i |
| HomePage.Trims | app/page.tsx:18 | one entry per line; entry k is line k trimmed |
| HomePage.NonBlank | app/page.tsx:18-19 | never more URLs than lines; every kept line is non-empty and trimmed |
| HomePage.NonBlankOrdered | app/page.tsx:18-19 | the kept lines are trimmed lines in their original order (a subsequence of the trimmed lines) |
| HomePage.NonBlankComplete | app/page.tsx:18-19 | no non-blank line is lost |
| HomePage.NonBlankCount | app/page.tsx:18-19 | exactly one URL per line whose trim is non-empty, so repeated lines are all kept |
| HomePage.ParseUrls | app/page.tsx:15-20 | at most one URL per line, each non-empty and its own trim, in line order among the trimmed lines, every non-blank line's trim present, and exactly as many URLs as non-blank lines (repeats kept) |
| HomePage.ValidateUrls | app/page.tsx:22-36 | the loop returns exactly the accepted and the rejected entries |
| HomePage.PlanAnalyze | app/page.tsx:39-58 | refuse with the "enter" message when nothing was typed, with the "no valid" message when nothing is well-formed; otherwise send the valid list, warning with the invalid ones joined by ", " iff there are any; a send whenever some non-blank line is well-formed |
| HomePage.Prepare | app/page.tsx:39-58 | the step-by-step checks decide as `PlanAnalyze` |
| HomePage.SentUrlsAreValid | app/page.tsx:53-67 | every URL sent is well-formed and was typed by the user |
| HomePage.Home.constructor | app/page.tsx:10-13 | initial state: empty input, no results, not loading, no error |
| HomePage.Home.HandleAnalyze | app/page.tsx:38-81 | a refusal sets the error only; a send ends not loading, with the results and the warning on success, "Analysis failed" on a bad status, the thrown message otherwise; the input is kept |
| HomePage.Home.Carry | app/page.tsx:41-80 | the state updates for a decided plan and a reply |
| HomePage.Home.HandleClear | app/page.tsx:83-87 | input "", results empty, error cleared |
| ExcelExport.RankCell | app/api/export/excel/route.ts:35 | "#"+grouped rank when the rank is truthy, else the non-empty bucket, else "N/A" |
| ExcelExport.SourceName | app/api/export/excel/route.ts:42 | "Cloudflare Radar" iff the source is cloudflare, "Estimated" otherwise, including when absent |
| ExcelExport.Row | app/api/export/excel/route.ts:33-45 | eleven cells, each the stated field in header order; the error cell "" when there is no error |
| ExcelExport.Sheet | app/api/export/excel/route.ts:48 | the header row, then one row per result in order |
| ExcelExport.DatePart | app/api/export/excel/route.ts:71 | the first ten characters of the clock's ISO text |
| ExcelExport.Export | app/api/export/excel/route.ts:5-86 | 500 for an unparsable body; 400 for missing, non-array or empty results; otherwise the "Analysis Results" sheet, which is the header row and one row per result in order, with the fixed column widths, named link-traffic-data-date.xlsx |
| PdfExport.PdfDocument.constructor | app/api/export/pdf/route.ts:36 | a new document has one page, the current one |
| PdfExport.PdfDocument.AddPage | app/api/export/pdf/route.ts:53 | one more page, which becomes current; nothing drawn |
| PdfExport.PdfDocument.SetPage | app/api/export/pdf/route.ts:140 | the current page changes, nothing else |
| PdfExport.PdfDocument.Text | app/api/export/pdf/route.ts:61 | one text drawing appended on the current page |
| PdfExport.PdfDocument.AutoTable | app/api/export/pdf/route.ts:87-104 | one table appended on the current page; pages added as reported, drawing continuing on the last; `finalY` returned |
| PdfExport.PdfDocument.AddImage | app/api/export/pdf/route.ts:124 | one image appended on the current page |
| PdfExport.DisplayUrl | app/api/export/pdf/route.ts:60 | the URL itself iff at most 70 long; otherwise its first 67 characters and "..."; never longer than 70 |
| PdfExport.TableData | app/api/export/pdf/route.ts:78-85 | six two-cell rows in fixed order, the rank as in the spreadsheet |
| PdfExport.SentimentTextReadsBack | app/api/export/pdf/route.ts:84 | the sentiment cell is the label name, " (score: ", text that reads back as the score, and ")" |
| PdfExport.Initial | app/api/export/pdf/route.ts:39-48 | exactly two drawings, centred on page 1: the title at y 20 and "Generated: " with the time at y 28; then y = 40 |
| PdfExport.BreakBelow | app/api/export/pdf/route.ts:52-55 | past the limit a new page and y = 20; otherwise nothing changes |
| PdfExport.ScreenshotBlock | app/api/export/pdf/route.ts:107-126 | drawn only when wanted and fetched; starts at y ≤ 200 after the break and advances 3 + 67.5 + 5 |
| PdfExport.HeadingDraws | app/api/export/pdf/route.ts:52-68 | after the break check, the display URL at y and the data-source line 6 lower on the last page; y advances 12; earlier drawings kept |
| PdfExport.TableDraws | app/api/export/pdf/route.ts:87-104 | one table with the fixed header and the six metric rows at y on the last page; pages grow by what the table reports; y resumes 5 below its end |
| PdfExport.LineDraws | app/api/export/pdf/route.ts:74-75 | one text at y on the last page; y advances by the gap; earlier drawings kept |
| PdfExport.BlockStartsHigh | app/api/export/pdf/route.ts:52-61 | a block's first drawing is its display URL at y ≤ 240, and earlier drawings are kept |
| PdfExport.ErrorBlockHeight | app/api/export/pdf/route.ts:70-75 | an error block advances y by exactly 27 past the break and draws three texts only |
| PdfExport.AnalyzedBlockOrder | app/api/export/pdf/route.ts:76-134 | a block without error draws heading, table, the two screenshot drawings exactly when the screenshot URL is truthy and image data came back, then "Analyzed: " with the time; y ends 15 below that line |
| PdfExport.PlaceResultAppends | app/api/export/pdf/route.ts:50-135 | a block only appends drawings; nothing drawn before changes |
| PdfExport.PlaceResultAddsPages | app/api/export/pdf/route.ts:50-135 | a block never removes a page |
| PdfExport.PlaceResultKeepsPages | app/api/export/pdf/route.ts:50-135 | a block draws only on pages that exist |
| PdfExport.DrawingsOnExistingPages | app/api/export/pdf/route.ts:48-135 | after any number of results every drawing is on an existing page |
| PdfExport.PagesOnlyGrow | app/api/export/pdf/route.ts:50-135 | a further result never lowers the page count |
| PdfExport.LayoutPrefixStep | app/api/export/pdf/route.ts:50-135 | the drawings after n results start the drawings after n + 1 |
| PdfExport.Footers | app/api/export/pdf/route.ts:139-149 | footer i is "Page i of n" on page i, 10 above the bottom, centred |
| PdfExport.FooterTextShape | app/api/export/pdf/route.ts:144 | a footer starts with "Page " and ends with " of " and the page count |
| PdfExport.FooterPageNumber | app/api/export/pdf/route.ts:144 | the number after "Page " reads back as the page index |
| PdfExport.FooterPages | app/api/export/pdf/route.ts:139 | the first k footers are on exactly the pages 1..k |
| PdfExport.FootersNumberEveryPage | app/api/export/pdf/route.ts:138-149 | every page gets exactly one footer, naming it and the total |
| PdfExport.DrawHeading | app/api/export/pdf/route.ts:52-68 | the break check and the URL and source lines, as `BlockHeading` |
| PdfExport.DrawScreenshot | app/api/export/pdf/route.ts:111-125 | the break check, caption and image, as `ScreenshotBlock` |
| PdfExport.PlaceOne | app/api/export/pdf/route.ts:51-134 | the loop body on the document, as `PlaceResult` |
| PdfExport.LayOutResults | app/api/export/pdf/route.ts:48-135 | the results loop leaves the document as `LayoutPrefix` of all results |
| PdfExport.DrawFooters | app/api/export/pdf/route.ts:138-149 | the footer loop appends exactly the footers of every page and adds no page |
| PdfExport.RenderPdf | app/api/export/pdf/route.ts:20-168 | 500 for an unparsable body; 400 for missing or empty results; otherwise the laid-out pages plus footers, named link-traffic-report-date.pdf |
| ResultsCard.TruncateUrl | components/ResultsCard.tsx:21-24 | unchanged when short enough; otherwise the first `maxLength` characters and "...", length `maxLength`+3 |
| ResultsCard.FormatRank | components/ResultsCard.tsx:26-28 | "#" and then the rank's en-US text, which reads back as the rank once its commas are dropped |
| ResultsCard.GetSentimentColor | components/ResultsCard.tsx:10-19 | green for "Positive", red for "Negative", gray for anything else |
| ResultsCard.SentimentColours | components/ResultsCard.tsx:10-19 | on the three labels, each colour belongs to exactly one label |
| ResultsCard.BadgeOf | components/ResultsCard.tsx:48-56 | a badge iff the source is known, worded as the exports word it |
| ResultsCard.RankTile | components/ResultsCard.tsx:92-98 | a tile iff the rank or the bucket is truthy; formatted rank first, else the bucket; no "N/A" |
| ResultsCard.CardView | components/ResultsCard.tsx:36-98 | title is the URL cut to 60; an error result shows "Error: " + message instead of the metrics; the screenshot appears iff present |
| ResultsCard.TileAgreesWithExports | components/ResultsCard.tsx:96 | the exports' rank cell is the card's tile, or "N/A" where the card has none |
| MockData.ExactTier | lib/mockData.ts:36-38 | the tier stored under the hostname, or none when it is no key |
| MockData.TableTiers | lib/mockData.ts:12-29 | every table tier lies in [6, 10] |
| MockData.FallbackTier | lib/mockData.ts:48-56 | 6 for .gov/.edu, else 4 for .org, else 2 + floor(4r) in [2, 5] |
| MockData.GetDomainTier | lib/mockData.ts:31-60 | 3 when the URL does not parse; otherwise the lookup of the hostname without its first "www."; always in [2, 10] |
| MockData.LookUpTier | lib/mockData.ts:36-56 | an exact hit's tier; else the tier of the first entry in table order whose key ends the host; else the fallback; always in [2, 10] |
| MockData.MockFormatNumber | lib/mockData.ts:62-70 | always "~" first; M iff at least 1e6, K iff in [1e3, 1e6), never B |
| MockData.MockFormatIsMarkedFormat | lib/mockData.ts:62-70 | below a billion the mock formatter is the real one with "~" in front |
| MockData.ReachBase | lib/mockData.ts:81-84 | the base reach for tier t ≥ 1 is 1000 · 10^(t−1) |
| MockData.ReachBaseGrows | lib/mockData.ts:81-84 | a higher tier has a strictly larger base, 10 times per tier |

## Left out

- Network and JSON: the `fetch` calls to Cloudflare Radar and URL Scanner, and the client `fetch` calls. Each reply is an input datatype. `getScreenshot` (lib/urlScanner.ts) and `fetchScreenshotAsBase64` (PDF route) are represented only by their outcomes. `Unparsable` stands for any body whose parsing or destructuring throws.
- Concurrency: `Promise.all` in lib/analyzer.ts is a sequential map. Each URL's external outcomes are a parameter indexed by position.
- Floating point: numbers are exact integers and reals, not doubles.
- ToFixed1: rounds half up on the exact value. JavaScript's `toFixed(1)` works on the binary double, so halfway cases can print differently.
- RoundHundredths: the comparative is only bounded to within 0.005. The double arithmetic of `Math.round(c * 100) / 100` is not modelled.
- EstimateTrafficFromRank: `Math.pow(rank, 0.7)` is an abstract curve, known only through `DecayCurve`.
- `generateWithVariance` and the rest of `generateMockTrafficData`'s random arithmetic are not modelled. Only the tier, the formatter and the base reach are.
- `Math.random()` draws are inputs and are not sampled.
- Foreign libraries:
  - the `sentiment` lexicon is an input function;
  - `new URL` parsing and hostname extraction are an input predicate and an input `Result`;
  - `Date` formatting and `toLocaleString` of dates are input functions;
  - the ISO clock text is an input string;
  - number `toLocaleString` is modelled for the en-US locale only;
  - jsPDF fonts, colours and alignment, and autoTable's drawing, are left out. Its reported `finalY` and added pages are an input;
  - the xlsx workbook encoding is left out. The sheet is modelled as cells with column widths.
- lib/scraper is not part of this model. The page text is an input, `None` when scraping fails.
- UI: the JSX rendering, the React image-load and image-error state of the result card, and components/Header.tsx, UrlInput.tsx, AnalyzeButton.tsx and ExportButtons.tsx. The card is a value describing what it shows.
- Strings are sequences of Unicode scalar values. JavaScript counts UTF-16 code units, so lengths differ for characters outside the Basic Multilingual Plane.
- MockData.GetDomainTier: the table is a list of pairs. Keys inherited from JavaScript's object prototype, such as "constructor", are not looked up as the source's `domainTiers[hostname]` would.
- MockData.GetDomainTier: a host whose table tier is 0 would fall through the source's truthiness test. No table entry has tier 0, so the model returns any exact hit.
- UrlScanner.WaitForScan: elapsed time is exactly 2000 ms per poll. In the source, request latency also counts toward `maxWaitMs`, so it can send fewer polls than the budget.
- The field `label` of a sentiment result is `category` in the model, because `label` is a reserved word in Dafny.
- Errors thrown that are not `Error` objects are modelled as `FetchFailed(None)` on the page. The analyser's catch path is reached only through a hostname failure.
