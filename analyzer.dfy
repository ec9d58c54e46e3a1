/** Per-URL orchestration (lib/analyzer.ts): traffic figures, the screenshot and the page
    text for sentiment are gathered and merged into one result; only a failure of the
    traffic lookup, which fails only when the URL has no hostname, yields the error record.
    The parallel gathering is a plain map here. */
module Analyzer {
  import opened Wrappers
  import opened Types
  import opened TrafficData
  import opened Sentiment
  import opened UrlScanner

  /** What the whole process shares: whether the API token is set, the visitor curve
      and the lexicon scorer. */
  datatype Env = Env(hasToken: bool, curve: int -> nat, lexicon: string -> LexiconScore)

  /** What the outside world gave one URL's analysis: the hostname (or the error parsing
      threw), the ranking reply, the random draws, the scan result (`None` when scanning
      failed), the page text (`None` when scraping failed) and the clock reading. */
  datatype Fetched = Fetched(
    hostname: Result<string>,
    radar: RadarReply,
    draws: Draws,
    scan: Option<ScanResult>,
    content: Option<string>,
    analyzedAt: string)

  const NeutralSentiment: SentimentResult := SentimentResult(0, Neutral, 0.0)

  /** Sentiment of the page text; missing or empty text counts as neutral. */
  function SentimentOf(content: Option<string>, lexicon: string -> LexiconScore): (s: SentimentResult)
    ensures TruthyString(content) ==> s == AnalyzeSentiment(content.value, lexicon)
    ensures !TruthyString(content) ==> s == NeutralSentiment
  {
    if TruthyString(content) then AnalyzeSentiment(content.value, lexicon) else NeutralSentiment
  }

  /** The record of the catch path: placeholders everywhere, the error message kept. */
  function ErrorRecord(url: string, message: string, analyzedAt: string): (r: AnalysisResult)
    ensures r.url == url && r.analyzedAt == analyzedAt && r.error == Some(message)
    ensures r.reach == r.uniqueVisitors == r.pageViews == r.shareRate == "N/A"
    ensures r.sentiment == NeutralSentiment
    ensures r.rank.None? && r.bucket.None? && r.dataSource.None? && r.screenshotUrl.None?
  {
    AnalysisResult(url, "N/A", "N/A", "N/A", "N/A", NeutralSentiment, analyzedAt,
                   None, None, None, None, Some(message))
  }

  /** `analyzeUrl`. */
  function AnalyzeUrl(url: string, env: Env, f: Fetched): (r: AnalysisResult)
    ensures r.url == url && r.analyzedAt == f.analyzedAt
    ensures r.error.None? <==> f.hostname.Success?
    ensures f.hostname.Failure? ==> r == ErrorRecord(url, f.hostname.error, f.analyzedAt)
    ensures f.hostname.Success? ==>
      var t := GetTrafficData(env.hasToken, f.hostname, f.radar, env.curve, f.draws).value;
      && r.reach == t.reach && r.uniqueVisitors == t.uniqueVisitors
      && r.pageViews == t.pageViews && r.shareRate == t.shareRate
      && r.rank == t.rank && r.bucket == t.bucket && r.dataSource == Some(t.source)
      && (r.screenshotUrl.None? <==> f.scan.None?)
      && (f.scan.Some? ==> r.screenshotUrl == Some(f.scan.value.screenshotUrl))
      && r.sentiment == SentimentOf(f.content, env.lexicon)
  {
    match GetTrafficData(env.hasToken, f.hostname, f.radar, env.curve, f.draws)
    case Failure(message) => ErrorRecord(url, message, f.analyzedAt)
    case Success(t) =>
      var screenshotUrl := match f.scan case Some(s) => Some(s.screenshotUrl) case None => None;
      AnalysisResult(url, t.reach, t.uniqueVisitors, t.pageViews, t.shareRate,
                     SentimentOf(f.content, env.lexicon), f.analyzedAt,
                     t.rank, t.bucket, Some(t.source), screenshotUrl, None)
  }

  /** A failed scan or scrape never turns a result into an error. */
  lemma PartialFailuresAreSilent(url: string, env: Env, f: Fetched)
    requires f.hostname.Success?
    ensures AnalyzeUrl(url, env, f.(scan := None, content := None)).error.None?
    ensures AnalyzeUrl(url, env, f.(scan := None, content := None)).sentiment == NeutralSentiment
  {
  }

  /** `analyzeUrls`: one result per URL, in the same order; `fetched(i)` is what the
      world gave the i-th URL. */
  function AnalyzeUrls(urls: seq<string>, env: Env, fetched: nat -> Fetched): (rs: seq<AnalysisResult>)
    ensures |rs| == |urls|
    ensures forall i :: 0 <= i < |urls| ==> rs[i] == AnalyzeUrl(urls[i], env, fetched(i)) && rs[i].url == urls[i]
  {
    seq(|urls|, i requires 0 <= i < |urls| => AnalyzeUrl(urls[i], env, fetched(i)))
  }
}
