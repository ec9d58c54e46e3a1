/** What a result card (components/ResultsCard.tsx) shows: the shortened URL, the
    provenance badge, and either the error text or the metrics. */
module ResultsCard {
  import opened Wrappers
  import opened JsNumber
  import opened Types
  import opened ExcelExport

  /** The card shortens the URL to this many characters. */
  const CardUrlLength: nat := 60

  /** `truncateUrl`: short URLs unchanged, long ones cut to `maxLength` and marked "...". */
  function TruncateUrl(url: string, maxLength: nat): (t: string)
    ensures |url| <= maxLength ==> t == url
    ensures |url| > maxLength ==> |t| == maxLength + 3 && t[..maxLength] == url[..maxLength] && t[maxLength..] == "..."
  {
    if |url| <= maxLength then url else url[..maxLength] + "..."
  }

  /** `getSentimentColor`: green for "Positive", red for "Negative", gray for anything else. */
  function GetSentimentColor(name: string): (classes: string)
    ensures name == "Positive" ==> classes == "text-green-600 bg-green-50"
    ensures name == "Negative" ==> classes == "text-red-600 bg-red-50"
    ensures name != "Positive" && name != "Negative" ==> classes == "text-gray-600 bg-gray-50"
  {
    if name == "Positive" then "text-green-600 bg-green-50"
    else if name == "Negative" then "text-red-600 bg-red-50"
    else "text-gray-600 bg-gray-50"
  }

  /** `formatRank`: "#" and the rank with thousands separators; without the commas
      the digits read back as the rank. */
  function FormatRank(rank: int): (s: string)
    ensures |s| >= 1 && s[0] == '#'
    ensures ParseInt(DropCommas(s[1..])) == Some(rank)
  {
    var text := LocaleInt(rank);
    LocaleIntDropCommas(rank);
    ParseIntIntToString(rank);
    assert ("#" + text)[1..] == text;
    "#" + text
  }

  datatype Badge = Badge(text: string, classes: string)

  datatype CardBody =
    | ErrorBody(text: string)
    | Metrics(rankTile: Option<string>, screenshot: Option<string>, reach: string, uniqueVisitors: string,
              pageViews: string, shareRate: string, sentimentLabel: string, sentimentClasses: string,
              score: string)

  datatype Card = Card(title: string, href: string, badge: Option<Badge>, analyzedAt: string, body: CardBody)

  /** The badge, shown only when the result says where its figures came from. */
  function BadgeOf(source: Option<DataSource>): (b: Option<Badge>)
    ensures b.Some? <==> source.Some?
    ensures b.Some? ==> b.value.text == SourceName(source)
  {
    match source
    case None => None
    case Some(Cloudflare) => Some(Badge("Cloudflare Radar", "bg-orange-100 text-orange-700"))
    case Some(Estimated) => Some(Badge("Estimated", "bg-gray-100 text-gray-600"))
  }

  /** The global-rank tile: the exact rank when it is truthy, else the bucket when it is
      non-empty, else no tile at all. */
  function RankTile(r: AnalysisResult): (tile: Option<string>)
    ensures tile.Some? <==> TruthyInt(r.rank) || TruthyString(r.bucket)
    ensures TruthyInt(r.rank) ==> tile == Some(FormatRank(r.rank.value))
    ensures !TruthyInt(r.rank) && TruthyString(r.bucket) ==> tile == Some(r.bucket.value)
  {
    if TruthyInt(r.rank) then Some(FormatRank(r.rank.value))
    else if TruthyString(r.bucket) then r.bucket
    else None
  }

  /** The card for one result; `formatTime` is `new Date(t).toLocaleString()`. The
      screenshot appears when the result has one (image-load failures are not modelled). */
  function CardView(r: AnalysisResult, formatTime: string -> string): (c: Card)
    ensures c.title == TruncateUrl(r.url, CardUrlLength) && c.href == r.url
    ensures c.badge == BadgeOf(r.dataSource)
    ensures c.body.ErrorBody? <==> TruthyString(r.error)
    ensures c.body.ErrorBody? ==> c.body.text == "Error: " + r.error.value
    ensures c.body.Metrics? ==>
      && c.body.rankTile == RankTile(r)
      && (c.body.screenshot.Some? <==> TruthyString(r.screenshotUrl))
      && c.body.sentimentClasses == GetSentimentColor(LabelName(r.sentiment.category))
  {
    var body :=
      if TruthyString(r.error) then ErrorBody("Error: " + r.error.value)
      else Metrics(RankTile(r), if TruthyString(r.screenshotUrl) then r.screenshotUrl else None,
                   r.reach, r.uniqueVisitors, r.pageViews, r.shareRate, LabelName(r.sentiment.category),
                   GetSentimentColor(LabelName(r.sentiment.category)), "(" + IntToString(r.sentiment.score) + ")");
    Card(TruncateUrl(r.url, CardUrlLength), r.url, BadgeOf(r.dataSource), formatTime(r.analyzedAt), body)
  }

  /** The card and the exports agree on the rank: the exports' rank cell is the tile,
      or "N/A" where the card shows no tile. */
  lemma TileAgreesWithExports(r: AnalysisResult)
    ensures RankCell(r) == RankTile(r).GetOr("N/A")
  {
  }

  /** A positive result is green, a negative one red, a neutral one gray. */
  lemma SentimentColours(l: Label)
    ensures l == Positive <==> GetSentimentColor(LabelName(l)) == "text-green-600 bg-green-50"
    ensures l == Negative <==> GetSentimentColor(LabelName(l)) == "text-red-600 bg-red-50"
    ensures l == Neutral <==> GetSentimentColor(LabelName(l)) == "text-gray-600 bg-gray-50"
  {
  }
}
