/** The spreadsheet export (app/api/export/excel/route.ts): one header row of eleven
    column names and one eleven-cell row per analysis result, in order. */
module ExcelExport {
  import opened Wrappers
  import opened JsNumber
  import opened Types

  /** The `results` field of an export request (shared with the PDF export). */
  datatype ResultsField = Missing | NotAnArray | ResultArray(items: seq<AnalysisResult>)

  /** The request body: not JSON at all, or an object with a `results` field. */
  datatype ExportRequest = Unparsable | Body(results: ResultsField)

  /** The export asks for a non-empty list of results. */
  predicate HasResults(request: ExportRequest) {
    request.Body? && request.results.ResultArray? && |request.results.items| > 0
  }

  /** A spreadsheet cell: text, or the one numeric column (the sentiment score). */
  datatype Cell = Text(text: string) | Num(number: int)

  datatype ExcelResponse =
    | Status400(error: string)
    | Status500(error: string)
    | Workbook(sheetName: string, sheet: seq<seq<Cell>>, widths: seq<nat>, filename: string)

  const Headers: seq<string> := [
    "URL", "Global Rank", "Reach", "Unique Visitors", "Page Views", "Share Rate",
    "Sentiment", "Sentiment Score", "Data Source", "Analyzed At", "Error"]

  const ColumnWidths: seq<nat> := [50, 14, 14, 18, 16, 12, 12, 14, 16, 22, 30]

  /** The rank as every export shows it: the exact rank when it is truthy, else the
      bucket when it is non-empty, else "N/A". */
  function RankCell(r: AnalysisResult): (s: string)
    ensures TruthyInt(r.rank) ==> s == "#" + LocaleInt(r.rank.value)
    ensures !TruthyInt(r.rank) && TruthyString(r.bucket) ==> s == r.bucket.value
    ensures !TruthyInt(r.rank) && !TruthyString(r.bucket) ==> s == "N/A"
    ensures s != ""
  {
    if TruthyInt(r.rank) then "#" + LocaleInt(r.rank.value)
    else if TruthyString(r.bucket) then r.bucket.value
    else "N/A"
  }

  /** The provenance as the exports name it; an absent source reads as estimated. */
  function SourceName(source: Option<DataSource>): (s: string)
    ensures s == "Cloudflare Radar" <==> source == Some(Cloudflare)
    ensures s == "Estimated" <==> source != Some(Cloudflare)
  {
    if source == Some(Cloudflare) then "Cloudflare Radar" else "Estimated"
  }

  /** One result as a spreadsheet row; `formatTime` is `new Date(t).toLocaleString()`. */
  function Row(r: AnalysisResult, formatTime: string -> string): (row: seq<Cell>)
    ensures |row| == |Headers|
    ensures row[0] == Text(r.url) && row[1] == Text(RankCell(r))
    ensures row[2] == Text(r.reach) && row[3] == Text(r.uniqueVisitors)
    ensures row[4] == Text(r.pageViews) && row[5] == Text(r.shareRate)
    ensures row[6] == Text(LabelName(r.sentiment.category)) && row[7] == Num(r.sentiment.score)
    ensures row[8] == Text(SourceName(r.dataSource)) && row[9] == Text(formatTime(r.analyzedAt))
    ensures row[10] == Text(if TruthyString(r.error) then r.error.value else "")
  {
    [ Text(r.url), Text(RankCell(r)), Text(r.reach), Text(r.uniqueVisitors), Text(r.pageViews),
      Text(r.shareRate), Text(LabelName(r.sentiment.category)), Num(r.sentiment.score),
      Text(SourceName(r.dataSource)), Text(formatTime(r.analyzedAt)),
      Text(if TruthyString(r.error) then r.error.value else "") ]
  }

  /** `[headers, ...results.map(row)]`. */
  function Sheet(results: seq<AnalysisResult>, formatTime: string -> string): (sheet: seq<seq<Cell>>)
    ensures |sheet| == |results| + 1
    ensures |sheet[0]| == |Headers| && forall j :: 0 <= j < |Headers| ==> sheet[0][j] == Text(Headers[j])
    ensures forall i :: 0 <= i < |results| ==> sheet[i + 1] == Row(results[i], formatTime)
  {
    [seq(|Headers|, j requires 0 <= j < |Headers| => Text(Headers[j]))]
      + seq(|results|, i requires 0 <= i < |results| => Row(results[i], formatTime))
  }

  /** `new Date().toISOString().slice(0, 10)`: the first ten characters of the clock's text. */
  function DatePart(isoNow: string): (d: string)
    ensures |d| <= 10 && |d| <= |isoNow| && d == isoNow[..|d|]
    ensures |isoNow| >= 10 ==> |d| == 10
  {
    if |isoNow| <= 10 then isoNow else isoNow[..10]
  }

  /** `POST /api/export/excel`; `isoNow` is the clock as an ISO-8601 text. */
  function Export(request: ExportRequest, formatTime: string -> string, isoNow: string): (resp: ExcelResponse)
    ensures request.Unparsable? ==> resp == Status500("Failed to generate Excel file")
    ensures request.Body? && !HasResults(request) ==> resp == Status400("No results to export")
    ensures HasResults(request) ==>
      && resp.Workbook?
      && resp.sheetName == "Analysis Results"
      && resp.sheet == Sheet(request.results.items, formatTime)
      && resp.widths == ColumnWidths
      && |resp.sheet| == |request.results.items| + 1
      && (forall i :: 0 <= i < |request.results.items| ==>
            |resp.sheet[i + 1]| == |resp.sheet[0]| == |resp.widths| == 11
            && resp.sheet[i + 1][0] == Text(request.results.items[i].url))
      && resp.filename == "link-traffic-data-" + DatePart(isoNow) + ".xlsx"
  {
    if request.Unparsable? then Status500("Failed to generate Excel file")
    else if !HasResults(request) then Status400("No results to export")
    else Workbook("Analysis Results", Sheet(request.results.items, formatTime), ColumnWidths,
                  "link-traffic-data-" + DatePart(isoNow) + ".xlsx")
  }
}
