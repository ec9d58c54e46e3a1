/** The PDF report (app/api/export/pdf/route.ts): a title, then one block per result
    laid out down the page with a running y position, new pages when a block or a
    screenshot would start too low, and a "Page i of n" footer on every page. */
module PdfExport {
  import opened Wrappers
  import opened JsNumber
  import opened Types
  import opened ExcelExport
  import JsStrings

  /** jsPDF's default page, A4 portrait, in millimetres. */
  const PageWidth: real := 210.0
  const PageHeight: real := 297.0

  /** A block whose start would lie below this y goes to a new page. */
  const BlockLimit: real := 240.0
  /** A screenshot whose caption would lie below this y goes to a new page. */
  const ScreenshotLimit: real := 200.0
  /** Where writing resumes on a new page. */
  const TopMargin: real := 20.0
  const LeftMargin: real := 14.0
  const ImageWidth: real := 120.0
  const ImageHeight: real := 67.5

  /** What is drawn, and on which page (pages are numbered from 1). */
  datatype DrawOp =
    | TextOp(page: nat, text: string, x: real, y: real)
    | TableOp(page: nat, startY: real, head: seq<string>, body: seq<seq<string>>)
    | ImageOp(page: nat, data: string, x: real, y: real, width: real, height: real)

  /** What `autoTable` reports after drawing a table: the y where the table ended and
      the number of pages it added to fit it. */
  datatype TableFinish = TableFinish(finalY: real, pagesAdded: nat)

  /** The jsPDF document: its pages, the page being drawn on and what was drawn. */
  class PdfDocument {
    var pageCount: nat
    var current: nat
    var ops: seq<DrawOp>

    ghost predicate Valid()
      reads this
    {
      1 <= current <= pageCount
    }

    constructor ()
      ensures Valid() && pageCount == 1 && current == 1 && ops == []
    {
      pageCount, current, ops := 1, 1, [];
    }

    /** `doc.addPage()`: a new last page, which becomes the current one. */
    method AddPage()
      requires Valid()
      modifies this
      ensures Valid() && pageCount == old(pageCount) + 1 && current == pageCount && ops == old(ops)
    {
      pageCount := pageCount + 1;
      current := pageCount;
    }

    /** `doc.setPage(n)`. */
    method SetPage(n: nat)
      requires Valid() && 1 <= n <= pageCount
      modifies this
      ensures Valid() && current == n && pageCount == old(pageCount) && ops == old(ops)
    {
      current := n;
    }

    /** `doc.text(text, x, y)` on the current page. */
    method Text(text: string, x: real, y: real)
      requires Valid()
      modifies this
      ensures Valid() && current == old(current) && pageCount == old(pageCount)
      ensures ops == old(ops) + [TextOp(current, text, x, y)]
    {
      ops := ops + [TextOp(current, text, x, y)];
    }

    /** `autoTable(doc, …)` starting on the current page; it may add pages, and drawing
        continues on the last one. */
    method AutoTable(startY: real, head: seq<string>, body: seq<seq<string>>, finish: TableFinish) returns (finalY: real)
      requires Valid()
      modifies this
      ensures Valid() && finalY == finish.finalY
      ensures pageCount == old(pageCount) + finish.pagesAdded
      ensures current == if finish.pagesAdded == 0 then old(current) else pageCount
      ensures ops == old(ops) + [TableOp(old(current), startY, head, body)]
    {
      ops := ops + [TableOp(current, startY, head, body)];
      if finish.pagesAdded > 0 {
        pageCount := pageCount + finish.pagesAdded;
        current := pageCount;
      }
      finalY := finish.finalY;
    }

    /** `doc.addImage(data, 'PNG', x, y, width, height)` on the current page. */
    method AddImage(data: string, x: real, y: real, width: real, height: real)
      requires Valid()
      modifies this
      ensures Valid() && current == old(current) && pageCount == old(pageCount)
      ensures ops == old(ops) + [ImageOp(current, data, x, y, width, height)]
    {
      ops := ops + [ImageOp(current, data, x, y, width, height)];
    }
  }

  /** The URL as the block's heading: at most 70 characters, long ones cut to 67 and
      marked with "...". */
  function DisplayUrl(url: string): (d: string)
    ensures |d| <= 70
    ensures d == url <==> |url| <= 70
    ensures |url| > 70 ==> |d| == 70 && d[..67] == url[..67] && d[67..] == "..."
  {
    if |url| > 70 then url[..67] + "..." else url
  }

  /** "Positive (score: 3)". */
  function SentimentText(s: SentimentResult): string
  {
    LabelName(s.category) + " (score: " + IntToString(s.score) + ")"
  }

  const TableHead: seq<string> := ["Metric", "Value"]

  /** The metrics table of a result that has no error: six rows, in a fixed order. */
  function TableData(r: AnalysisResult): (rows: seq<seq<string>>)
    ensures |rows| == 6 && forall k :: 0 <= k < 6 ==> |rows[k]| == 2
    ensures rows[0] == ["Global Rank", RankCell(r)]
    ensures rows[1] == ["Reach", r.reach] && rows[2] == ["Unique Visitors", r.uniqueVisitors]
    ensures rows[3] == ["Page Views", r.pageViews] && rows[4] == ["Share Rate", r.shareRate]
    ensures rows[5] == ["Sentiment", SentimentText(r.sentiment)]
  {
    [ ["Global Rank", RankCell(r)], ["Reach", r.reach], ["Unique Visitors", r.uniqueVisitors],
      ["Page Views", r.pageViews], ["Share Rate", r.shareRate],
      ["Sentiment", SentimentText(r.sentiment)] ]
  }

  /** Where the layout stands: the y position, the page count (drawing is always on the
      last page while the results are laid out) and what has been drawn. */
  datatype Layout = Layout(y: real, pages: nat, ops: seq<DrawOp>)

  /** Every drawing is on a page that exists. */
  ghost predicate OnExistingPages(l: Layout) {
    forall k :: 0 <= k < |l.ops| ==> 1 <= l.ops[k].page <= l.pages
  }

  /** The title and the generation time, centred on page 1, then y = 40. */
  function Initial(generated: string): (l: Layout)
    ensures l.pages == 1 && OnExistingPages(l) && l.y == 40.0
    ensures |l.ops| == 2 && forall k :: 0 <= k < 2 ==> l.ops[k].TextOp? && l.ops[k].x == PageWidth / 2.0
    ensures l.ops[0].text == "Link Traffic Analysis Report" && l.ops[0].y == 20.0
    ensures l.ops[1].text == "Generated: " + generated && l.ops[1].y == 28.0
  {
    Layout(40.0, 1, [ TextOp(1, "Link Traffic Analysis Report", PageWidth / 2.0, 20.0),
                      TextOp(1, "Generated: " + generated, PageWidth / 2.0, 28.0) ])
  }

  /** Moves to a new page when y is past `limit`. */
  function BreakBelow(l: Layout, limit: real): (b: Layout)
    requires limit >= TopMargin
    ensures b.y <= limit && b.ops == l.ops
    ensures b.pages == if l.y > limit then l.pages + 1 else l.pages
    ensures l.y <= limit ==> b == l
  {
    if l.y > limit then Layout(TopMargin, l.pages + 1, l.ops) else l
  }

  /** The screenshot part of a block: drawn only when the result has a screenshot URL
      and fetching it gave image data. */
  function ScreenshotBlock(l: Layout, wanted: bool, shot: Option<string>): (s: Layout)
    ensures !(wanted && shot.Some?) ==> s == l
    ensures wanted && shot.Some? ==>
      var b := BreakBelow(l, ScreenshotLimit);
      && b.y <= ScreenshotLimit
      && s.pages == b.pages
      && s.ops == l.ops + [TextOp(b.pages, "Preview:", LeftMargin, b.y),
                           ImageOp(b.pages, shot.value, LeftMargin, b.y + 3.0, ImageWidth, ImageHeight)]
      && s.y == b.y + 3.0 + ImageHeight + 5.0
  {
    if wanted && shot.Some? then
      var b := BreakBelow(l, ScreenshotLimit);
      Layout(b.y + 3.0 + ImageHeight + 5.0, b.pages,
             b.ops + [TextOp(b.pages, "Preview:", LeftMargin, b.y),
                      ImageOp(b.pages, shot.value, LeftMargin, b.y + 3.0, ImageWidth, ImageHeight)])
    else l
  }

  /** The start of every block: the page-break check, then the URL heading and the
      data-source line, 6 apart, leaving y 12 further down. */
  function BlockHeading(l: Layout, r: AnalysisResult): Layout
  {
    var b := BreakBelow(l, BlockLimit);
    Layout(b.y + 12.0, b.pages,
           b.ops + [TextOp(b.pages, DisplayUrl(r.url), LeftMargin, b.y),
                    TextOp(b.pages, "Data Source: " + SourceName(r.dataSource), LeftMargin, b.y + 6.0)])
  }

  /** The metrics table at y; writing resumes 5 below where the table ended. */
  function TablePart(l: Layout, r: AnalysisResult, finish: TableFinish): Layout
  {
    Layout(finish.finalY + 5.0, l.pages + finish.pagesAdded,
           l.ops + [TableOp(l.pages, l.y, TableHead, TableData(r))])
  }

  /** A line of text at y, followed by `gap` of space. */
  function Line(l: Layout, text: string, gap: real): Layout
  {
    Layout(l.y + gap, l.pages, l.ops + [TextOp(l.pages, text, LeftMargin, l.y)])
  }

  /** One iteration of the results loop. `finish` is what the table reports and `shot`
      what fetching the screenshot gives; neither is used for a result with an error. */
  function PlaceResult(l: Layout, r: AnalysisResult, finish: TableFinish, shot: Option<string>,
                       formatTime: string -> string): Layout
  {
    var h := BlockHeading(l, r);
    if TruthyString(r.error) then Line(h, "Error: " + r.error.value, 15.0)
    else
      var s := ScreenshotBlock(TablePart(h, r, finish), TruthyString(r.screenshotUrl), shot);
      Line(s, "Analyzed: " + formatTime(r.analyzedAt), 15.0)
  }

  /** The layout after the first `n` results. */
  function LayoutPrefix(results: seq<AnalysisResult>, n: nat, generated: string, tables: nat -> TableFinish,
                        shots: nat -> Option<string>, formatTime: string -> string): Layout
    requires n <= |results|
  {
    if n == 0 then Initial(generated)
    else PlaceResult(LayoutPrefix(results, n - 1, generated, tables, shots, formatTime),
                     results[n - 1], tables(n - 1), shots(n - 1), formatTime)
  }

  /** "Page i of n". */
  function FooterText(i: nat, n: nat): string
  {
    "Page " + NatToString(i) + " of " + NatToString(n)
  }

  /** The footers of pages 1..k of an n-page document, 10mm above the bottom edge. */
  function Footers(k: nat, n: nat): (f: seq<DrawOp>)
    ensures |f| == k
    ensures forall i :: 0 <= i < k ==> f[i] == TextOp(i + 1, FooterText(i + 1, n), PageWidth / 2.0, PageHeight - 10.0)
  {
    seq(k, i requires 0 <= i < k => TextOp(i + 1, FooterText(i + 1, n), PageWidth / 2.0, PageHeight - 10.0))
  }

  datatype PdfResponse =
    | Status400(error: string)
    | Status500(error: string)
    | Pdf(pageCount: nat, ops: seq<DrawOp>, filename: string)

  /** The sentiment cell names the label and carries the score, which reads back. */
  lemma SentimentTextReadsBack(s: SentimentResult)
    ensures var t, p := SentimentText(s), LabelName(s.category) + " (score: ";
      && |t| > |p| && t[..|p|] == p && t[|t| - 1] == ')'
      && ParseInt(t[|p|..|t| - 1]) == Some(s.score)
  {
    var p, number := LabelName(s.category) + " (score: ", IntToString(s.score);
    var t := p + number + ")";
    assert t == SentimentText(s);
    assert t[..|p|] == p;
    assert t[|p|..|t| - 1] == number;
    ParseIntIntToString(s.score);
  }

  /** A footer starts with "Page " and ends with " of " and the page count. */
  lemma {:induction false} FooterTextShape(i: nat, n: nat)
    ensures |FooterText(i, n)| > 5 && FooterText(i, n)[..5] == "Page "
    ensures JsStrings.EndsWith(FooterText(i, n), " of " + NatToString(n))
  {
    var page, total := NatToString(i), " of " + NatToString(n);
    assert FooterText(i, n) == ("Page " + page) + total;
  }

  /** The page number after "Page " reads back as i. */
  lemma {:induction false} FooterPageNumber(i: nat, n: nat)
    ensures |FooterText(i, n)| > 5 && ParseInt(FooterText(i, n)[5..]) == Some(i)
  {
    var page, total := NatToString(i), " of " + NatToString(n);
    assert FooterText(i, n)[5..] == page + total;
    ParseIntStopsAfter(i, total);
  }

  /** The heading: after the break check, the display URL and, 6 lower, the data
      source, on the last page, with y 12 further down; earlier drawings are kept. */
  lemma HeadingDraws(l: Layout, r: AnalysisResult)
    ensures var h, b := BlockHeading(l, r), BreakBelow(l, BlockLimit);
      && h.pages == b.pages && h.y == b.y + 12.0
      && |h.ops| == |l.ops| + 2 && h.ops[..|l.ops|] == l.ops
      && h.ops[|l.ops|] == TextOp(b.pages, DisplayUrl(r.url), LeftMargin, b.y)
      && h.ops[|l.ops| + 1] == TextOp(b.pages, "Data Source: " + SourceName(r.dataSource), LeftMargin, b.y + 6.0)
  {
  }

  /** The table: one table drawing at y on the last page; the pages it reports are
      added and writing resumes 5 below where it ended. */
  lemma TableDraws(l: Layout, r: AnalysisResult, finish: TableFinish)
    ensures var t := TablePart(l, r, finish);
      && t.pages == l.pages + finish.pagesAdded && t.y == finish.finalY + 5.0
      && |t.ops| == |l.ops| + 1 && t.ops[..|l.ops|] == l.ops
      && t.ops[|l.ops|] == TableOp(l.pages, l.y, TableHead, TableData(r))
  {
  }

  /** A line: one text at y on the last page, then `gap` of space. */
  lemma LineDraws(l: Layout, text: string, gap: real)
    ensures var n := Line(l, text, gap);
      && n.pages == l.pages && n.y == l.y + gap
      && |n.ops| == |l.ops| + 1 && n.ops[..|l.ops|] == l.ops
      && n.ops[|l.ops|] == TextOp(l.pages, text, LeftMargin, l.y)
  {
  }

  lemma PrefixOfPrefix(a: seq<DrawOp>, b: seq<DrawOp>, c: seq<DrawOp>)
    requires |a| <= |b| && b[..|a|] == a && |b| <= |c| && c[..|b|] == b
    ensures c[..|a|] == a
  {
    assert c[..|a|] == c[..|b|][..|a|];
  }

  /** A result's block starts no lower than y = 240, its heading is its display URL,
      and what was drawn before it is left as it was. */
  lemma BlockStartsHigh(l: Layout, r: AnalysisResult, finish: TableFinish, shot: Option<string>,
                        formatTime: string -> string)
    ensures var out := PlaceResult(l, r, finish, shot, formatTime);
      && |out.ops| > |l.ops| && out.ops[..|l.ops|] == l.ops
      && out.ops[|l.ops|].TextOp? && out.ops[|l.ops|].text == DisplayUrl(r.url)
      && out.ops[|l.ops|].y <= BlockLimit
  {
  }

  /** A result with an error takes exactly 6 + 6 + 15 of height and three lines of text:
      no table, no screenshot, no timestamp, and no new page beyond the break. */
  lemma ErrorBlockHeight(l: Layout, r: AnalysisResult, finish: TableFinish, shot: Option<string>,
                         formatTime: string -> string)
    requires TruthyString(r.error)
    ensures var out := PlaceResult(l, r, finish, shot, formatTime);
            var b := BreakBelow(l, BlockLimit);
      && out.y == b.y + 27.0 && out.pages == b.pages
      && |out.ops| == |l.ops| + 3
      && forall k :: |l.ops| <= k < |out.ops| ==> out.ops[k].TextOp?
  {
  }

  /** A result without an error draws, after its heading, its metrics table, then the
      screenshot (two drawings) exactly when it has a screenshot URL and image data,
      then the timestamp line, leaving 15 below it. */
  lemma AnalyzedBlockOrder(l: Layout, r: AnalysisResult, finish: TableFinish, shot: Option<string>,
                           formatTime: string -> string)
    requires !TruthyString(r.error)
    ensures var out := PlaceResult(l, r, finish, shot, formatTime);
      && |out.ops| == |l.ops| + (if TruthyString(r.screenshotUrl) && shot.Some? then 6 else 4)
      && out.ops[|l.ops| + 2].TableOp? && out.ops[|l.ops| + 2].body == TableData(r)
      && out.ops[|out.ops| - 1].TextOp?
      && out.ops[|out.ops| - 1].text == "Analyzed: " + formatTime(r.analyzedAt)
      && out.y == out.ops[|out.ops| - 1].y + 15.0
  {
    var h := BlockHeading(l, r);
    HeadingDraws(l, r);
    var t := TablePart(h, r, finish);
    TableDraws(h, r, finish);
    var s := ScreenshotBlock(t, TruthyString(r.screenshotUrl), shot);
    LineDraws(s, "Analyzed: " + formatTime(r.analyzedAt), 15.0);
  }

  /** Laying out a result never removes a page. */
  lemma PlaceResultAddsPages(l: Layout, r: AnalysisResult, finish: TableFinish, shot: Option<string>,
                             formatTime: string -> string)
    ensures l.pages <= PlaceResult(l, r, finish, shot, formatTime).pages
  {
  }

  /** Laying out a result never removes a page, and draws only on pages that exist. */
  lemma PlaceResultKeepsPages(l: Layout, r: AnalysisResult, finish: TableFinish, shot: Option<string>,
                              formatTime: string -> string)
    requires l.pages >= 1 && OnExistingPages(l)
    ensures var out := PlaceResult(l, r, finish, shot, formatTime);
      l.pages <= out.pages && OnExistingPages(out)
  {
    var h := BlockHeading(l, r);
    HeadingDraws(l, r);
    StillOnExistingPages(l, h);
    if TruthyString(r.error) {
      var e := Line(h, "Error: " + r.error.value, 15.0);
      LineDraws(h, "Error: " + r.error.value, 15.0);
      StillOnExistingPages(h, e);
    } else {
      var t := TablePart(h, r, finish);
      TableDraws(h, r, finish);
      StillOnExistingPages(h, t);
      var s := ScreenshotBlock(t, TruthyString(r.screenshotUrl), shot);
      if TruthyString(r.screenshotUrl) && shot.Some? {
        StillOnExistingPages(t, s);
      }
      var a := Line(s, "Analyzed: " + formatTime(r.analyzedAt), 15.0);
      LineDraws(s, "Analyzed: " + formatTime(r.analyzedAt), 15.0);
      StillOnExistingPages(s, a);
    }
  }

  /** Laying out a result only appends drawings. */
  lemma PlaceResultAppends(l: Layout, r: AnalysisResult, finish: TableFinish, shot: Option<string>,
                           formatTime: string -> string)
    ensures var out := PlaceResult(l, r, finish, shot, formatTime);
      |l.ops| <= |out.ops| && out.ops[..|l.ops|] == l.ops
  {
    var h := BlockHeading(l, r);
    HeadingDraws(l, r);
    if TruthyString(r.error) {
      LineDraws(h, "Error: " + r.error.value, 15.0);
      PrefixOfPrefix(l.ops, h.ops, Line(h, "Error: " + r.error.value, 15.0).ops);
    } else {
      var t := TablePart(h, r, finish);
      TableDraws(h, r, finish);
      PrefixOfPrefix(l.ops, h.ops, t.ops);
      var s := ScreenshotBlock(t, TruthyString(r.screenshotUrl), shot);
      assert |t.ops| <= |s.ops| && s.ops[..|t.ops|] == t.ops;
      PrefixOfPrefix(l.ops, t.ops, s.ops);
      LineDraws(s, "Analyzed: " + formatTime(r.analyzedAt), 15.0);
      PrefixOfPrefix(l.ops, s.ops, Line(s, "Analyzed: " + formatTime(r.analyzedAt), 15.0).ops);
    }
  }

  /** Drawings appended on pages that exist keep every drawing on one. */
  lemma StillOnExistingPages(l: Layout, out: Layout)
    requires OnExistingPages(l) && l.pages <= out.pages
    requires |l.ops| <= |out.ops| && out.ops[..|l.ops|] == l.ops
    requires forall k :: |l.ops| <= k < |out.ops| ==> 1 <= out.ops[k].page <= out.pages
    ensures OnExistingPages(out)
  {
    forall k | 0 <= k < |l.ops|
      ensures 1 <= out.ops[k].page <= out.pages
    {
      assert out.ops[k] == out.ops[..|l.ops|][k];
    }
  }

  /** No drawing after any number of results is on a page that does not exist. */
  lemma {:induction false} DrawingsOnExistingPages(results: seq<AnalysisResult>, n: nat, generated: string,
                                                   tables: nat -> TableFinish, shots: nat -> Option<string>,
                                                   formatTime: string -> string)
    requires n <= |results|
    ensures LayoutPrefix(results, n, generated, tables, shots, formatTime).pages >= 1
    ensures OnExistingPages(LayoutPrefix(results, n, generated, tables, shots, formatTime))
  {
    if n > 0 {
      DrawingsOnExistingPages(results, n - 1, generated, tables, shots, formatTime);
      var prev := LayoutPrefix(results, n - 1, generated, tables, shots, formatTime);
      assert LayoutPrefix(results, n, generated, tables, shots, formatTime)
          == PlaceResult(prev, results[n - 1], tables(n - 1), shots(n - 1), formatTime);
      PlaceResultKeepsPages(prev, results[n - 1], tables(n - 1), shots(n - 1), formatTime);
    }
  }

  /** Drawing is append-only: the drawings after n results start those after n + 1. */
  lemma LayoutPrefixStep(results: seq<AnalysisResult>, n: nat, generated: string,
                         tables: nat -> TableFinish, shots: nat -> Option<string>,
                         formatTime: string -> string)
    requires n < |results|
    ensures var a, b := LayoutPrefix(results, n, generated, tables, shots, formatTime),
                        LayoutPrefix(results, n + 1, generated, tables, shots, formatTime);
      |a.ops| <= |b.ops| && b.ops[..|a.ops|] == a.ops
  {
    PlaceResultAppends(LayoutPrefix(results, n, generated, tables, shots, formatTime),
                       results[n], tables(n), shots(n), formatTime);
  }

  /** Pages are only ever added: laying out one more result never removes one. */
  lemma PagesOnlyGrow(results: seq<AnalysisResult>, n: nat, generated: string, tables: nat -> TableFinish,
                      shots: nat -> Option<string>, formatTime: string -> string)
    requires n < |results|
    ensures LayoutPrefix(results, n, generated, tables, shots, formatTime).pages
         <= LayoutPrefix(results, n + 1, generated, tables, shots, formatTime).pages
  {
    var prev := LayoutPrefix(results, n, generated, tables, shots, formatTime);
    PlaceResultAddsPages(prev, results[n], tables(n), shots(n), formatTime);
  }

  /** The pages something is drawn on. */
  function PagesOf(ops: seq<DrawOp>): set<nat>
  {
    set k | 0 <= k < |ops| :: ops[k].page
  }

  /** The footers of the first k pages are on exactly the pages 1..k. */
  lemma {:induction false} FooterPages(k: nat, n: nat)
    ensures forall p: nat :: p in PagesOf(Footers(k, n)) <==> 1 <= p <= k
  {
    if k > 0 {
      FooterPages(k - 1, n);
      var f, g := Footers(k, n), Footers(k - 1, n);
      assert f == g + [f[k - 1]];
      assert PagesOf(f) == PagesOf(g) + {k} by {
        forall p | p in PagesOf(f) ensures p in PagesOf(g) + {k} {
          var j :| 0 <= j < |f| && f[j].page == p;
          if j < k - 1 { assert g[j] == f[j]; }
        }
        forall p | p in PagesOf(g) ensures p in PagesOf(f) {
          var j :| 0 <= j < |g| && g[j].page == p;
          assert f[j] == g[j];
        }
        assert f[k - 1].page == k;
      }
    }
  }

  /** Every page 1..n of an n-page document gets a footer, no page gets two, and each
      footer names its page and the total. */
  lemma FootersNumberEveryPage(n: nat)
    ensures var f := Footers(n, n);
      && (forall p: nat :: p in PagesOf(f) <==> 1 <= p <= n)
      && (forall j, k :: 0 <= j < k < |f| ==> f[j].page != f[k].page)
      && (forall k :: 0 <= k < |f| ==> f[k].text == FooterText(f[k].page, n))
  {
    FooterPages(n, n);
  }

  /** The page-break check and the two heading lines, on the document. */
  method DrawHeading(doc: PdfDocument, y: real, r: AnalysisResult) returns (y': real)
    requires doc.Valid() && doc.current == doc.pageCount
    modifies doc
    ensures doc.Valid() && doc.current == doc.pageCount
    ensures Layout(y', doc.pageCount, doc.ops) == BlockHeading(Layout(y, old(doc.pageCount), old(doc.ops)), r)
  {
    y' := y;
    if y' > BlockLimit {
      doc.AddPage();
      y' := TopMargin;
    }
    doc.Text(DisplayUrl(r.url), LeftMargin, y');
    y' := y' + 6.0;
    doc.Text("Data Source: " + SourceName(r.dataSource), LeftMargin, y');
    y' := y' + 6.0;
  }

  /** The caption and the image, on a new page when the caption would lie below 200. */
  method DrawScreenshot(doc: PdfDocument, y: real, data: string) returns (y': real)
    requires doc.Valid() && doc.current == doc.pageCount
    modifies doc
    ensures doc.Valid() && doc.current == doc.pageCount
    ensures Layout(y', doc.pageCount, doc.ops)
         == ScreenshotBlock(Layout(y, old(doc.pageCount), old(doc.ops)), true, Some(data))
  {
    y' := y;
    if y' > ScreenshotLimit {
      doc.AddPage();
      y' := TopMargin;
    }
    doc.Text("Preview:", LeftMargin, y');
    y' := y' + 3.0;
    doc.AddImage(data, LeftMargin, y', ImageWidth, ImageHeight);
    y' := y' + ImageHeight + 5.0;
  }

  /** The body of the results loop, on the document. */
  method PlaceOne(doc: PdfDocument, y: real, r: AnalysisResult, finish: TableFinish, shot: Option<string>,
                  formatTime: string -> string) returns (y': real)
    requires doc.Valid() && doc.current == doc.pageCount
    modifies doc
    ensures doc.Valid() && doc.current == doc.pageCount
    ensures Layout(y', doc.pageCount, doc.ops)
         == PlaceResult(Layout(y, old(doc.pageCount), old(doc.ops)), r, finish, shot, formatTime)
  {
    ghost var start := Layout(y, doc.pageCount, doc.ops);
    y' := DrawHeading(doc, y, r);
    ghost var h := Layout(y', doc.pageCount, doc.ops);
    assert h == BlockHeading(start, r);
    if TruthyString(r.error) {
      doc.Text("Error: " + r.error.value, LeftMargin, y');
      y' := y' + 15.0;
    } else {
      var finalY := doc.AutoTable(y', TableHead, TableData(r), finish);
      y' := finalY + 5.0;
      ghost var t := Layout(y', doc.pageCount, doc.ops);
      assert t == TablePart(h, r, finish);
      if TruthyString(r.screenshotUrl) && shot.Some? {
        y' := DrawScreenshot(doc, y', shot.value);
      }
      assert Layout(y', doc.pageCount, doc.ops) == ScreenshotBlock(t, TruthyString(r.screenshotUrl), shot);
      doc.Text("Analyzed: " + formatTime(r.analyzedAt), LeftMargin, y');
      y' := y' + 15.0;
    }
  }

  /** `POST /api/export/pdf`. `generated` is the clock as `toLocaleString` shows it,
      `tables(i)` what `autoTable` reports for result i, `shots(i)` the image data the
      fetch of result i's screenshot gives (`None` when it fails) and `isoNow` the
      clock as an ISO-8601 text. */
  method RenderPdf(request: ExportRequest, generated: string, tables: nat -> TableFinish,
                   shots: nat -> Option<string>, formatTime: string -> string, isoNow: string)
    returns (response: PdfResponse)
    ensures request.Unparsable? ==> response == PdfResponse.Status500("Failed to generate PDF")
    ensures request.Body? && !HasResults(request) ==> response == PdfResponse.Status400("No results to export")
    ensures HasResults(request) ==>
      var items := request.results.items;
      var final := LayoutPrefix(items, |items|, generated, tables, shots, formatTime);
      response == Pdf(final.pages, final.ops + Footers(final.pages, final.pages),
                      "link-traffic-report-" + DatePart(isoNow) + ".pdf")
  {
    if request.Unparsable? {
      return PdfResponse.Status500("Failed to generate PDF");
    }
    if !HasResults(request) {
      return PdfResponse.Status400("No results to export");
    }
    var results := request.results.items;
    var doc := new PdfDocument();
    doc.Text("Link Traffic Analysis Report", PageWidth / 2.0, 20.0);
    doc.Text("Generated: " + generated, PageWidth / 2.0, 28.0);
    LayOutResults(doc, results, generated, tables, shots, formatTime);
    DrawFooters(doc);
    response := Pdf(doc.pageCount, doc.ops, "link-traffic-report-" + DatePart(isoNow) + ".pdf");
  }

  /** The results loop, from y = 40 below the title. */
  method LayOutResults(doc: PdfDocument, results: seq<AnalysisResult>, generated: string,
                       tables: nat -> TableFinish, shots: nat -> Option<string>, formatTime: string -> string)
    requires doc.Valid() && doc.current == doc.pageCount
    requires Layout(40.0, doc.pageCount, doc.ops) == Initial(generated)
    modifies doc
    ensures doc.Valid() && doc.current == doc.pageCount
    ensures var final := LayoutPrefix(results, |results|, generated, tables, shots, formatTime);
      doc.pageCount == final.pages && doc.ops == final.ops
  {
    var y := 40.0;
    for i := 0 to |results|
      invariant doc.Valid() && doc.current == doc.pageCount
      invariant Layout(y, doc.pageCount, doc.ops) == LayoutPrefix(results, i, generated, tables, shots, formatTime)
    {
      y := PlaceOne(doc, y, results[i], tables(i), shots(i), formatTime);
    }
  }

  /** The footer loop: "Page i of n" on every page i. */
  method DrawFooters(doc: PdfDocument)
    requires doc.Valid()
    modifies doc
    ensures doc.Valid() && doc.pageCount == old(doc.pageCount)
    ensures doc.ops == old(doc.ops) + Footers(doc.pageCount, doc.pageCount)
  {
    var pageCount := doc.pageCount;
    for i := 1 to pageCount + 1
      invariant doc.Valid() && doc.pageCount == pageCount
      invariant doc.ops == old(doc.ops) + Footers(i - 1, pageCount)
    {
      doc.SetPage(i);
      doc.Text(FooterText(i, pageCount), PageWidth / 2.0, PageHeight - 10.0);
      assert Footers(i, pageCount) == Footers(i - 1, pageCount) + [TextOp(i, FooterText(i, pageCount), PageWidth / 2.0, PageHeight - 10.0)];
    }
  }
}
