/** The browser page (app/page.tsx): the text box is split into URLs, checked, and the
    well-formed ones are sent for analysis; the page's state is the input text, the
    results shown, the loading flag and the error message. */
module HomePage {
  import opened Wrappers
  import opened JsStrings
  import opened Types
  import opened UrlFilter

  /** `f` applied to every element, in order. */
  function MapSeq<A, B>(f: A -> B, s: seq<A>): (r: seq<B>)
    ensures |r| == |s| && forall k :: 0 <= k < |s| ==> r[k] == f(s[k])
  {
    if s == [] then [] else MapSeq(f, s[..|s| - 1]) + [f(s[|s| - 1])]
  }

  /** Every line, trimmed. */
  function Trims(lines: seq<string>): (ts: seq<string>)
    ensures |ts| == |lines| && forall k :: 0 <= k < |lines| ==> ts[k] == Trim(lines[k])
  {
    MapSeq(Trim, lines)
  }

  /** The lines that are not blank, each trimmed, in order. */
  function NonBlank(lines: seq<string>): (urls: seq<string>)
    ensures |urls| <= |lines|
    ensures forall i :: 0 <= i < |urls| ==> urls[i] != "" && Trimmed(urls[i])
  {
    if lines == [] then []
    else
      var rest := NonBlank(lines[..|lines| - 1]);
      var t := Trim(lines[|lines| - 1]);
      if t == "" then rest else rest + [t]
  }

  /** No non-blank line is lost. */
  lemma {:induction false} NonBlankComplete(lines: seq<string>)
    ensures forall line :: line in lines && Trim(line) != "" ==> Trim(line) in NonBlank(lines)
  {
    if lines != [] {
      var init := lines[..|lines| - 1];
      NonBlankComplete(init);
      assert lines == init + [lines[|lines| - 1]];
      assert forall line :: line in lines ==> line == lines[|lines| - 1] || line in init;
    }
  }

  /** The positions of `ts` that hold a non-empty string. */
  function Filled(ts: seq<string>): (ks: set<nat>)
    ensures forall k: nat :: k in ks <==> k < |ts| && ts[k] != ""
  {
    set k: nat | k < |ts| && ts[k] != ""
  }

  /** Counting the filled positions one string at a time from the back. */
  lemma FilledLast(ts: seq<string>, t: string)
    ensures |Filled(ts + [t])| == |Filled(ts)| + (if t != "" then 1 else 0)
  {
    var n := |ts|;
    if t != "" {
      assert Filled(ts + [t]) == Filled(ts) + {n};
    } else {
      assert Filled(ts + [t]) == Filled(ts);
    }
  }

  /** One URL per line that is not blank: repeated lines are all kept. */
  lemma {:induction false} NonBlankCount(lines: seq<string>)
    ensures |NonBlank(lines)| == |Filled(Trims(lines))|
  {
    if lines == [] {
      assert Filled(Trims(lines)) == {};
    } else {
      var init, t := lines[..|lines| - 1], Trim(lines[|lines| - 1]);
      NonBlankCount(init);
      assert Trims(lines) == Trims(init) + [t];
      FilledLast(Trims(init), t);
    }
  }

  /** Nothing else is kept, and the order of the lines is kept: the result is the
      trimmed lines with the blank ones left out. */
  lemma {:induction false} NonBlankOrdered(lines: seq<string>)
    ensures IsSubsequence(NonBlank(lines), Trims(lines))
  {
    if lines != [] {
      var init, t := lines[..|lines| - 1], Trim(lines[|lines| - 1]);
      NonBlankOrdered(init);
      var rest, before := NonBlank(init), Trims(init);
      var ts := before + [t];
      assert Trims(lines) == ts;
      assert ts[..|ts| - 1] == before;
      if t != "" {
        var sub := rest + [t];
        assert sub[..|sub| - 1] == rest;
        assert IsSubsequence(sub, ts);
      } else {
        SubsequenceExtend(rest, before, t);
      }
    }
  }

  /** `parseUrls`: the non-blank lines of the input, trimmed, in order. */
  function ParseUrls(input: string): (urls: seq<string>)
    ensures |urls| <= multiset(input)['\n'] + 1
    ensures forall i :: 0 <= i < |urls| ==> urls[i] != "" && Trimmed(urls[i])
    ensures IsSubsequence(urls, Trims(Split(input, '\n')))
    ensures forall line :: line in Split(input, '\n') && Trim(line) != "" ==> Trim(line) in urls
    ensures |urls| == |Filled(Trims(Split(input, '\n')))|
  {
    SplitCount(input, '\n');
    NonBlankCount(Split(input, '\n'));
    NonBlankComplete(Split(input, '\n'));
    NonBlankOrdered(Split(input, '\n'));
    NonBlank(Split(input, '\n'))
  }

  /** `validateUrls`: the well-formed and the malformed entries, each in input order. */
  method ValidateUrls(urls: seq<string>, isUrl: string -> bool) returns (valid: seq<string>, invalid: seq<string>)
    ensures valid == Accepted(urls, isUrl)
    ensures invalid == Rejected(urls, isUrl)
  {
    valid, invalid := [], [];
    for i := 0 to |urls|
      invariant valid == Accepted(urls[..i], isUrl)
      invariant invalid == Rejected(urls[..i], isUrl)
    {
      var url := urls[i];
      assert urls[..i + 1][..i] == urls[..i] && urls[..i + 1][i] == url;
      if isUrl(url) {
        valid := valid + [url];
      } else {
        invalid := invalid + [url];
      }
    }
    assert urls[..|urls|] == urls;
  }

  /** What pressing Analyze decides before any request: refuse with a message, or send
      these URLs, with a warning about the malformed ones if there are any. */
  datatype Plan = Refuse(message: string) | Send(urls: seq<string>, warning: Option<string>)

  function PlanAnalyze(input: string, isUrl: string -> bool): (p: Plan)
    ensures ParseUrls(input) == [] ==> p == Refuse("Please enter at least one URL")
    ensures ParseUrls(input) != [] && Accepted(ParseUrls(input), isUrl) == [] ==>
      p == Refuse("No valid URLs found. URLs must include http:// or https://")
    ensures ParseUrls(input) != [] && Accepted(ParseUrls(input), isUrl) != [] ==> p.Send?
    ensures p.Send? ==>
      var urls := ParseUrls(input);
      && p.urls == Accepted(urls, isUrl) && p.urls != []
      && (p.warning.Some? <==> Rejected(urls, isUrl) != [])
      && (p.warning.Some? ==> p.warning.value == "Some URLs are invalid: " + Join(Rejected(urls, isUrl), ", "))
  {
    var urls := ParseUrls(input);
    if urls == [] then Refuse("Please enter at least one URL")
    else
      var valid, invalid := Accepted(urls, isUrl), Rejected(urls, isUrl);
      if valid == [] then Refuse("No valid URLs found. URLs must include http:// or https://")
      else if invalid != [] then Send(valid, Some("Some URLs are invalid: " + Join(invalid, ", ")))
      else Send(valid, None)
  }

  /** The checks `handleAnalyze` makes before any request, step by step. */
  method Prepare(input: string, isUrl: string -> bool) returns (plan: Plan)
    ensures plan == PlanAnalyze(input, isUrl)
  {
    var urls := ParseUrls(input);
    if |urls| == 0 {
      return Refuse("Please enter at least one URL");
    }
    var valid, invalid := ValidateUrls(urls, isUrl);
    if |valid| == 0 {
      return Refuse("No valid URLs found. URLs must include http:// or https://");
    }
    if |invalid| > 0 {
      plan := Send(valid, Some("Some URLs are invalid: " + Join(invalid, ", ")));
    } else {
      plan := Send(valid, None);
    }
  }

  /** Every URL the page sends is well-formed and was typed by the user. */
  lemma SentUrlsAreValid(input: string, isUrl: string -> bool)
    requires PlanAnalyze(input, isUrl).Send?
    ensures forall u :: u in PlanAnalyze(input, isUrl).urls ==> isUrl(u) && u in ParseUrls(input)
  {
  }

  /** How the analysis request ended: a results body, a status that is not ok, or a
      rejection carrying an `Error`'s message (`None` for anything else thrown). */
  datatype Reply = Delivered(results: seq<AnalysisResult>) | NotOk | FetchFailed(message: Option<string>)

  class Home {
    var urlInput: string
    var results: seq<AnalysisResult>
    var loading: bool
    var error: Option<string>

    constructor ()
      ensures urlInput == "" && results == [] && !loading && error == None
    {
      urlInput, results, loading, error := "", [], false, None;
    }

    /** `handleAnalyze`. It returns its decision: a refusal, or the URL list the
        request carried and the warning shown meanwhile. */
    method HandleAnalyze(isUrl: string -> bool, reply: Reply) returns (plan: Plan)
      modifies this
      ensures plan == PlanAnalyze(old(urlInput), isUrl)
      ensures urlInput == old(urlInput)
      ensures plan.Refuse? ==> error == Some(plan.message) && results == old(results) && loading == old(loading)
      ensures plan.Send? ==>
        && !loading
        && (reply.Delivered? ==> results == reply.results && error == plan.warning)
        && (reply.NotOk? ==> results == old(results) && error == Some("Analysis failed"))
        && (reply.FetchFailed? ==>
              results == old(results) && error == Some(reply.message.GetOr("Failed to analyze URLs")))
    {
      plan := Prepare(urlInput, isUrl);
      Carry(plan, reply);
    }

    /** What `handleAnalyze` does once it has decided: show the refusal, or send the
        request and show how it ended. */
    method Carry(plan: Plan, reply: Reply)
      modifies this
      ensures urlInput == old(urlInput)
      ensures plan.Refuse? ==> error == Some(plan.message) && results == old(results) && loading == old(loading)
      ensures plan.Send? ==>
        && !loading
        && (reply.Delivered? ==> results == reply.results && error == plan.warning)
        && (reply.NotOk? ==> results == old(results) && error == Some("Analysis failed"))
        && (reply.FetchFailed? ==>
              results == old(results) && error == Some(reply.message.GetOr("Failed to analyze URLs")))
    {
      match plan {
        case Refuse(message) =>
          error := Some(message);
        case Send(valid, warning) =>
          error := warning;
          loading := true;
          match reply {
            case Delivered(rs) => results := rs;
            case NotOk => error := Some("Analysis failed");
            case FetchFailed(message) => error := Some(message.GetOr("Failed to analyze URLs"));
          }
          loading := false;
      }
    }

    /** `handleClear`: empties the input, the results and the error. */
    method HandleClear()
      modifies this
      ensures urlInput == "" && results == [] && error == None && loading == old(loading)
    {
      urlInput, results, error := "", [], None;
    }
  }
}
