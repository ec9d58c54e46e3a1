/** The analyse endpoint (app/api/analyze/route.ts): checks the request carries a
    non-empty array of URLs, splits it into well-formed and malformed entries, refuses the
    request when nothing is well-formed and otherwise analyses the well-formed ones only. */
module AnalyzeRoute {
  import opened Wrappers
  import opened Types
  import opened UrlFilter
  import opened Analyzer

  /** The `urls` field of the JSON body. */
  datatype UrlsField = Missing | NotAnArray | UrlArray(items: seq<string>)

  /** The request body: not JSON at all, or an object with a `urls` field. */
  datatype Request = Unparsable | Body(urls: UrlsField)

  datatype Response =
    | Status400(error: string, details: Option<seq<string>>)
    | Status500(error: string)
    | Status200(results: seq<AnalysisResult>)

  /** The `errors` entries for the malformed URLs, one per URL, in order. */
  function InvalidMessages(invalid: seq<string>): (messages: seq<string>)
    ensures |messages| == |invalid|
    ensures forall i :: 0 <= i < |invalid| ==> messages[i] == "Invalid URL: " + invalid[i]
  {
    seq(|invalid|, i requires 0 <= i < |invalid| => "Invalid URL: " + invalid[i])
  }

  /** The validation loop of `POST`: well-formed URLs are kept, the others reported. */
  method PartitionUrls(urls: seq<string>, isUrl: string -> bool) returns (valid: seq<string>, errors: seq<string>)
    ensures valid == Accepted(urls, isUrl)
    ensures errors == InvalidMessages(Rejected(urls, isUrl))
  {
    valid, errors := [], [];
    for i := 0 to |urls|
      invariant valid == Accepted(urls[..i], isUrl)
      invariant errors == InvalidMessages(Rejected(urls[..i], isUrl))
    {
      var url := urls[i];
      assert urls[..i + 1][..i] == urls[..i] && urls[..i + 1][i] == url;
      if isUrl(url) {
        valid := valid + [url];
      } else {
        errors := errors + ["Invalid URL: " + url];
        assert errors == InvalidMessages(Rejected(urls[..i + 1], isUrl));
      }
    }
    assert urls[..|urls|] == urls;
  }

  /** `POST /api/analyze`. `fetched(i)` is what the world gave the i-th valid URL. */
  method Post(request: Request, isUrl: string -> bool, env: Env, fetched: nat -> Fetched) returns (response: Response)
    ensures request.Unparsable? ==> response == Status500("Failed to analyze URLs")
    ensures request.Body? && !(request.urls.UrlArray? && |request.urls.items| > 0) ==>
      response == Status400("Please provide an array of URLs", None)
    ensures request.Body? && request.urls.UrlArray? && |request.urls.items| > 0 ==>
      var items := request.urls.items;
      && (Accepted(items, isUrl) == [] ==>
            response == Status400("No valid URLs provided", Some(InvalidMessages(Rejected(items, isUrl)))))
      && (Accepted(items, isUrl) != [] ==>
            response == Status200(AnalyzeUrls(Accepted(items, isUrl), env, fetched)))
  {
    if request.Unparsable? {
      return Status500("Failed to analyze URLs");
    }
    if !(request.urls.UrlArray? && |request.urls.items| > 0) {
      return Status400("Please provide an array of URLs", None);
    }
    var validUrls, errors := PartitionUrls(request.urls.items, isUrl);
    if |validUrls| == 0 {
      return Status400("No valid URLs provided", Some(errors));
    }
    var results := AnalyzeUrls(validUrls, env, fetched);
    response := Status200(results);
  }

  /** A successful response holds one result per well-formed URL, in order, and a
      refusal lists every malformed one; nothing is lost either way. */
  lemma ResponseAccountsForEveryUrl(items: seq<string>, isUrl: string -> bool, env: Env, fetched: nat -> Fetched)
    ensures var results := AnalyzeUrls(Accepted(items, isUrl), env, fetched);
            |results| + |InvalidMessages(Rejected(items, isUrl))| == |items|
    ensures var valid := Accepted(items, isUrl);
            forall i :: 0 <= i < |valid| ==> AnalyzeUrls(valid, env, fetched)[i].url == valid[i] && isUrl(valid[i])
  {
    PartitionCounts(items, isUrl);
  }
}
