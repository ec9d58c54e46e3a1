/** The records the application passes between server and browser (types/index.ts).
    Optional fields (`field?: T`) are `Option`s. */
module Types {
  import opened Wrappers

  datatype Label = Positive | Neutral | Negative

  /** The label as the JSON string the browser receives. */
  function LabelName(l: Label): string
  {
    match l
    case Positive => "Positive"
    case Neutral => "Neutral"
    case Negative => "Negative"
  }

  /** `label` is a reserved word in Dafny, so the label field is called `category`. */
  datatype SentimentResult = SentimentResult(score: int, category: Label, comparative: real)

  /** Provenance of the traffic figures: `'cloudflare'` or `'estimated'`. */
  datatype DataSource = Cloudflare | Estimated

  datatype AnalysisResult = AnalysisResult(
    url: string,
    reach: string,
    uniqueVisitors: string,
    pageViews: string,
    shareRate: string,
    sentiment: SentimentResult,
    analyzedAt: string,
    rank: Option<int>,
    bucket: Option<string>,
    dataSource: Option<DataSource>,
    screenshotUrl: Option<string>,
    error: Option<string>)

  /** JavaScript truthiness of an optional number: present and not 0. */
  predicate TruthyInt(o: Option<int>) {
    o.Some? && o.value != 0
  }

  /** JavaScript truthiness of an optional string: present and not empty. */
  predicate TruthyString(o: Option<string>) {
    o.Some? && o.value != ""
  }
}
