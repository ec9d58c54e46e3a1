/** Sentiment labelling (lib/sentiment.ts): the lexicon scorer's integer score is kept
    and mapped to one of three labels by two thresholds. */
module Sentiment {
  import opened Types
  import opened JsNumber

  /** What the lexicon scorer reports for a text: its total and its per-word score. */
  datatype LexiconScore = LexiconScore(score: int, comparative: real)

  /** The label thresholds: above 2 is positive, below -2 negative, the rest neutral. */
  function LabelFor(score: int): (l: Label)
    ensures l == Positive <==> score > 2
    ensures l == Negative <==> score < -2
    ensures l == Neutral <==> -2 <= score <= 2
  {
    if score > 2 then Positive
    else if score < -2 then Negative
    else Neutral
  }

  /** `Math.round(c * 100) / 100`: `c` to the nearest hundredth. */
  function RoundHundredths(c: real): (r: real)
    ensures c - 0.005 < r <= c + 0.005
  {
    Round(c * 100.0) as real / 100.0
  }

  /** `analyzeSentiment`, with the lexicon scorer as a parameter. */
  function AnalyzeSentiment(text: string, lexicon: string -> LexiconScore): (s: SentimentResult)
    ensures s.score == lexicon(text).score
    ensures s.category == Positive <==> s.score > 2
    ensures s.category == Negative <==> s.score < -2
    ensures s.category == Neutral <==> -2 <= s.score <= 2
    ensures lexicon(text).comparative - 0.005 < s.comparative <= lexicon(text).comparative + 0.005
  {
    var scored := lexicon(text);
    SentimentResult(scored.score, LabelFor(scored.score), RoundHundredths(scored.comparative))
  }
}
