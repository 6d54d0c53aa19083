/**
 * The sentiment scorer (`get_sentiment`): the polarity of each sampled
 * headline is averaged, rescaled to 0..100 and labelled. The sample drawn from
 * the headline pool is an input, and so is the polarity analyser: `None` when
 * analysing a headline raised.
 */
module Sentiment {
  import opened Wrappers

  const MockHeadlines: seq<string> := [
    "Bitcoin rallies as institutional investors show strong interest",
    "Ethereum network upgrade improves transaction efficiency significantly",
    "Solana addresses scalability concerns with latest protocol update",
    "Cryptocurrency market shows signs of recovery and stability",
    "New regulatory framework could boost crypto adoption",
    "Market volatility raises concerns among traders",
    "Technical analysis indicates potential breakout patterns",
    "Experts remain optimistic about long-term crypto potential"
  ]

  /** What the random sample can be: 3 to 5 distinct headlines of the pool. */
  predicate IsSample(selected: seq<string>) {
    3 <= |selected| <= 5 &&
    (forall k :: 0 <= k < |selected| ==> selected[k] in MockHeadlines) &&
    (forall j, k :: 0 <= j < k < |selected| ==> selected[j] != selected[k])
  }

  datatype Label = Bullish | Neutral | Bearish

  /** The label as the dashboard prints it. */
  function LabelText(l: Label): (text: string)
    ensures text == "\U{1F7E2} BULLISH" <==> l == Bullish
    ensures text == "\U{1F7E1} NEUTRAL" <==> l == Neutral
    ensures text == "\U{1F534} BEARISH" <==> l == Bearish
  {
    match l
    case Bullish => "\U{1F7E2} BULLISH"
    case Neutral => "\U{1F7E1} NEUTRAL"
    case Bearish => "\U{1F534} BEARISH"
  }

  datatype SentimentResult = SentimentResult(score: real, sentiment: Label, headlines: seq<string>)

  /** The answer of the exception handler. */
  const Fallback: SentimentResult := SentimentResult(50.0, Neutral, [])

  /** The three-way label of a score. */
  function LabelFor(score: real): (l: Label)
    ensures l == Bullish <==> score >= 60.0
    ensures l == Neutral <==> 40.0 <= score < 60.0
    ensures l == Bearish <==> score < 40.0
  {
    if score >= 60.0 then Bullish else if score >= 40.0 then Neutral else Bearish
  }

  /** Python's `sum`, adding left to right. */
  function Sum(s: seq<real>): (total: real) {
    if s == [] then 0.0 else Sum(s[..|s| - 1]) + s[|s| - 1]
  }

  lemma {:induction false} SumBounds(s: seq<real>)
    requires forall k :: 0 <= k < |s| ==> -1.0 <= s[k] <= 1.0
    ensures -(|s| as real) <= Sum(s) <= |s| as real
  {
    if s != [] {
      var init := s[..|s| - 1];
      assert forall k :: 0 <= k < |init| ==> init[k] == s[k];
      SumBounds(init);
    }
  }

  /** A mean over `n` entries reaches a threshold exactly when the total reaches `n` times it. */
  lemma MeanThreshold(total: real, n: real, t: real)
    requires n > 0.0
    ensures total / n >= t <==> total >= t * n
    ensures total / n <= t <==> total <= t * n
  {
    var avg := total / n;
    assert avg * n == total;
    assert (avg - t) * n == total - t * n;
    if avg > t {
      assert (avg - t) * n > 0.0;
    } else if avg < t {
      assert (t - avg) * n > 0.0;
    }
  }

  /** The average polarity mapped from [-1, 1] onto a percentage. */
  function Percentage(avg: real): (pct: real)
    ensures -1.0 <= avg <= 1.0 ==> 0.0 <= pct <= 100.0
    ensures pct >= 60.0 <==> avg >= 0.2
    ensures pct < 40.0 <==> avg < -0.2
  {
    ((avg + 1.0) / 2.0) * 100.0
  }

  /** Every sampled headline was analysed. */
  predicate Analysed(selected: seq<string>, polarity: string -> Option<real>) {
    forall k :: 0 <= k < |selected| ==> polarity(selected[k]).Some?
  }

  function Polarities(selected: seq<string>, polarity: string -> Option<real>): (ps: seq<real>)
    requires Analysed(selected, polarity)
    ensures |ps| == |selected|
  {
    seq(|selected|, k requires 0 <= k < |selected| && Analysed(selected, polarity) =>
      polarity(selected[k]).value)
  }

  /** The result of `get_sentiment` for a given sample and analyser. */
  function SentimentOf(selected: seq<string>, polarity: string -> Option<real>): (r: SentimentResult)
    ensures r == Fallback <==> !Analysed(selected, polarity) || |selected| == 0
    ensures r.sentiment == LabelFor(r.score)
    ensures Analysed(selected, polarity) && |selected| > 0 ==>
      r.headlines == selected &&
      r.score == Percentage(Sum(Polarities(selected, polarity)) / |selected| as real)
  {
    if !Analysed(selected, polarity) || |selected| == 0 then Fallback
    else
      var scores := Polarities(selected, polarity);
      var pct := Percentage(Sum(scores) / |scores| as real);
      SentimentResult(pct, LabelFor(pct), selected)
  }

  /** `get_sentiment`: the polarity of each headline is collected, then averaged and labelled. */
  method GetSentiment(selected: seq<string>, polarity: string -> Option<real>)
    returns (r: SentimentResult)
    ensures r == SentimentOf(selected, polarity)
  {
    var sentimentScores: seq<real> := [];
    for i := 0 to |selected|
      invariant |sentimentScores| == i
      invariant forall k :: 0 <= k < i ==> polarity(selected[k]) == Some(sentimentScores[k])
    {
      var p := polarity(selected[i]);
      if p.None? {
        // the analyser raised; the exception handler answers the neutral default
        return Fallback;
      }
      sentimentScores := sentimentScores + [p.value];
    }
    if |sentimentScores| == 0 {
      // the average divides by zero; the exception handler answers the neutral default
      return Fallback;
    }
    assert sentimentScores == Polarities(selected, polarity);
    var avgSentiment := Sum(sentimentScores) / |sentimentScores| as real;
    var sentimentPercentage := ((avgSentiment + 1.0) / 2.0) * 100.0;
    var sentimentLabel;
    if sentimentPercentage >= 60.0 {
      sentimentLabel := Bullish;
    } else if sentimentPercentage >= 40.0 {
      sentimentLabel := Neutral;
    } else {
      sentimentLabel := Bearish;
    }
    r := SentimentResult(sentimentPercentage, sentimentLabel, selected);
  }

  /** With every polarity in [-1, 1] the score lies in [0, 100]. */
  lemma ScoreInRange(selected: seq<string>, polarity: string -> Option<real>)
    requires forall k :: 0 <= k < |selected| && polarity(selected[k]).Some? ==>
      -1.0 <= polarity(selected[k]).value <= 1.0
    ensures 0.0 <= SentimentOf(selected, polarity).score <= 100.0
  {
    if Analysed(selected, polarity) && |selected| > 0 {
      var scores := Polarities(selected, polarity);
      var n := |scores| as real;
      SumBounds(scores);
      MeanThreshold(Sum(scores), n, -1.0);
      MeanThreshold(Sum(scores), n, 1.0);
    }
  }

  /** The label always agrees with the thresholds, on the fallback path too. */
  lemma LabelMatchesScore(selected: seq<string>, polarity: string -> Option<real>)
    ensures var r := SentimentOf(selected, polarity);
      r.sentiment == LabelFor(r.score) &&
      (r.sentiment == Bullish <==> r.score >= 60.0) &&
      (r.sentiment == Neutral <==> 40.0 <= r.score < 60.0) &&
      (r.sentiment == Bearish <==> r.score < 40.0)
  {
  }

  /** A failing analyser, or nothing to average, gives score 50, NEUTRAL and no headlines. */
  lemma FailureGivesFallback(selected: seq<string>, polarity: string -> Option<real>)
    requires !Analysed(selected, polarity) || |selected| == 0
    ensures SentimentOf(selected, polarity) == SentimentResult(50.0, Neutral, [])
  {
  }

  /** A real sample that was fully analysed is scored, and its headlines are reported in order. */
  lemma SampleIsScored(selected: seq<string>, polarity: string -> Option<real>)
    requires IsSample(selected) && Analysed(selected, polarity)
    ensures SentimentOf(selected, polarity).headlines == selected
  {
  }

  /**
   * The label text the dashboard shows: green BULLISH from 60, yellow NEUTRAL
   * from 40, red BEARISH below, and yellow NEUTRAL on the fallback path.
   */
  lemma DisplayedLabel(selected: seq<string>, polarity: string -> Option<real>)
    ensures var r := SentimentOf(selected, polarity);
      (LabelText(r.sentiment) == "\U{1F7E2} BULLISH" <==> r.score >= 60.0) &&
      (LabelText(r.sentiment) == "\U{1F7E1} NEUTRAL" <==> 40.0 <= r.score < 60.0) &&
      (LabelText(r.sentiment) == "\U{1F534} BEARISH" <==> r.score < 40.0)
    ensures !Analysed(selected, polarity) || |selected| == 0 ==>
      LabelText(SentimentOf(selected, polarity).sentiment) == "\U{1F7E1} NEUTRAL"
  {
  }

  /**
   * On the scoring path the label follows the polarity total: BULLISH exactly
   * when it is at least 0.2 per headline, BEARISH exactly when it is below
   * -0.2 per headline.
   */
  lemma ScoredLabel(selected: seq<string>, polarity: string -> Option<real>)
    requires Analysed(selected, polarity) && |selected| > 0
    ensures var r := SentimentOf(selected, polarity);
      var total := Sum(Polarities(selected, polarity));
      (r.sentiment == Bullish <==> total >= 0.2 * |selected| as real) &&
      (r.sentiment == Bearish <==> total < -0.2 * |selected| as real)
  {
    var n := |selected| as real;
    var total := Sum(Polarities(selected, polarity));
    MeanThreshold(total, n, 0.2);
    MeanThreshold(total, n, -0.2);
  }

  /** The colour of the score display (green, red, gold). */
  function ScoreColor(score: real): (color: string)
    ensures color == LabelColor(LabelFor(score))
  {
    if score >= 60.0 then "#06FFA5" else if score < 40.0 then "#FF0040" else "#FFD700"
  }

  function LabelColor(l: Label): (color: string) {
    match l
    case Bullish => "#06FFA5"
    case Neutral => "#FFD700"
    case Bearish => "#FF0040"
  }

  /** The colour chosen from the score is the colour of the label. */
  lemma ColorMatchesLabel(selected: seq<string>, polarity: string -> Option<real>)
    ensures var r := SentimentOf(selected, polarity);
      ScoreColor(r.score) == LabelColor(r.sentiment)
  {
  }
}
