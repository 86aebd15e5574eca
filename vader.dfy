/** `VaderSentimentCollector` without the analyzer and the scrapers: the
    label of a compound score and the aggregate over a list of headlines.
    The compound score of a headline (VADER's `polarity_scores`) is a
    parameter, so a headline list is read through it. */
module Vader {
  import opened Common

  datatype Label = VeryPositive | Positive | Neutral | Negative | VeryNegative

  /** `_classify_sentiment`: five bands of the compound score, closed at
      0.5 and 0.05 from above and open at -0.05 and -0.5 from below. */
  function ClassifySentiment(compound: real): (r: Label)
    ensures r == VeryPositive <==> compound >= 0.5
    ensures r == Positive <==> 0.05 <= compound < 0.5
    ensures r == Neutral <==> -0.05 < compound < 0.05
    ensures r == Negative <==> -0.5 < compound <= -0.05
    ensures r == VeryNegative <==> compound <= -0.5
  {
    if compound >= 0.5 then VeryPositive
    else if compound >= 0.05 then Positive
    else if compound > -0.05 then Neutral
    else if compound > -0.5 then Negative
    else VeryNegative
  }

  /** The labels from most negative (0) to most positive (4). */
  function Rank(l: Label): nat
  {
    match l
    case VeryNegative => 0
    case Negative => 1
    case Neutral => 2
    case Positive => 3
    case VeryPositive => 4
  }

  /** A higher compound score never gets a more negative label. */
  lemma ClassifyMonotone(a: real, b: real)
    requires a <= b
    ensures Rank(ClassifySentiment(a)) <= Rank(ClassifySentiment(b))
  {
  }

  // ---------------------------------------------------------------------
  // Aggregation

  /** The dictionary `analyze_headlines` returns, without the timestamp and
      with the mean and the two percentages unrounded (the source rounds
      them to 3 and 1 decimals). */
  datatype Aggregate = Aggregate(
    avgSentiment: real,
    sentimentLabel: Label,
    positiveCount: nat,
    negativeCount: nat,
    neutralCount: nat,
    totalHeadlines: nat,
    positivePct: real,
    negativePct: real)

  /** The counting rules of `analyze_headlines`: strictly above 0.05 is
      positive, strictly below -0.05 negative, the rest neutral. */
  predicate IsPositiveScore(s: real) { s > 0.05 }
  predicate IsNegativeScore(s: real) { s < -0.05 }
  predicate IsNeutralScore(s: real) { -0.05 <= s <= 0.05 }

  /** `_empty_result`. */
  function EmptyResult(): Aggregate
  {
    Aggregate(0.0, Neutral, 0, 0, 0, 0, 0.0, 0.0)
  }

  /** The compound score of every headline, in order. */
  function Scores(headlines: seq<string>, compound: string -> real): (r: seq<real>)
    ensures |r| == |headlines|
    ensures forall i | 0 <= i < |r| :: r[i] == compound(headlines[i])
  {
    seq(|headlines|, i requires 0 <= i < |headlines| => compound(headlines[i]))
  }

  /** The three counting rules split every list of scores. */
  lemma {:induction false} CountsPartition(s: seq<real>)
    ensures |Filter(s, IsPositiveScore)| + |Filter(s, IsNegativeScore)| + |Filter(s, IsNeutralScore)| == |s|
  {
    if s != [] {
      var s', x := s[..|s| - 1], s[|s| - 1];
      assert s == s' + [x];
      CountsPartition(s');
      FilterAppend(s', x, IsPositiveScore);
      FilterAppend(s', x, IsNegativeScore);
      FilterAppend(s', x, IsNeutralScore);
    }
  }

  /** `analyze_headlines`.  The neutral count is what the positive and
      negative counts leave of the total; an empty list has zero counts,
      label neutral and total zero. */
  function AnalyzeHeadlines(headlines: seq<string>, compound: string -> real): (r: Aggregate)
    ensures |headlines| == 0 ==> r == EmptyResult() && r.sentimentLabel == Neutral && r.avgSentiment == 0.0
    ensures r.totalHeadlines == |headlines|
    ensures r.positiveCount + r.negativeCount + r.neutralCount == r.totalHeadlines
    ensures r.positiveCount == |Filter(Scores(headlines, compound), IsPositiveScore)|
    ensures r.negativeCount == |Filter(Scores(headlines, compound), IsNegativeScore)|
    ensures r.neutralCount == |Filter(Scores(headlines, compound), IsNeutralScore)|
  {
    if |headlines| == 0 then EmptyResult()
    else
      var scores := Scores(headlines, compound);
      var n := |scores|;
      var positive := |Filter(scores, IsPositiveScore)|;
      var negative := |Filter(scores, IsNegativeScore)|;
      CountsPartition(scores);
      var avg := Sum(scores) / n as real;
      Aggregate(avg, ClassifySentiment(avg), positive, negative, n - positive - negative, n,
        (positive as real / n as real) * 100.0, (negative as real / n as real) * 100.0)
  }

  /** For a non-empty list the label classifies the unrounded mean score,
      which lies within any bounds of the individual scores (so in [-1, 1]
      for VADER's compound scores). */
  lemma {:induction false} LabelOfMean(headlines: seq<string>, compound: string -> real, lo: real, hi: real)
    requires |headlines| > 0
    requires forall h | h in headlines :: lo <= compound(h) <= hi
    ensures AnalyzeHeadlines(headlines, compound).avgSentiment == Mean(Scores(headlines, compound))
    ensures AnalyzeHeadlines(headlines, compound).sentimentLabel == ClassifySentiment(Mean(Scores(headlines, compound)))
    ensures lo <= AnalyzeHeadlines(headlines, compound).avgSentiment <= hi
  {
    var s := Scores(headlines, compound);
    assert forall i | 0 <= i < |s| :: lo <= s[i] <= hi by {
      forall i | 0 <= i < |s| ensures lo <= s[i] <= hi {
        assert headlines[i] in headlines;
      }
    }
    MeanBounds(s, lo, hi);
  }

  /** The two percentages are shares of the total: each in [0, 100], and
      together at most 100. */
  lemma {:induction false} PercentagesBounded(headlines: seq<string>, compound: string -> real)
    ensures 0.0 <= AnalyzeHeadlines(headlines, compound).positivePct
    ensures 0.0 <= AnalyzeHeadlines(headlines, compound).negativePct
    ensures AnalyzeHeadlines(headlines, compound).positivePct
      + AnalyzeHeadlines(headlines, compound).negativePct <= 100.0
  {
    var r := AnalyzeHeadlines(headlines, compound);
    if |headlines| > 0 {
      var n := |headlines| as real;
      ShareSum(r.positiveCount as real, r.negativeCount as real, n);
    }
  }

  /** Shares of counts that add up to at most `n`. */
  lemma ShareSum(a: real, b: real, n: real)
    requires 0.0 <= a && 0.0 <= b && a + b <= n && n > 0.0
    ensures 0.0 <= (a / n) * 100.0 && 0.0 <= (b / n) * 100.0
    ensures (a / n) * 100.0 + (b / n) * 100.0 <= 100.0
  {
    assert a / n + b / n == (a + b) / n;
    QuotientBounds(a + b, n, 0.0, 1.0);
    QuotientBounds(a, n, 0.0, 1.0);
    QuotientBounds(b, n, 0.0, 1.0);
  }

  /** When every headline scores above 0.05, all are counted positive and
      the label is positive or very positive. */
  lemma {:induction false} AllPositive(headlines: seq<string>, compound: string -> real)
    requires |headlines| > 0
    requires forall h | h in headlines :: compound(h) > 0.05
    ensures AnalyzeHeadlines(headlines, compound).positiveCount == |headlines|
    ensures Rank(AnalyzeHeadlines(headlines, compound).sentimentLabel) >= Rank(Positive)
  {
    var s := Scores(headlines, compound);
    assert forall i | 0 <= i < |s| :: IsPositiveScore(s[i]) by {
      forall i | 0 <= i < |s| ensures IsPositiveScore(s[i]) {
        assert headlines[i] in headlines;
      }
    }
    FilterAll(s, IsPositiveScore);
    MeanAboveCutOff(s);
  }

  /** Scores all above 0.05 have a mean above 0.05. */
  lemma MeanAboveCutOff(s: seq<real>)
    requires |s| > 0 && forall i | 0 <= i < |s| :: IsPositiveScore(s[i])
    ensures IsPositiveScore(Mean(s))
  {
    var lo := SeqMin(s);
    var k :| 0 <= k < |s| && s[k] == lo;
    MeanBounds(s, lo, SeqMax(s));
  }

  /** The label and the counts use different cut-offs at 0.05: a single
      headline scoring exactly 0.05 is labelled positive but counted
      neutral. */
  lemma CutOffsDiffer(h: string, compound: string -> real)
    requires compound(h) == 0.05
    ensures AnalyzeHeadlines([h], compound).sentimentLabel == Positive
    ensures AnalyzeHeadlines([h], compound).positiveCount == 0
    ensures AnalyzeHeadlines([h], compound).neutralCount == 1
  {
    var s := Scores([h], compound);
    assert s == [0.05];
    assert Filter(s, IsPositiveScore) == [];
    assert Filter(s, IsNegativeScore) == [];
    assert Sum(s) == 0.05;
  }
}
