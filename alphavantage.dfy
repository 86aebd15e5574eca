/** `AlphaVantageCollector`: the relevance-weighted aggregate of a news
    feed's per-ticker sentiment, and the collection loop that stops at the
    daily call cap.  The HTTP request is a parameter (`fetch`) and the sleep
    between calls is left out. */
module AlphaVantage {
  import opened Common
  import opened Strings

  // ---------------------------------------------------------------------
  // The feed

  /** A JSON scalar the feed may hold where a score is expected. */
  datatype Json = Num(x: real) | Str(s: string)

  /** One entry of an article's `ticker_sentiment` list.  A missing `ticker`
      key reads as the empty string. */
  datatype TickerSentiment = TickerSentiment(ticker: string, score: Field<Json>, relevance: Field<Json>)

  /** An article; a missing `ticker_sentiment` key is the empty list. */
  datatype Article = Article(tickerSentiment: seq<TickerSentiment>)

  /** `float(ts.get(key, 0))`: a missing key reads as 0, None raises
      TypeError and text goes through `float()`; `None` stands for the
      exception. */
  function ToFloat(f: Field<Json>): (r: Option<real>)
    ensures f.Missing? ==> r == Some(0.0)
    ensures f.Null? ==> r == None
    ensures f.Val? && f.value.Num? ==> r == Some(f.value.x)
  {
    match f
    case Missing => Some(0.0)
    case Null => None
    case Val(Num(x)) => Some(x)
    case Val(Str(s)) => ParseDecimal(s)
  }

  /** The entry is about `ticker` (compared upper-cased) and both of its
      numbers convert. */
  predicate Scored(ticker: string, ts: TickerSentiment)
  {
    Upper(ts.ticker) == Upper(ticker) && ToFloat(ts.score).Some? && ToFloat(ts.relevance).Some?
  }

  /** The two parallel lists the loops build. */
  datatype Matched = Matched(sentiments: seq<real>, relevances: seq<real>)

  function Then(a: Matched, b: Matched): Matched
  {
    Matched(a.sentiments + b.sentiments, a.relevances + b.relevances)
  }

  /** What one entry contributes: its two numbers, or nothing. */
  function EntryMatch(ticker: string, ts: TickerSentiment): (m: Matched)
    ensures |m.sentiments| == |m.relevances| <= 1
    ensures m.sentiments != [] <==> Scored(ticker, ts)
  {
    if Scored(ticker, ts)
    then Matched([ToFloat(ts.score).value], [ToFloat(ts.relevance).value])
    else Matched([], [])
  }

  /** The inner loop over one article's entries. */
  function EntriesMatch(ticker: string, entries: seq<TickerSentiment>): Matched
  {
    if entries == [] then Matched([], [])
    else Then(EntriesMatch(ticker, entries[..|entries| - 1]), EntryMatch(ticker, entries[|entries| - 1]))
  }

  /** The outer loop over the feed. */
  function FeedMatch(ticker: string, feed: seq<Article>): Matched
  {
    if feed == [] then Matched([], [])
    else Then(FeedMatch(ticker, feed[..|feed| - 1]), EntriesMatch(ticker, feed[|feed| - 1].tickerSentiment))
  }

  // ---------------------------------------------------------------------
  // The aggregate

  /** The dictionary `_calculate_aggregate_sentiment` returns, without the
      timestamp. */
  datatype NewsSentiment = NewsSentiment(
    ticker: string,
    newsSentiment: real,
    bullishPct: real,
    bearishPct: real,
    articlesAnalyzed: nat,
    sentimentScoreRaw: real)

  predicate IsBullish(s: real) { s > 0.05 }
  predicate IsBearish(s: real) { s < -0.05 }

  /** `sum(s * r for s, r in zip(sentiments, relevances))`: `zip` stops at
      the end of the shorter list. */
  function WeightedSum(s: seq<real>, r: seq<real>): real
  {
    Dot(s, r, if |s| <= |r| then |s| else |r|)
  }

  /** The sum of the first `n` products `s[k] * r[k]`. */
  function Dot(s: seq<real>, r: seq<real>, n: nat): real
    requires n <= |s| && n <= |r|
  {
    if n == 0 then 0.0 else Dot(s, r, n - 1) + s[n - 1] * r[n - 1]
  }

  /** The relevance-weighted mean, 0 when the total relevance is not
      positive; the plain mean when there are no relevances. */
  function Average(m: Matched): real
  {
    if m.relevances != [] then
      var total := Sum(m.relevances);
      if total > 0.0 then WeightedSum(m.sentiments, m.relevances) / total else 0.0
    else Mean(m.sentiments)
  }

  /** The part after the loops: nothing matched gives `None`; otherwise the
      average on the 0..1 scale and the bullish and bearish shares. */
  function Summarize(ticker: string, m: Matched, totalArticles: nat): Option<NewsSentiment>
  {
    if m.sentiments == [] then None
    else
      var avg := Average(m);
      var n := |m.sentiments|;
      var positive := |Filter(m.sentiments, IsBullish)|;
      var negative := |Filter(m.sentiments, IsBearish)|;
      Some(NewsSentiment(ticker, (avg + 1.0) / 2.0,
        if n > 0 then positive as real / n as real else 0.0,
        if n > 0 then negative as real / n as real else 0.0,
        totalArticles, avg))
  }

  /** `_calculate_aggregate_sentiment` as a value. */
  function AggregateSentiment(ticker: string, feed: seq<Article>): Option<NewsSentiment>
  {
    if feed == [] then None else Summarize(ticker, FeedMatch(ticker, feed), |feed|)
  }

  /** `_calculate_aggregate_sentiment`: the nested loops collect the score
      and relevance of every entry about the ticker whose numbers
      convert. */
  method CalculateAggregateSentiment(ticker: string, feed: seq<Article>) returns (r: Option<NewsSentiment>)
    ensures r == AggregateSentiment(ticker, feed)
  {
    if feed == [] {
      return None;
    }
    var sentimentScores: seq<real> := [];
    var relevanceScores: seq<real> := [];
    var i := 0;
    while i < |feed|
      invariant 0 <= i <= |feed|
      invariant Matched(sentimentScores, relevanceScores) == FeedMatch(ticker, feed[..i])
    {
      var entries := feed[i].tickerSentiment;
      var j := 0;
      while j < |entries|
        invariant 0 <= j <= |entries|
        invariant Matched(sentimentScores, relevanceScores)
          == Then(FeedMatch(ticker, feed[..i]), EntriesMatch(ticker, entries[..j]))
      {
        sentimentScores, relevanceScores := AddEntry(ticker, entries[j], sentimentScores, relevanceScores);
        EntriesStep(ticker, entries, j);
        ThenAssociative(FeedMatch(ticker, feed[..i]), EntriesMatch(ticker, entries[..j]), EntryMatch(ticker, entries[j]));
        j := j + 1;
      }
      assert entries[..j] == entries;
      FeedStep(ticker, feed, i);
      i := i + 1;
    }
    assert feed[..i] == feed;
    r := Summarize(ticker, Matched(sentimentScores, relevanceScores), |feed|);
  }

  /** The body of the inner loop: a matching entry whose two numbers
      convert is appended to the two lists. */
  method AddEntry(ticker: string, ts: TickerSentiment, sentiments: seq<real>, relevances: seq<real>)
    returns (sentiments': seq<real>, relevances': seq<real>)
    ensures Matched(sentiments', relevances') == Then(Matched(sentiments, relevances), EntryMatch(ticker, ts))
  {
    sentiments', relevances' := sentiments, relevances;
    if Upper(ts.ticker) == Upper(ticker) {
      var score := ToFloat(ts.score);
      var relevance := ToFloat(ts.relevance);
      if score.Some? && relevance.Some? {
        sentiments' := sentiments + [score.value];
        relevances' := relevances + [relevance.value];
      }
    }
  }

  /** One more article extends the outer loop's lists by its entries. */
  lemma FeedStep(ticker: string, feed: seq<Article>, i: nat)
    requires i < |feed|
    ensures FeedMatch(ticker, feed[..i + 1]) == Then(FeedMatch(ticker, feed[..i]), EntriesMatch(ticker, feed[i].tickerSentiment))
  {
    assert feed[..i + 1][..i] == feed[..i];
  }

  lemma ThenAssociative(a: Matched, b: Matched, c: Matched)
    ensures Then(Then(a, b), c) == Then(a, Then(b, c))
  {
    assert (a.sentiments + b.sentiments) + c.sentiments == a.sentiments + (b.sentiments + c.sentiments);
    assert (a.relevances + b.relevances) + c.relevances == a.relevances + (b.relevances + c.relevances);
  }

  /** One more entry extends the inner loop's lists by what it contributes. */
  lemma EntriesStep(ticker: string, entries: seq<TickerSentiment>, j: nat)
    requires j < |entries|
    ensures EntriesMatch(ticker, entries[..j + 1]) == Then(EntriesMatch(ticker, entries[..j]), EntryMatch(ticker, entries[j]))
  {
    assert entries[..j + 1][..j] == entries[..j];
  }

  // ---------------------------------------------------------------------
  // Properties of the aggregate

  /** The two lists always have the same length, so the plain-mean branch
      of `Average` is never taken on what the loops build. */
  lemma {:induction false} FeedMatchParallel(ticker: string, feed: seq<Article>)
    ensures |FeedMatch(ticker, feed).sentiments| == |FeedMatch(ticker, feed).relevances|
  {
    if feed != [] {
      FeedMatchParallel(ticker, feed[..|feed| - 1]);
      EntriesMatchParallel(ticker, feed[|feed| - 1].tickerSentiment);
    }
  }

  lemma {:induction false} EntriesMatchParallel(ticker: string, entries: seq<TickerSentiment>)
    ensures |EntriesMatch(ticker, entries).sentiments| == |EntriesMatch(ticker, entries).relevances|
  {
    if entries != [] {
      EntriesMatchParallel(ticker, entries[..|entries| - 1]);
    }
  }

  /** Nothing is collected from an article's entries exactly when none of
      them is scored. */
  lemma {:induction false} EntriesMatchEmpty(ticker: string, entries: seq<TickerSentiment>)
    ensures EntriesMatch(ticker, entries).sentiments == [] <==>
      forall j | 0 <= j < |entries| :: !Scored(ticker, entries[j])
  {
    if entries != [] {
      var init := entries[..|entries| - 1];
      EntriesMatchEmpty(ticker, init);
      assert forall j | 0 <= j < |init| :: init[j] == entries[j];
    }
  }

  lemma {:induction false} FeedMatchEmpty(ticker: string, feed: seq<Article>)
    ensures FeedMatch(ticker, feed).sentiments == [] <==>
      forall i | 0 <= i < |feed| :: NoneScored(ticker, feed[i])
  {
    if feed != [] {
      var init := feed[..|feed| - 1];
      FeedMatchEmpty(ticker, init);
      EntriesMatchEmpty(ticker, feed[|feed| - 1].tickerSentiment);
      assert forall i | 0 <= i < |init| :: init[i] == feed[i];
    }
  }

  /** No entry of the article is about the ticker with convertible numbers. */
  predicate NoneScored(ticker: string, a: Article)
  {
    forall j | 0 <= j < |a.tickerSentiment| :: !Scored(ticker, a.tickerSentiment[j])
  }

  /** The aggregate is missing exactly when the feed is empty or no entry of
      any article matches the ticker (ignoring case) with scores that
      convert. */
  lemma AggregateNone(ticker: string, feed: seq<Article>)
    ensures AggregateSentiment(ticker, feed).None? <==>
      feed == [] || forall i | 0 <= i < |feed| :: NoneScored(ticker, feed[i])
  {
    FeedMatchEmpty(ticker, feed);
  }

  /** A present aggregate reports the whole feed length as the number of
      articles analysed, keeps the ticker as given, and its raw score is the
      relevance-weighted mean of the matched scores, or 0 when their total
      relevance is not positive. */
  lemma AggregateFields(ticker: string, feed: seq<Article>)
    requires AggregateSentiment(ticker, feed).Some?
    ensures AggregateSentiment(ticker, feed).value.articlesAnalyzed == |feed|
    ensures AggregateSentiment(ticker, feed).value.ticker == ticker
    ensures var m := FeedMatch(ticker, feed);
      AggregateSentiment(ticker, feed).value.sentimentScoreRaw ==
        if Sum(m.relevances) > 0.0 then WeightedSum(m.sentiments, m.relevances) / Sum(m.relevances) else 0.0
    ensures AggregateSentiment(ticker, feed).value.newsSentiment ==
      (AggregateSentiment(ticker, feed).value.sentimentScoreRaw + 1.0) / 2.0
  {
    FeedMatchParallel(ticker, feed);
  }

  /** With every weight non-negative and every score in [-1, 1], the weighted
      sum lies within the total weight on either side. */
  lemma WeightedSumBounds(s: seq<real>, r: seq<real>)
    requires |s| == |r|
    requires forall i | 0 <= i < |s| :: -1.0 <= s[i] <= 1.0
    requires forall i | 0 <= i < |r| :: r[i] >= 0.0
    ensures -Sum(r) <= WeightedSum(s, r) <= Sum(r)
  {
    DotBounds(s, r, |s|);
    assert r[..|r|] == r;
  }

  /** The first `n` products lie within the first `n` weights on either
      side. */
  lemma {:induction false} DotBounds(s: seq<real>, r: seq<real>, n: nat)
    requires n <= |s| && n <= |r|
    requires forall i | 0 <= i < |s| :: -1.0 <= s[i] <= 1.0
    requires forall i | 0 <= i < |r| :: r[i] >= 0.0
    ensures -Sum(r[..n]) <= Dot(s, r, n) <= Sum(r[..n])
  {
    if n > 0 {
      DotBounds(s, r, n - 1);
      assert r[..n][..n - 1] == r[..n - 1];
      var x, w := s[n - 1], r[n - 1];
      ProductBounds(x, w);
      WithinBoth(Dot(s, r, n - 1), x * w, Sum(r[..n - 1]), w);
    }
  }

  lemma WithinBoth(d: real, p: real, a: real, b: real)
    requires -a <= d <= a && -b <= p <= b
    ensures -(a + b) <= d + p <= a + b
  {
  }

  lemma ProductBounds(x: real, w: real)
    requires -1.0 <= x <= 1.0 && w >= 0.0
    ensures -w <= x * w <= w
  {
    assert (1.0 - x) * w >= 0.0;
    assert (1.0 + x) * w >= 0.0;
  }

  /** The average of lists of equal length whose scores lie in [-1, 1] and
      whose relevances are non-negative lies in [-1, 1]. */
  lemma AverageInUnit(m: Matched)
    requires |m.sentiments| == |m.relevances|
    requires forall x | x in m.sentiments :: -1.0 <= x <= 1.0
    requires forall x | x in m.relevances :: x >= 0.0
    ensures -1.0 <= Average(m) <= 1.0
  {
    var total := Sum(m.relevances);
    if m.relevances != [] && total > 0.0 {
      assert forall i | 0 <= i < |m.sentiments| :: -1.0 <= m.sentiments[i] <= 1.0 by {
        forall i | 0 <= i < |m.sentiments| ensures -1.0 <= m.sentiments[i] <= 1.0 {
          assert m.sentiments[i] in m.sentiments;
        }
      }
      assert forall i | 0 <= i < |m.relevances| :: m.relevances[i] >= 0.0 by {
        forall i | 0 <= i < |m.relevances| ensures m.relevances[i] >= 0.0 {
          assert m.relevances[i] in m.relevances;
        }
      }
      WeightedSumBounds(m.sentiments, m.relevances);
      QuotientBounds(WeightedSum(m.sentiments, m.relevances), total, -1.0, 1.0);
    }
  }

  /** When the matched scores lie in [-1, 1] and the relevances are
      non-negative, the raw score lies in [-1, 1] and the normalised
      sentiment in [0, 1]. */
  lemma NormalizedInUnit(ticker: string, feed: seq<Article>)
    requires AggregateSentiment(ticker, feed).Some?
    requires forall x | x in FeedMatch(ticker, feed).sentiments :: -1.0 <= x <= 1.0
    requires forall x | x in FeedMatch(ticker, feed).relevances :: x >= 0.0
    ensures -1.0 <= AggregateSentiment(ticker, feed).value.sentimentScoreRaw <= 1.0
    ensures 0.0 <= AggregateSentiment(ticker, feed).value.newsSentiment <= 1.0
  {
    FeedMatchParallel(ticker, feed);
    AverageInUnit(FeedMatch(ticker, feed));
  }

  /** Counts of two disjoint kinds among `n` items, as shares of `n`. */
  lemma ShareSum(p: real, q: real, n: real)
    requires 0.0 <= p && 0.0 <= q && p + q <= n && n > 0.0
    ensures 0.0 <= p / n && 0.0 <= q / n && p / n + q / n <= 1.0
  {
    assert p / n + q / n == (p + q) / n;
    QuotientBounds(p + q, n, 0.0, 1.0);
    QuotientBounds(p, n, 0.0, 1.0);
    QuotientBounds(q, n, 0.0, 1.0);
  }

  /** The bullish and bearish shares are fractions of the scored entries and
      add up to at most 1. */
  lemma SharesBounded(ticker: string, feed: seq<Article>)
    requires AggregateSentiment(ticker, feed).Some?
    ensures var a := AggregateSentiment(ticker, feed).value;
      0.0 <= a.bullishPct && 0.0 <= a.bearishPct && a.bullishPct + a.bearishPct <= 1.0
  {
    var s := FeedMatch(ticker, feed).sentiments;
    FilterDisjoint(s, IsBullish, IsBearish);
    ShareSum(|Filter(s, IsBullish)| as real, |Filter(s, IsBearish)| as real, |s| as real);
  }

  // ---------------------------------------------------------------------
  // The collection loop

  /** What the request for one ticker yields: a transport or JSON error
      (before the call is counted), or a payload whose `feed` may be empty
      or missing (the empty list). */
  datatype Response = Failed | Payload(feed: seq<Article>)

  /** The call count after a run, and the sentiments collected. */
  datatype Run = Run(calls: int, results: seq<NewsSentiment>)

  /** What one successful request adds to the results: the aggregate of a
      non-empty feed, when there is one. */
  function Found(ticker: string, feed: seq<Article>): seq<NewsSentiment>
  {
    if feed == [] then []
    else match AggregateSentiment(ticker, feed)
      case None => []
      case Some(a) => [a]
  }

  /** The results `prefix` already collected, then a run. */
  function Prepend(prefix: seq<NewsSentiment>, run: Run): Run
  {
    Run(run.calls, prefix + run.results)
  }

  /** The loop of `collect_news_sentiment` from `count` calls on, as a
      value: it stops before a request once the count reaches the cap. */
  function CollectFrom(count: int, cap: int, tickers: seq<string>, fetch: string -> Response): Run
    decreases |tickers|
  {
    if tickers == [] || count >= cap then Run(count, [])
    else match fetch(tickers[0])
      case Failed => CollectFrom(count, cap, tickers[1..], fetch)
      case Payload(feed) => Prepend(Found(tickers[0], feed), CollectFrom(count + 1, cap, tickers[1..], fetch))
  }

  /** One iteration of the loop below the cap. */
  lemma CollectStep(count: int, cap: int, tickers: seq<string>, i: nat, fetch: string -> Response)
    requires i < |tickers| && count < cap
    ensures fetch(tickers[i]).Failed? ==>
      CollectFrom(count, cap, tickers[i..], fetch) == CollectFrom(count, cap, tickers[i + 1..], fetch)
    ensures fetch(tickers[i]).Payload? ==>
      CollectFrom(count, cap, tickers[i..], fetch)
        == Prepend(Found(tickers[i], fetch(tickers[i]).feed), CollectFrom(count + 1, cap, tickers[i + 1..], fetch))
  {
    assert tickers[i..][1..] == tickers[i + 1..];
  }

  lemma PrependPrepend(a: seq<NewsSentiment>, b: seq<NewsSentiment>, run: Run)
    ensures Prepend(a, Prepend(b, run)) == Prepend(a + b, run)
  {
    assert a + (b + run.results) == (a + b) + run.results;
  }

  /** The call count never decreases, rises by at most one per ticker and
      never passes the cap when it starts at or below it; there is at most
      one result per counted call. */
  lemma {:induction false} CollectCapped(count: int, cap: int, tickers: seq<string>, fetch: string -> Response)
    ensures var run := CollectFrom(count, cap, tickers, fetch);
      && count <= run.calls <= count + |tickers|
      && (count <= cap ==> run.calls <= cap)
      && |run.results| <= run.calls - count
    decreases |tickers|
  {
    if tickers != [] && count < cap {
      match fetch(tickers[0])
      case Failed =>
        CollectCapped(count, cap, tickers[1..], fetch);
      case Payload(feed) =>
        assert |Found(tickers[0], feed)| <= 1;
        CollectCapped(count + 1, cap, tickers[1..], fetch);
    }
  }

  /** Every collected result is the aggregate for one of the tickers, over
      a non-empty feed. */
  lemma {:induction false} CollectedAreAggregates(count: int, cap: int, tickers: seq<string>,
                                                  fetch: string -> Response, x: NewsSentiment)
    requires x in CollectFrom(count, cap, tickers, fetch).results
    ensures exists t | t in tickers :: fetch(t).Payload? && AggregateSentiment(t, fetch(t).feed) == Some(x)
    decreases |tickers|
  {
    var t := tickers[0];
    match fetch(t)
    case Failed =>
      CollectedAreAggregates(count, cap, tickers[1..], fetch, x);
    case Payload(feed) =>
      if x in Found(t, feed) {
        assert t in tickers;
      } else {
        CollectedAreAggregates(count + 1, cap, tickers[1..], fetch, x);
        var u :| u in tickers[1..] && fetch(u).Payload? && AggregateSentiment(u, fetch(u).feed) == Some(x);
        assert u in tickers;
      }
  }

  /** A collector that has reached its cap makes no call and finds
      nothing. */
  lemma CapReachedCollectsNothing(count: int, cap: int, tickers: seq<string>, fetch: string -> Response)
    requires count >= cap
    ensures CollectFrom(count, cap, tickers, fetch) == Run(count, [])
  {
  }

  class Collector {
    const callsPerDay: int
    var callCount: int

    constructor (callsPerDay: int)
      ensures this.callsPerDay == callsPerDay && callCount == 0
    {
      this.callsPerDay := callsPerDay;
      callCount := 0;
    }

    /** `collect_news_sentiment`. */
    method CollectNewsSentiment(tickers: seq<string>, fetch: string -> Response)
      returns (results: seq<NewsSentiment>)
      modifies this
      ensures Run(callCount, results) == CollectFrom(old(callCount), callsPerDay, tickers, fetch)
      ensures old(callCount) <= callsPerDay ==> callCount <= callsPerDay
    {
      results := [];
      var i := 0;
      while i < |tickers|
        invariant 0 <= i <= |tickers|
        invariant CollectFrom(old(callCount), callsPerDay, tickers, fetch)
          == Prepend(results, CollectFrom(callCount, callsPerDay, tickers[i..], fetch))
      {
        if callCount >= callsPerDay {
          break;
        }
        var ticker := tickers[i];
        CollectStep(callCount, callsPerDay, tickers, i, fetch);
        match fetch(ticker) {
          case Failed =>
          case Payload(feed) =>
            ghost var before := results;
            callCount := callCount + 1;
            if feed != [] {
              var found := CalculateAggregateSentiment(ticker, feed);
              if found.Some? {
                results := results + [found.value];
              }
            }
            assert results == before + Found(ticker, feed);
            PrependPrepend(before, Found(ticker, feed), CollectFrom(callCount, callsPerDay, tickers[i + 1..], fetch));
        }
        i := i + 1;
      }
      assert CollectFrom(callCount, callsPerDay, tickers[i..], fetch) == Run(callCount, []);
      CollectCapped(old(callCount), callsPerDay, tickers, fetch);
    }

    /** `reset_call_count`. */
    method ResetCallCount()
      modifies this
      ensures callCount == 0
    {
      callCount := 0;
    }
  }
}
